/**
 * The comment sheet under a post (`components/CommentSheet.tsx`): sending a
 * comment prepends it to the local list and, when the post belongs to
 * someone else, records a 'comment' activity for the post's owner.
 */
module CommentSheet {
  import opened Wrappers
  import opened Records
  import Text

  /** A comment line of the sheet; `user` is the author's display name. */
  datatype CommentLine = CommentLine(id: int, user: Option<string>, text: string, likes: int)

  datatype Sheet = Sheet(comments: seq<CommentLine>, text: string)

  /**
   * The sheet's user: the stored session user, or the built-in mock user when
   * the slot is empty. A slot holding "undefined" makes the parse throw.
   */
  function SheetUser(slot: SessionSlot, mock: User): (r: Outcome<User, Error>)
    ensures r.Threw? <==> slot.Undefined?
    ensures slot.NoUser? ==> r == Returned(mock)
    ensures slot.Holds? ==> r == Returned(slot.user)
  {
    match slot
    case NoUser => Returned(mock)
    case Holds(u) => Returned(u)
    case Undefined => Threw(MalformedJson)
  }

  /** The activity a comment records for the post's owner; the text is the untrimmed input. */
  function CommentActivity(post: Post, viewer: User, text: string, actId: string, now: int): (a: Activity)
    ensures a.userId == post.userId && a.kind == Comment && a.fromUserId == viewer.id
    ensures a.fromUserName == viewer.name && a.fromUserAvatar == viewer.avatar
    ensures a.postThumb == post.thumbnail && a.text == Some(text) && a.timestamp == now && a.id == actId
  {
    Activity(actId, post.userId, Comment, viewer.id, viewer.name, viewer.avatar, now, post.thumbnail, Some(text))
  }

  /** The post is someone else's, so a comment on it is announced to its owner. */
  predicate NotifiesOwner(post: Option<Post>, viewer: User) {
    post.Some? && post.value.userId != viewer.id
  }

  /**
   * `handleSend`: whitespace-only text changes nothing. Otherwise the comment
   * (likes 0) goes to the front of the list, the text box is cleared, and the
   * activity store gains one entry at the front exactly when the post is
   * someone else's; no other slot is written.
   */
  function HandleSend(sheet: Sheet, s: Store, post: Option<Post>, viewer: User,
                      commentId: int, actId: string, now: int): (r: (Sheet, Store))
    ensures Text.IsBlank(sheet.text) ==> r == (sheet, s)
    ensures !Text.IsBlank(sheet.text) ==>
      && r.0.comments == [CommentLine(commentId, viewer.name, sheet.text, 0)] + sheet.comments
      && r.0.text == ""
      && r.1 == s.(activities := r.1.activities)
    ensures !Text.IsBlank(sheet.text) && NotifiesOwner(post, viewer) ==>
      r.1.activities == [CommentActivity(post.value, viewer, sheet.text, actId, now)] + s.activities
    ensures !(!Text.IsBlank(sheet.text) && NotifiesOwner(post, viewer)) ==> r.1.activities == s.activities
  {
    Text.TrimEmptyIffBlank(sheet.text);
    if Text.Trim(sheet.text) == [] then (sheet, s)
    else
      var sheet' := Sheet([CommentLine(commentId, viewer.name, sheet.text, 0)] + sheet.comments, "");
      if NotifiesOwner(post, viewer) then
        (sheet', s.(activities := [CommentActivity(post.value, viewer, sheet.text, actId, now)] + s.activities))
      else (sheet', s)
  }

  /** Commenting on one's own post, or with no post, never writes an activity. */
  lemma OwnPostIsSilent(sheet: Sheet, s: Store, post: Option<Post>, viewer: User,
                        commentId: int, actId: string, now: int)
    requires post.None? || post.value.userId == viewer.id
    ensures HandleSend(sheet, s, post, viewer, commentId, actId, now).1 == s
  {
  }

  /** A send adds at most one activity, and only one addressed to the post's owner. */
  lemma SendAddsOneActivity(sheet: Sheet, s: Store, post: Option<Post>, viewer: User,
                            commentId: int, actId: string, now: int)
    ensures var after := HandleSend(sheet, s, post, viewer, commentId, actId, now).1.activities;
      && |s.activities| <= |after| <= |s.activities| + 1
      && after[|after| - |s.activities|..] == s.activities
      && (|after| == |s.activities| + 1 ==> post.Some? && after[0].userId == post.value.userId != viewer.id)
  {
  }
}
