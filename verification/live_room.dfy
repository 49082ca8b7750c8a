/**
 * The live room's chat and gift handlers (`pages/LiveRoom.tsx`): a capped
 * text chat and a balance-guarded gift debit on the session user's copy.
 */
module LiveRoom {
  import opened Wrappers
  import opened Records
  import Text

  /** The text chat keeps only its most recent messages. */
  const ChatCap: nat := 20

  datatype Gift = Gift(id: string, price: int, icon: string)

  /** A text line carries the sender's level and the fixed noble/VIP badges; a gift line only the icon. */
  datatype MessageBody =
    | ChatLine(text: string, level: int, nobleLevel: int, vipLevel: int)
    | GiftLine(icon: string)

  datatype Message = Message(id: string, sender: Option<string>, body: MessageBody)

  /** The room screen's state: its copy of the session user, the messages, the input box and the gift drawer. */
  datatype RoomView = RoomView(user: User, messages: seq<Message>, input: string, showGifts: bool)

  /**
   * The room's user: the stored session user, or the mock user when the slot
   * is empty or fails to parse (the room catches the parse error).
   */
  function RoomUser(slot: SessionSlot, mock: User): (u: User)
    ensures slot.Holds? ==> u == slot.user
    ensures !slot.Holds? ==> u == mock
  {
    match slot
    case Holds(stored) => stored
    case _ => mock
  }

  /** `currentUser.supporterLevel || 1`. */
  function LevelOf(u: User): (level: int)
    ensures u.supporterLevel.Some? && u.supporterLevel.value != 0 ==> level == u.supporterLevel.value
    ensures u.supporterLevel.None? || u.supporterLevel.value == 0 ==> level == 1
  {
    if u.supporterLevel.Some? && u.supporterLevel.value != 0 then u.supporterLevel.value else 1
  }

  /** `.slice(-20)`: the last `ChatCap` elements, or all of them when there are fewer. */
  function KeepLast<T>(s: seq<T>): (r: seq<T>)
    ensures |r| == if |s| <= ChatCap then |s| else ChatCap
    ensures r == s[|s| - |r|..]
  {
    if |s| <= ChatCap then s else s[|s| - ChatCap..]
  }

  /**
   * `handleSendMessage`: whitespace-only input changes nothing; otherwise the
   * untrimmed text is appended as one chat line, the list is cut back to its
   * last 20 entries and the input is cleared.
   */
  function SendMessage(v: RoomView, msgId: string): (r: RoomView)
    ensures Text.IsBlank(v.input) ==> r == v
    ensures !Text.IsBlank(v.input) ==>
      var all := v.messages + [ChatOf(v, msgId)];
      && |r.messages| == (if |all| <= ChatCap then |all| else ChatCap)
      && r.messages == all[|all| - |r.messages|..]
      && r == v.(messages := r.messages, input := "")
  {
    Text.TrimEmptyIffBlank(v.input);
    if Text.Trim(v.input) == [] then v
    else v.(messages := KeepLast(v.messages + [ChatOf(v, msgId)]), input := "")
  }

  /** The line a send appends: the untrimmed input, the sender's level and the fixed badges. */
  function ChatOf(v: RoomView, msgId: string): (m: Message)
    ensures m.id == msgId && m.sender == v.user.name
    ensures m.body.ChatLine? && m.body.text == v.input && m.body.level == LevelOf(v.user)
    ensures m.body.nobleLevel == 1 && m.body.vipLevel == 5
  {
    Message(msgId, v.user.name, ChatLine(v.input, LevelOf(v.user), 1, 5))
  }

  /** A non-blank send ends the chat with the new line, preceded by the newest earlier lines. */
  lemma SendEndsWithNewLine(v: RoomView, msgId: string)
    requires !Text.IsBlank(v.input)
    ensures var m := SendMessage(v, msgId).messages;
      && 1 <= |m| <= ChatCap
      && m[|m| - 1] == ChatOf(v, msgId)
      && m[..|m| - 1] == v.messages[|v.messages| + 1 - |m|..]
  {
    var m := SendMessage(v, msgId).messages;
    SuffixOfAppend(v.messages, ChatOf(v, msgId), m);
  }

  /** A non-empty suffix of `s + [x]` ends with `x`, preceded by a suffix of `s`. */
  lemma SuffixOfAppend<T>(s: seq<T>, x: T, m: seq<T>)
    requires 1 <= |m| <= |s| + 1 && m == (s + [x])[|s| + 1 - |m|..]
    ensures m[|m| - 1] == x && m[..|m| - 1] == s[|s| + 1 - |m|..]
  {
    var all := s + [x];
    assert m[|m| - 1] == all[|all| - 1];
    assert m[..|m| - 1] == all[|all| - |m|..|all| - 1];
  }

  /** Sending never lets the chat grow past the cap once it is within it. */
  lemma SendKeepsCap(v: RoomView, msgId: string)
    requires |v.messages| <= ChatCap
    ensures |SendMessage(v, msgId).messages| <= ChatCap
  {
  }

  datatype GiftResult = InsufficientBalance | GiftSent

  /**
   * `handleGiftSelect`: with fewer coins than the price the gift is refused
   * and nothing changes. Otherwise the price is debited from the screen's user,
   * that user is written to 'tikbook_user' (the user collection is not
   * touched), one gift line is appended without any cap, and the drawer closes.
   * A user without a balance is never refused (`undefined < price` is false)
   * and keeps no number as balance (`undefined - price` is NaN).
   */
  function SelectGift(v: RoomView, s: Store, gift: Gift, msgId: string): (r: (RoomView, Store, GiftResult))
    ensures v.user.coins.Some? && v.user.coins.value < gift.price ==> r == (v, s, InsufficientBalance)
    ensures !(v.user.coins.Some? && v.user.coins.value < gift.price) ==>
      && r.2 == GiftSent
      && r.0.user == v.user.(coins := if v.user.coins.Some? then Some(v.user.coins.value - gift.price) else None)
      && r.0.messages == v.messages + [Message(msgId, v.user.name, GiftLine(gift.icon))]
      && !r.0.showGifts && r.0.input == v.input
      && r.1 == s.(userSlot := Holds(r.0.user))
  {
    if v.user.coins.Some? && v.user.coins.value < gift.price then (v, s, InsufficientBalance)
    else
      var u := v.user.(coins := if v.user.coins.Some? then Some(v.user.coins.value - gift.price) else None);
      (v.(user := u, messages := v.messages + [Message(msgId, v.user.name, GiftLine(gift.icon))], showGifts := false),
       s.(userSlot := Holds(u)), GiftSent)
  }

  /** A balance that is non-negative stays non-negative across any gift attempt. */
  lemma GiftKeepsBalanceNonNegative(v: RoomView, s: Store, gift: Gift, msgId: string)
    requires v.user.coins.Some? && v.user.coins.value >= 0
    ensures SelectGift(v, s, gift, msgId).0.user.coins.Some?
    ensures SelectGift(v, s, gift, msgId).0.user.coins.value >= 0
  {
  }

  /** The gift debit never changes the user collection. */
  lemma GiftLeavesCollection(v: RoomView, s: Store, gift: Gift, msgId: string)
    ensures SelectGift(v, s, gift, msgId).1.allUsers == s.allUsers
  {
  }
}
