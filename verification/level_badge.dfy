/** The badge shown next to a user (`components/LevelBadge.tsx`). */
module LevelBadge {

  /** The eight noble tiers, lowest first. */
  datatype Tier = N1 | N4 | N7 | N10 | N13 | N16 | N19 | N20

  /**
   * `getNobleConfig`, thresholds checked highest first: the chosen tier is
   * the highest one whose threshold the level reaches; a level below 4
   * (zero and negatives included) falls to N1.
   */
  function NobleTier(level: int): (t: Tier)
    ensures t != N1 ==> Threshold(t) <= level
    ensures forall u: Tier :: u != N1 && Threshold(u) <= level ==> Rank(u) <= Rank(t)
    ensures level < 4 <==> t == N1
  {
    if level >= 20 then N20
    else if level >= 19 then N19
    else if level >= 16 then N16
    else if level >= 13 then N13
    else if level >= 10 then N10
    else if level >= 7 then N7
    else if level >= 4 then N4
    else N1
  }

  /** The tier's position in the order N1 < N4 < ... < N20. */
  function Rank(t: Tier): nat {
    match t
    case N1 => 0 case N4 => 1 case N7 => 2 case N10 => 3
    case N13 => 4 case N16 => 5 case N19 => 6 case N20 => 7
  }

  /** The tier a given threshold opens. */
  function Threshold(t: Tier): int {
    match t
    case N1 => 0 case N4 => 4 case N7 => 7 case N10 => 10
    case N13 => 13 case N16 => 16 case N19 => 19 case N20 => 20
  }

  /** The text the badge shows for a tier. */
  function TierLabel(t: Tier): string {
    match t
    case N1 => "N1" case N4 => "N4" case N7 => "N7" case N10 => "N10"
    case N13 => "N13" case N16 => "N16" case N19 => "N19" case N20 => "N20"
  }

  /** A higher level never yields a lower tier. */
  lemma NobleTierMonotone(a: int, b: int)
    requires a <= b
    ensures Rank(NobleTier(a)) <= Rank(NobleTier(b))
  {
  }

  /** N20 exactly from 20 up, N19 exactly at 19. */
  lemma TopTiers(level: int)
    ensures TierLabel(NobleTier(level)) == "N20" <==> level >= 20
    ensures TierLabel(NobleTier(level)) == "N19" <==> level == 19
  {
  }

  datatype BadgeKind = Noble | Vip | Level

  /** What the badge shows: "VIP" and the level, the bare level, or a noble tier. */
  datatype Badge = VipBadge(level: int) | LevelNumber(level: int) | NobleBadge(tier: Tier)

  /** The badge rendering choice: only the default `noble` kind consults the tier table. */
  function BadgeFor(level: int, kind: BadgeKind): (b: Badge)
    ensures kind == Vip <==> b.VipBadge?
    ensures kind == Level <==> b.LevelNumber?
    ensures b.VipBadge? || b.LevelNumber? ==> b.level == level
    ensures kind == Noble ==> b == NobleBadge(NobleTier(level))
  {
    match kind
    case Vip => VipBadge(level)
    case Level => LevelNumber(level)
    case Noble => NobleBadge(NobleTier(level))
  }
}
