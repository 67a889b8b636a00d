/**
 * The repeat mode of the playlist and its fixed rotation
 * No -> All -> One -> No (`PlayerRepeatType` and `nextRepeatType`).
 */
module RepeatCycle {

  datatype RepeatType = No | All | One

  /** Position of a mode in the rotation; the rotation is "add one modulo three" here. */
  function Position(t: RepeatType): (p: nat)
    ensures p < 3
  {
    match t
    case No => 0
    case All => 1
    case One => 2
  }

  /** Distinct modes have distinct positions. */
  lemma PositionInjective(s: RepeatType, t: RepeatType)
    requires Position(s) == Position(t)
    ensures s == t
  {
  }

  /** The mode that follows `t` when the repeat button is pressed. */
  function Successor(t: RepeatType): (r: RepeatType)
    ensures Position(r) == (Position(t) + 1) % 3
    ensures r != t
  {
    match t
    case No => All
    case All => One
    case One => No
  }

  /** The mode after `k` presses, starting from `t`. */
  function Iterate(t: RepeatType, k: nat): RepeatType
  {
    if k == 0 then t else Successor(Iterate(t, k - 1))
  }

  /** Three presses always come back to the starting mode. */
  lemma ThreePressesReturn(t: RepeatType)
    ensures Successor(Successor(Successor(t))) == t
  {
  }

  /** After `k` presses the position has advanced by `k` modulo three. */
  lemma {:induction false} IteratePosition(t: RepeatType, k: nat)
    ensures Position(Iterate(t, k)) == (Position(t) + k) % 3
  {
    if k > 0 {
      IteratePosition(t, k - 1);
    }
  }

  /** Starting from `No`, the mode after `k` presses is `[No, All, One][k % 3]`. */
  lemma {:induction false} IterateFromNo(k: nat)
    ensures Iterate(No, k) == [No, All, One][k % 3]
  {
    IteratePosition(No, k);
    PositionInjective(Iterate(No, k), [No, All, One][k % 3]);
  }

  /** The rotation has period three from every mode. */
  lemma {:induction false} IteratePeriodic(t: RepeatType, k: nat)
    ensures Iterate(t, k + 3) == Iterate(t, k)
  {
    IteratePosition(t, k + 3);
    IteratePosition(t, k);
    PositionInjective(Iterate(t, k + 3), Iterate(t, k));
  }
}
