/** Entities shared by every game module: the 18-hole card, nullable entries,
    the small enumerations the round state stores, and sums over hole ranges. */
module Golf {

  /** Number of holes on a card; index 0 is hole 1. */
  const Holes: nat := 18
  /** Holes 1-9 form the front nine ("out"), holes 10-18 the back nine ("in"). */
  const Nine: nat := 9

  /** A nullable entry: None is "not yet recorded", never zero. */
  datatype Option<+T> = None | Some(value: T)

  /** The two sides of a two-player match (Nassau). */
  datatype Side = P1 | P2

  /** The press rule of a Nassau round. */
  datatype PressRule = Manual | AutoTwoDown

  /** A Nassau press: the 1-based hole it starts on, the side that pressed,
      the running match status when it was made, and whether it was automatic. */
  datatype Press = Press(hole: int, player: Side, initialMatchStatus: int, auto: bool)

  /** A player slot 0..3 of a four-player game. */
  type PlayerIndex = i: int | 0 <= i < 4

  /** The Wolf captain's choice on a hole: nothing yet, alone, or a partner. */
  datatype Selection = NoSelection | Alone | Partner(index: PlayerIndex)

  /** One player's Bingo, Bango and Bongo checkboxes on one hole. */
  datatype HoleMarks = HoleMarks(bi: bool, ba: bool, bo: bool)

  /** A Bloodsome drive selection: empty, or the teammate whose drive is used. */
  datatype Driver = NoDriver | PA | PB | PC | PD

  /** The game variants a round can be set up for; Unknown is any other tag. */
  datatype GameType = Nassau | Skins | Wolf | Bingo | Bloodsome | Stableford | Banker | Vegas | Unknown

  /** `x || d` on a number read from the form: a zero (or unparsable) value
      falls back to the default d, any other value is kept. */
  function OrDefault(x: real, d: real): (r: real)
    ensures x != 0.0 ==> r == x
    ensures x == 0.0 ==> r == d
    ensures d != 0.0 ==> r != 0.0
  {
    if x == 0.0 then d else x
  }

  /** Sum of the recorded entries of s on holes lo..hi-1 (missing ones are skipped). */
  function SumPresent(s: seq<Option<int>>, lo: nat, hi: nat): int
    requires lo <= hi <= |s|
    decreases hi - lo
  {
    if lo == hi then 0
    else (match s[hi - 1] case Some(v) => v case None => 0) + SumPresent(s, lo, hi - 1)
  }

  /** Every entry of s on holes lo..hi-1 is recorded. */
  predicate AllPresent(s: seq<Option<int>>, lo: nat, hi: nat)
    requires lo <= hi <= |s|
  {
    forall k :: lo <= k < hi ==> s[k].Some?
  }

  /** No entry of s on holes lo..hi-1 is recorded. */
  predicate NonePresent(s: seq<Option<int>>, lo: nat, hi: nat)
    requires lo <= hi <= |s|
  {
    forall k :: lo <= k < hi ==> s[k].None?
  }

  /** Sum of s on lo..hi-1. */
  function SumRange(s: seq<int>, lo: nat, hi: nat): int
    requires lo <= hi <= |s|
    decreases hi - lo
  {
    if lo == hi then 0 else s[hi - 1] + SumRange(s, lo, hi - 1)
  }

  /** Sum of s on lo..hi-1, for real-valued entries. */
  function SumRangeReal(s: seq<real>, lo: nat, hi: nat): real
    requires lo <= hi <= |s|
    decreases hi - lo
  {
    if lo == hi then 0.0 else s[hi - 1] + SumRangeReal(s, lo, hi - 1)
  }

  /** The front-nine and back-nine sums of recorded entries add up to the 18-hole sum. */
  lemma {:induction false} SumPresentSplit(s: seq<Option<int>>, lo: nat, mid: nat, hi: nat)
    requires lo <= mid <= hi <= |s|
    ensures SumPresent(s, lo, hi) == SumPresent(s, lo, mid) + SumPresent(s, mid, hi)
    decreases hi - mid
  {
    if mid < hi {
      SumPresentSplit(s, lo, mid, hi - 1);
    }
  }

  /** Range sums split at any midpoint. */
  lemma {:induction false} SumRangeSplit(s: seq<int>, lo: nat, mid: nat, hi: nat)
    requires lo <= mid <= hi <= |s|
    ensures SumRange(s, lo, hi) == SumRange(s, lo, mid) + SumRange(s, mid, hi)
    decreases hi - mid
  {
    if mid < hi {
      SumRangeSplit(s, lo, mid, hi - 1);
    }
  }

  /** Real range sums split at any midpoint. */
  lemma {:induction false} SumRangeRealSplit(s: seq<real>, lo: nat, mid: nat, hi: nat)
    requires lo <= mid <= hi <= |s|
    ensures SumRangeReal(s, lo, hi) == SumRangeReal(s, lo, mid) + SumRangeReal(s, mid, hi)
    decreases hi - mid
  {
    if mid < hi {
      SumRangeRealSplit(s, lo, mid, hi - 1);
    }
  }

  /** The row accumulators after the summary loop has visited the first i holes. */
  predicate RowUpTo(s: seq<Option<int>>, i: nat, front: int, back: int, total: int, frontComplete: bool, backComplete: bool)
    requires |s| == Holes && i <= Holes
  {
    && front == SumPresent(s, 0, if i < Nine then i else Nine)
    && back == (if i <= Nine then 0 else SumPresent(s, Nine, i))
    && total == SumPresent(s, 0, i)
    && (frontComplete <==> AllPresent(s, 0, if i < Nine then i else Nine))
    && (backComplete <==> i <= Nine || AllPresent(s, Nine, i))
  }

  /** One row of a card's summary loop: the out, in and total sums of the
      recorded entries, and whether each nine has every entry recorded. */
  method RowSums(s: seq<Option<int>>) returns (front: int, back: int, total: int, frontComplete: bool, backComplete: bool)
    requires |s| == Holes
    ensures front == SumPresent(s, 0, Nine) && back == SumPresent(s, Nine, Holes)
    ensures total == front + back
    ensures frontComplete <==> AllPresent(s, 0, Nine)
    ensures backComplete <==> AllPresent(s, Nine, Holes)
  {
    front, back, total := 0, 0, 0;
    frontComplete, backComplete := true, true;
    var i := 0;
    while i < Holes
      invariant 0 <= i <= Holes
      invariant RowUpTo(s, i, front, back, total, frontComplete, backComplete)
    {
      front, back, total, frontComplete, backComplete := RowStep(s, i, front, back, total, frontComplete, backComplete);
      i := i + 1;
    }
    SumPresentSplit(s, 0, Nine, Holes);
  }

  /** One hole of the summary loop: a recorded entry adds to its nine (holes
      1-9 out, 10-18 in) and to the total; a missing one marks its nine incomplete. */
  method RowStep(s: seq<Option<int>>, i: nat, front: int, back: int, total: int, frontComplete: bool, backComplete: bool)
    returns (front': int, back': int, total': int, frontComplete': bool, backComplete': bool)
    requires |s| == Holes && i < Holes
    requires RowUpTo(s, i, front, back, total, frontComplete, backComplete)
    ensures RowUpTo(s, i + 1, front', back', total', frontComplete', backComplete')
  {
    front', back', total', frontComplete', backComplete' := front, back, total, frontComplete, backComplete;
    var holeNum := i + 1;
    if s[i].Some? {
      if holeNum <= 9 { front' := front + s[i].value; } else { back' := back + s[i].value; }
      total' := total + s[i].value;
    } else {
      if holeNum <= 9 { frontComplete' := false; } else { backComplete' := false; }
    }
  }
}
