/** Nassau match play between two players (js/nassau.js): a running match status,
    automatic and manual presses, press resolution, nine-hole totals and the
    settlement of the front nine, back nine, overall match and presses. */
module Nassau {
  import opened Golf
  import opened Utils

  // ---------------------------------------------------------------------------
  // Holes and the running match status
  // ---------------------------------------------------------------------------

  /** Both players have a score on hole index i. */
  predicate Scored(p1: seq<Option<int>>, p2: seq<Option<int>>, i: nat)
    requires i < |p1| && i < |p2|
  {
    p1[i].Some? && p2[i].Some?
  }

  /** The hole result: P1's score minus P2's (negative means P1 won the hole). */
  function HoleResult(a: Option<int>, b: Option<int>): (r: Option<int>)
    ensures r.None? <==> a.None? || b.None?
    ensures r.Some? ==> (r.value < 0 <==> a.value < b.value) && (r.value > 0 <==> a.value > b.value)
  {
    if a.Some? && b.Some? then Some(a.value - b.value) else None
  }

  /** The change one hole makes to the match status: +1 when P1 wins it,
      -1 when P2 wins it, 0 when it is halved or not fully scored. */
  function StatusStep(a: Option<int>, b: Option<int>): (d: int)
    ensures -1 <= d <= 1
    ensures d == 1 <==> a.Some? && b.Some? && a.value < b.value
    ensures d == -1 <==> a.Some? && b.Some? && a.value > b.value
  {
    match HoleResult(a, b)
    case None => 0
    case Some(r) => if r < 0 then 1 else if r > 0 then -1 else 0
  }

  /** The match status after the first n holes (positive: P1 is up). */
  function StatusAfter(p1: seq<Option<int>>, p2: seq<Option<int>>, n: nat): int
    requires n <= |p1| && n <= |p2|
  {
    if n == 0 then 0 else StatusAfter(p1, p2, n - 1) + StatusStep(p1[n - 1], p2[n - 1])
  }

  /** The per-hole results row. */
  function HoleResults(p1: seq<Option<int>>, p2: seq<Option<int>>): (r: seq<Option<int>>)
    requires |p1| == |p2|
    ensures |r| == |p1|
    ensures forall i :: 0 <= i < |r| ==> (r[i].None? <==> !Scored(p1, p2, i))
  {
    seq(|p1|, i requires 0 <= i < |p1| => HoleResult(p1[i], p2[i]))
  }

  /** The match-status row: entry i is the status after hole i + 1. */
  function MatchStatus(p1: seq<Option<int>>, p2: seq<Option<int>>): (ms: seq<int>)
    requires |p1| == |p2|
    ensures |ms| == |p1|
  {
    seq(|p1|, i requires 0 <= i < |p1| => StatusAfter(p1, p2, i + 1))
  }

  /** The status moves by at most one per hole, and only on a fully scored hole
      that is not halved; after n holes it is at most n either way. */
  lemma {:induction false} StatusBounded(p1: seq<Option<int>>, p2: seq<Option<int>>, n: nat)
    requires n <= |p1| && n <= |p2|
    ensures Abs(StatusAfter(p1, p2, n)) <= n
  {
    if n > 0 {
      StatusBounded(p1, p2, n - 1);
    }
  }

  /** Consecutive entries of the match-status row differ by at most one, are
      equal on a hole that is not fully scored, and entry i is at most i + 1. */
  lemma MatchStatusSteps(p1: seq<Option<int>>, p2: seq<Option<int>>, i: nat)
    requires |p1| == |p2| && i < |p1|
    ensures Abs(MatchStatus(p1, p2)[i]) <= i + 1
    ensures 0 < i ==> -1 <= MatchStatus(p1, p2)[i] - MatchStatus(p1, p2)[i - 1] <= 1
    ensures 0 < i && !Scored(p1, p2, i) ==> MatchStatus(p1, p2)[i] == MatchStatus(p1, p2)[i - 1]
  {
    StatusBounded(p1, p2, i + 1);
  }

  /** A player who wins each of the first n holes is n up: nine straight wins
      leave the front-nine status at 9. */
  lemma {:induction false} SweepStatus(p1: seq<Option<int>>, p2: seq<Option<int>>, n: nat)
    requires n <= |p1| && n <= |p2|
    requires forall k :: 0 <= k < n ==> p1[k].Some? && p2[k].Some? && p1[k].value < p2[k].value
    ensures StatusAfter(p1, p2, n) == n
  {
    if n > 0 {
      SweepStatus(p1, p2, n - 1);
    }
  }

  /** Swapping the players negates the status after every hole. */
  lemma {:induction false} StatusSwap(p1: seq<Option<int>>, p2: seq<Option<int>>, n: nat)
    requires n <= |p1| && n <= |p2|
    ensures StatusAfter(p2, p1, n) == -StatusAfter(p1, p2, n)
  {
    if n > 0 {
      StatusSwap(p1, p2, n - 1);
    }
  }

  // ---------------------------------------------------------------------------
  // Automatic presses
  // ---------------------------------------------------------------------------

  /** A side has just gone from exactly one down to exactly two down. */
  predicate TwoDownTransition(prev: int, cur: int)
  {
    (prev == -1 && cur == -2) || (prev == 1 && cur == 2)
  }

  /** The side that is down: P2 when the status is positive, otherwise P1. */
  function Trailing(status: int): (s: Side)
    ensures status > 0 ==> s == P2
    ensures status < 0 ==> s == P1
  {
    if status > 0 then P2 else P1
  }

  /** Some press in ps starts on the given 1-based hole. */
  predicate HasPressAt(ps: seq<Press>, hole: int)
  {
    exists k :: 0 <= k < |ps| && ps[k].hole == hole
  }

  /** On hole index i the auto-2down rule adds a press to the list ps. */
  predicate AutoPressDue(rule: PressRule, p1: seq<Option<int>>, p2: seq<Option<int>>, ps: seq<Press>, i: nat)
    requires i < |p1| && i < |p2|
  {
    rule == AutoTwoDown && i > 0
    && TwoDownTransition(StatusAfter(p1, p2, i), StatusAfter(p1, p2, i + 1))
    && !HasPressAt(ps, i + 1)
    && Scored(p1, p2, i)
  }

  /** The automatic press made on hole index i: for the trailing side, carrying
      the status at that hole. */
  function AutoPress(p1: seq<Option<int>>, p2: seq<Option<int>>, i: nat): Press
    requires i < |p1| && i < |p2|
  {
    var cur := StatusAfter(p1, p2, i + 1);
    Press(i + 1, Trailing(cur), cur, true)
  }

  /** The press list after the status loop has visited the first n holes. */
  function PressesAfter(ps: seq<Press>, rule: PressRule, p1: seq<Option<int>>, p2: seq<Option<int>>, n: nat): seq<Press>
    requires n <= |p1| && n <= |p2|
  {
    if n == 0 then ps
    else
      var prev := PressesAfter(ps, rule, p1, p2, n - 1);
      if AutoPressDue(rule, p1, p2, prev, n - 1) then prev + [AutoPress(p1, p2, n - 1)] else prev
  }

  /** A status change on a hole needs both scores on it. */
  lemma TransitionScored(p1: seq<Option<int>>, p2: seq<Option<int>>, i: nat)
    requires i < |p1| && i < |p2|
    requires StatusAfter(p1, p2, i) != StatusAfter(p1, p2, i + 1)
    ensures Scored(p1, p2, i)
  {
  }

  /** The status loop only appends: the presses held before are kept, in order,
      and the list after m holes is a prefix of the list after n >= m holes. */
  lemma {:induction false} PressesGrow(ps: seq<Press>, rule: PressRule, p1: seq<Option<int>>, p2: seq<Option<int>>, m: nat, n: nat)
    requires m <= n <= |p1| && n <= |p2|
    ensures PressesAfter(ps, rule, p1, p2, m) <= PressesAfter(ps, rule, p1, p2, n)
    ensures ps <= PressesAfter(ps, rule, p1, p2, n)
    decreases n
  {
    if n > 0 {
      if m < n {
        PressesGrow(ps, rule, p1, p2, m, n - 1);
      } else {
        PressesGrow(ps, rule, p1, p2, 0, n - 1);
      }
    }
  }

  /** Every press the status loop adds is automatic, starts on a hole h in 2..n
      where a side went from one down to two down, belongs to the trailing side,
      carries the status at h, and no press held before it starts on h. Under
      the manual rule nothing is added. */
  lemma {:induction false} AddedPressesAreAuto(ps: seq<Press>, rule: PressRule, p1: seq<Option<int>>, p2: seq<Option<int>>, n: nat, k: nat)
    requires n <= |p1| && n <= |p2|
    requires |ps| <= k < |PressesAfter(ps, rule, p1, p2, n)|
    ensures rule == AutoTwoDown
    ensures var r := PressesAfter(ps, rule, p1, p2, n)[k];
      && r.auto
      && 2 <= r.hole <= n
      && TwoDownTransition(StatusAfter(p1, p2, r.hole - 1), StatusAfter(p1, p2, r.hole))
      && r.player == Trailing(StatusAfter(p1, p2, r.hole))
      && r.initialMatchStatus == StatusAfter(p1, p2, r.hole)
      && !HasPressAt(PressesAfter(ps, rule, p1, p2, n)[..k], r.hole)
  {
    var prev := PressesAfter(ps, rule, p1, p2, n - 1);
    PressesGrow(ps, rule, p1, p2, 0, n - 1);
    if k < |prev| {
      AddedPressesAreAuto(ps, rule, p1, p2, n - 1, k);
      assert PressesAfter(ps, rule, p1, p2, n)[..k] == prev[..k];
    } else {
      assert PressesAfter(ps, rule, p1, p2, n)[..k] == prev;
    }
  }

  /** Going from two down to three down (or any move that is not from exactly
      one down to exactly two down) adds no press. */
  lemma NoPressWithoutTransition(ps: seq<Press>, rule: PressRule, p1: seq<Option<int>>, p2: seq<Option<int>>, n: nat)
    requires 0 < n <= |p1| && n <= |p2|
    requires !TwoDownTransition(StatusAfter(p1, p2, n - 1), StatusAfter(p1, p2, n))
    ensures PressesAfter(ps, rule, p1, p2, n) == PressesAfter(ps, rule, p1, p2, n - 1)
  {
  }

  /** After the loop has visited n holes under the auto-2down rule, every hole
      in 2..n where a side went two down has a press starting on it. */
  lemma {:induction false} TransitionsCovered(ps: seq<Press>, p1: seq<Option<int>>, p2: seq<Option<int>>, n: nat, i: nat)
    requires n <= |p1| && n <= |p2|
    requires 0 < i < n
    requires TwoDownTransition(StatusAfter(p1, p2, i), StatusAfter(p1, p2, i + 1))
    ensures HasPressAt(PressesAfter(ps, AutoTwoDown, p1, p2, n), i + 1)
  {
    var prev := PressesAfter(ps, AutoTwoDown, p1, p2, n - 1);
    var cur := PressesAfter(ps, AutoTwoDown, p1, p2, n);
    PressesGrow(ps, AutoTwoDown, p1, p2, n - 1, n);
    if i < n - 1 {
      TransitionsCovered(ps, p1, p2, n - 1, i);
      var k :| 0 <= k < |prev| && prev[k].hole == i + 1;
      assert cur[k] == prev[k];
    } else {
      TransitionScored(p1, p2, i);
      if !HasPressAt(prev, i + 1) {
        assert cur[|prev|].hole == i + 1;
      } else {
        var k :| 0 <= k < |prev| && prev[k].hole == i + 1;
        assert cur[k] == prev[k];
      }
    }
  }

  /** A press list that already has a press on every two-down hole is left
      unchanged by the status loop. */
  lemma {:induction false} CoveredPressesStable(ps: seq<Press>, rule: PressRule, p1: seq<Option<int>>, p2: seq<Option<int>>, n: nat)
    requires n <= |p1| && n <= |p2|
    requires rule == AutoTwoDown ==>
               forall i :: 0 < i < n && TwoDownTransition(StatusAfter(p1, p2, i), StatusAfter(p1, p2, i + 1))
                 ==> HasPressAt(ps, i + 1)
    ensures PressesAfter(ps, rule, p1, p2, n) == ps
  {
    if n > 0 {
      CoveredPressesStable(ps, rule, p1, p2, n - 1);
    }
  }

  /** Recomputing with unchanged scores adds no further automatic presses: the
      press list is stable after one run of the status loop. */
  lemma AutoPressesIdempotent(ps: seq<Press>, rule: PressRule, p1: seq<Option<int>>, p2: seq<Option<int>>)
    requires |p1| == |p2|
    ensures var once := PressesAfter(ps, rule, p1, p2, |p1|);
            PressesAfter(once, rule, p1, p2, |p1|) == once
  {
    var once := PressesAfter(ps, rule, p1, p2, |p1|);
    if rule == AutoTwoDown {
      forall i | 0 < i < |p1| && TwoDownTransition(StatusAfter(p1, p2, i), StatusAfter(p1, p2, i + 1))
        ensures HasPressAt(once, i + 1)
      {
        TransitionsCovered(ps, p1, p2, |p1|, i);
      }
    }
    CoveredPressesStable(once, rule, p1, p2, |p1|);
  }

  // ---------------------------------------------------------------------------
  // Press resolution
  // ---------------------------------------------------------------------------

  /** The last hole index in start..hi-1 where both players have a score. */
  function LastScoredBelow(p1: seq<Option<int>>, p2: seq<Option<int>>, start: nat, hi: nat): (r: Option<nat>)
    requires hi <= |p1| && hi <= |p2|
    ensures r.Some? ==> start <= r.value < hi
    decreases hi
  {
    if hi <= start then None
    else if Scored(p1, p2, hi - 1) then Some(hi - 1)
    else LastScoredBelow(p1, p2, start, hi - 1)
  }

  /** The hole found is fully scored and no later hole of the range is; none is
      found exactly when the range has no fully scored hole. */
  lemma {:induction false} LastScoredBelowSpec(p1: seq<Option<int>>, p2: seq<Option<int>>, start: nat, hi: nat)
    requires hi <= |p1| && hi <= |p2|
    ensures var r := LastScoredBelow(p1, p2, start, hi);
      && (r.Some? ==> Scored(p1, p2, r.value) && forall j :: r.value < j < hi ==> !Scored(p1, p2, j))
      && (r.None? <==> forall j :: start <= j < hi ==> !Scored(p1, p2, j))
    decreases hi
  {
    if start < hi && !Scored(p1, p2, hi - 1) {
      LastScoredBelowSpec(p1, p2, start, hi - 1);
    }
  }

  /** A resolved press: its 0-based start and end holes, the status it started
      from and its own status (positive: P1 is up in the press). */
  datatype PressResult = PressResult(press: Press, startHole: nat, endHole: nat, initialStatus: int, finalStatus: int)

  /** The result of one press: resolved at the last fully scored hole from its
      start hole on, with the match status there minus its initial status. */
  function ResolvePress(press: Press, p1: seq<Option<int>>, p2: seq<Option<int>>, ms: seq<int>): Option<PressResult>
    requires |p1| == Holes && |p2| == Holes && |ms| == Holes
  {
    var start := press.hole - 1;
    if 0 <= start < Holes then
      match LastScoredBelow(p1, p2, start, Holes)
      case Some(e) => Some(PressResult(press, start, e, press.initialMatchStatus, ms[e] - press.initialMatchStatus))
      case None => None
    else None
  }

  /** A press resolves exactly when its start hole is 1..18 and some hole from
      it on has both scores; it then ends at the last such hole and its final
      status is the match status there minus its initial one. */
  lemma PressResolution(press: Press, p1: seq<Option<int>>, p2: seq<Option<int>>, ms: seq<int>)
    requires |p1| == Holes && |p2| == Holes && |ms| == Holes
    ensures var r := ResolvePress(press, p1, p2, ms);
      && (r.Some? <==> 1 <= press.hole <= Holes && exists j :: press.hole - 1 <= j < Holes && Scored(p1, p2, j))
      && (r.Some? ==>
        && r.value.press == press && r.value.startHole == press.hole - 1
        && r.value.startHole <= r.value.endHole < Holes && Scored(p1, p2, r.value.endHole)
        && (forall j :: r.value.endHole < j < Holes ==> !Scored(p1, p2, j))
        && r.value.initialStatus == press.initialMatchStatus
        && r.value.finalStatus == ms[r.value.endHole] - press.initialMatchStatus)
  {
    var start := press.hole - 1;
    if 0 <= start < Holes {
      LastScoredBelowSpec(p1, p2, start, Holes);
    }
  }

  /** The results of the presses that resolve, in press order. */
  function ResolvePresses(ps: seq<Press>, p1: seq<Option<int>>, p2: seq<Option<int>>, ms: seq<int>): (rs: seq<PressResult>)
    requires |p1| == Holes && |p2| == Holes && |ms| == Holes
    ensures |rs| <= |ps|
    decreases |ps|
  {
    if ps == [] then []
    else
      var init := ResolvePresses(ps[..|ps| - 1], p1, p2, ms);
      match ResolvePress(ps[|ps| - 1], p1, p2, ms)
      case Some(r) => init + [r]
      case None => init
  }

  /** The press results are exactly the resolved presses: each comes from a
      press in the list that resolves to it, and each press that resolves is
      included. */
  lemma {:induction false} ResolvePressesMembers(ps: seq<Press>, p1: seq<Option<int>>, p2: seq<Option<int>>, ms: seq<int>)
    requires |p1| == Holes && |p2| == Holes && |ms| == Holes
    ensures forall r :: r in ResolvePresses(ps, p1, p2, ms) ==> r.press in ps && ResolvePress(r.press, p1, p2, ms) == Some(r)
    ensures forall q :: q in ps && ResolvePress(q, p1, p2, ms).Some? ==> ResolvePress(q, p1, p2, ms).value in ResolvePresses(ps, p1, p2, ms)
    decreases |ps|
  {
    if ps != [] {
      var init := ps[..|ps| - 1];
      ResolvePressesMembers(init, p1, p2, ms);
      assert ps == init + [ps[|ps| - 1]];
    }
  }

  // ---------------------------------------------------------------------------
  // Backward scans
  // ---------------------------------------------------------------------------

  /** The end-hole scan of press resolution: from hole index 17 down to
      startHole, stop at the first hole with both scores; startHole - 1 when none. */
  method ScanEndHole(p1: seq<Option<int>>, p2: seq<Option<int>>, startHole: nat) returns (endHole: int)
    requires |p1| == Holes && |p2| == Holes
    requires startHole < Holes
    ensures startHole - 1 <= endHole < Holes
    ensures LastScoredBelow(p1, p2, startHole, Holes) == if endHole < startHole then None else Some(endHole)
  {
    endHole := Holes - 1;
    while endHole >= startHole
      invariant startHole - 1 <= endHole < Holes
      invariant LastScoredBelow(p1, p2, startHole, Holes) == LastScoredBelow(p1, p2, startHole, endHole + 1)
      decreases endHole
    {
      if p1[endHole].Some? && p2[endHole].Some? {
        break;
      }
      endHole := endHole - 1;
    }
  }

  /** The press-resolution loop of updateNassau: each press whose start hole is
      on the card and has a fully scored hole at or after it is resolved at the
      last such hole. */
  method ResolveAll(ps: seq<Press>, p1: seq<Option<int>>, p2: seq<Option<int>>, ms: seq<int>) returns (resolved: seq<PressResult>)
    requires |p1| == Holes && |p2| == Holes && |ms| == Holes
    ensures resolved == ResolvePresses(ps, p1, p2, ms)
  {
    resolved := [];
    var k := 0;
    while k < |ps|
      invariant 0 <= k <= |ps|
      invariant resolved == ResolvePresses(ps[..k], p1, p2, ms)
    {
      assert ps[..k + 1][..k] == ps[..k];
      var result := ResolveOne(ps[k], p1, p2, ms);
      if result.Some? {
        resolved := resolved + [result.value];
      }
      k := k + 1;
    }
    assert ps[..|ps|] == ps;
  }

  /** One iteration of the press-resolution loop: a press whose start hole is
      on the card is resolved at the end hole the scan finds, if any. */
  method ResolveOne(press: Press, p1: seq<Option<int>>, p2: seq<Option<int>>, ms: seq<int>) returns (result: Option<PressResult>)
    requires |p1| == Holes && |p2| == Holes && |ms| == Holes
    ensures result == ResolvePress(press, p1, p2, ms)
  {
    result := None;
    var startHole := press.hole - 1;
    if 0 <= startHole < Holes {
      var endHole := ScanEndHole(p1, p2, startHole);
      if endHole >= startHole {
        result := Some(PressResult(press, startHole, endHole, press.initialMatchStatus,
                                   ms[endHole] - press.initialMatchStatus));
      }
    }
  }

  /** findCurrentNassauHole: the largest 1-based hole where both players have a
      score, or None when there is none. */
  method FindCurrentHole(p1: seq<Option<int>>, p2: seq<Option<int>>) returns (hole: Option<int>)
    requires |p1| == Holes && |p2| == Holes
    ensures hole.None? <==> forall j :: 0 <= j < Holes ==> !Scored(p1, p2, j)
    ensures hole.Some? ==> 1 <= hole.value <= Holes && Scored(p1, p2, hole.value - 1)
    ensures hole.Some? ==> forall j :: hole.value <= j < Holes ==> !Scored(p1, p2, j)
  {
    var i := Holes - 1;
    while i >= 0
      invariant -1 <= i < Holes
      invariant forall j :: i < j < Holes ==> !Scored(p1, p2, j)
      decreases i
    {
      if p1[i].Some? && p2[i].Some? {
        assert Scored(p1, p2, i);
        return Some(i + 1);
      }
      i := i - 1;
    }
    return None;
  }

  // ---------------------------------------------------------------------------
  // Settlement
  // ---------------------------------------------------------------------------

  /** `matchStatus[k] || 0`: a missing entry reads as all square. */
  function StoredStatus(ms: seq<int>, k: nat): int
  {
    if k < |ms| then ms[k] else 0
  }

  /** The wager, worth +wager to P1 when the status is positive, -wager when negative. */
  function SignedWager(status: int, wager: real): (v: real)
    ensures v == 0.0 || v == wager || v == -wager
    ensures wager > 0.0 ==> (v > 0.0 <==> status > 0) && (v < 0.0 <==> status < 0)
  {
    if status == 0 then 0.0 else if status > 0 then wager else -wager
  }

  /** The wager a round plays for when none is entered (`wager || 5`). */
  const DefaultWager: real := 5.0

  /** The wager in force: the entered one, or DefaultWager when it is zero. */
  function EffectiveWager(wager: real): real
  {
    OrDefault(wager, DefaultWager)
  }

  /** The value of the resolved presses: a signed wager per press by the sign of
      its final status. */
  function PressesValue(rs: seq<PressResult>, wager: real): real
    decreases |rs|
  {
    if rs == [] then 0.0 else PressesValue(rs[..|rs| - 1], wager) + SignedWager(rs[|rs| - 1].finalStatus, wager)
  }

  function AbsReal(x: real): real { if x < 0.0 then -x else x }

  /** What k bets of one wager can be worth at most: k times its size. */
  function WagerCap(wager: real, k: nat): (c: real)
    ensures c >= 0.0
  {
    if k == 0 then 0.0 else WagerCap(wager, k - 1) + AbsReal(wager)
  }

  lemma {:induction false} WagerCapIsProduct(wager: real, k: nat)
    ensures WagerCap(wager, k) == AbsReal(wager) * k as real
  {
    if k > 0 {
      WagerCapIsProduct(wager, k - 1);
      assert AbsReal(wager) * (k - 1) as real + AbsReal(wager) == AbsReal(wager) * k as real;
    }
  }

  /** Each press is worth at most one wager either way. */
  lemma {:induction false} PressesValueBound(rs: seq<PressResult>, wager: real)
    ensures AbsReal(PressesValue(rs, wager)) <= WagerCap(wager, |rs|)
    decreases |rs|
  {
    if rs != [] {
      var init, last := rs[..|rs| - 1], rs[|rs| - 1];
      PressesValueBound(init, wager);
      assert PressesValue(rs, wager) == PressesValue(init, wager) + SignedWager(last.finalStatus, wager);
    }
  }

  /** Who owes whom: positive totals are owed to P1. */
  datatype Outcome = MatchTied | P2OwesP1(amount: real) | P1OwesP2(amount: real)

  function OutcomeOf(total: real): (o: Outcome)
    ensures o == MatchTied <==> total == 0.0
    ensures o.P2OwesP1? <==> total > 0.0
    ensures o.P2OwesP1? || o.P1OwesP2? ==> o.amount > 0.0 && o.amount == AbsReal(total)
  {
    if total == 0.0 then MatchTied else if total > 0.0 then P2OwesP1(total) else P1OwesP2(-total)
  }

  /** The settlement's numbers: the three match statuses, their values, the
      presses' value, the signed total (positive: owed to P1) and who owes whom. */
  datatype NassauSettlement = NassauSettlement(
    front9Status: int, back9Status: int, overallStatus: int,
    front9Value: real, back9Value: real, overallValue: real,
    pressesCount: nat, pressesTotal: real, total: real, outcome: Outcome)

  /** The signed settlement total: front nine, back nine, overall and presses. */
  function SettlementTotal(ms: seq<int>, rs: seq<PressResult>, wager: real): real
  {
    var w := EffectiveWager(wager);
    var front := StoredStatus(ms, 8);
    var overall := StoredStatus(ms, 17);
    SignedWager(front, w) + SignedWager(overall - front, w) + SignedWager(overall, w) + PressesValue(rs, w)
  }

  /** The settlement is bounded by one wager per bet: three nine/eighteen-hole
      bets plus one per resolved press. */
  lemma SettlementBound(ms: seq<int>, rs: seq<PressResult>, wager: real)
    ensures AbsReal(SettlementTotal(ms, rs, wager)) <= WagerCap(EffectiveWager(wager), |rs| + 3)
  {
    BetValuesBound(StoredStatus(ms, 8), StoredStatus(ms, 17), rs, EffectiveWager(wager));
  }

  /** The bound for one wager value: the nine and eighteen-hole bets and the
      presses, each worth at most the wager either way. */
  lemma BetValuesBound(front: int, overall: int, rs: seq<PressResult>, w: real)
    ensures AbsReal(SignedWager(front, w) + SignedWager(overall - front, w) + SignedWager(overall, w) + PressesValue(rs, w))
         <= WagerCap(w, |rs| + 3)
  {
    PressesValueBound(rs, w);
    assert WagerCap(w, |rs| + 3) == WagerCap(w, |rs|) + 3.0 * AbsReal(w) by {
      assert WagerCap(w, |rs| + 3) == WagerCap(w, |rs| + 2) + AbsReal(w);
      assert WagerCap(w, |rs| + 2) == WagerCap(w, |rs| + 1) + AbsReal(w);
    }
  }

  /** Swapping the players negates what a press-free round settles for. */
  lemma SettlementSwap(p1: seq<Option<int>>, p2: seq<Option<int>>, wager: real)
    requires |p1| == Holes && |p2| == Holes
    ensures SettlementTotal(MatchStatus(p2, p1), [], wager) == -SettlementTotal(MatchStatus(p1, p2), [], wager)
  {
    StatusSwap(p1, p2, 9);
    StatusSwap(p1, p2, 18);
  }

  /** updateNassauSettlement: the value of each bet, the presses' total (summed in
      a loop) and who owes whom. */
  method ComputeSettlement(ms: seq<int>, rs: seq<PressResult>, wager: real) returns (s: NassauSettlement)
    ensures s.front9Status == StoredStatus(ms, 8) && s.overallStatus == StoredStatus(ms, 17)
    ensures s.back9Status == s.overallStatus - s.front9Status
    ensures s.front9Value == SignedWager(s.front9Status, EffectiveWager(wager))
    ensures s.back9Value == SignedWager(s.back9Status, EffectiveWager(wager))
    ensures s.overallValue == SignedWager(s.overallStatus, EffectiveWager(wager))
    ensures s.pressesCount == |rs| && s.pressesTotal == PressesValue(rs, EffectiveWager(wager))
    ensures s.total == SettlementTotal(ms, rs, wager)
    ensures s.total == s.front9Value + s.back9Value + s.overallValue + s.pressesTotal
    ensures s.outcome == OutcomeOf(s.total)
  {
    var w := EffectiveWager(wager);
    var front9Status := StoredStatus(ms, 8);
    var overallStatus := StoredStatus(ms, 17);
    var back9Status := overallStatus - front9Status;
    var front9Value := if front9Status == 0 then 0.0 else if front9Status > 0 then w else -w;
    var back9Value := if back9Status == 0 then 0.0 else if back9Status > 0 then w else -w;
    var overallValue := if overallStatus == 0 then 0.0 else if overallStatus > 0 then w else -w;
    var pressesTotal := 0.0;
    var k := 0;
    while k < |rs|
      invariant 0 <= k <= |rs|
      invariant pressesTotal == PressesValue(rs[..k], w)
    {
      assert rs[..k + 1][..k] == rs[..k];
      if rs[k].finalStatus != 0 {
        pressesTotal := pressesTotal + (if rs[k].finalStatus > 0 then w else -w);
      }
      k := k + 1;
    }
    assert rs[..|rs|] == rs;
    var total := front9Value + back9Value + overallValue + pressesTotal;
    var outcome := if total == 0.0 then MatchTied else if total > 0.0 then P2OwesP1(total) else P1OwesP2(-total);
    s := NassauSettlement(front9Status, back9Status, overallStatus, front9Value, back9Value, overallValue,
                          |rs|, pressesTotal, total, outcome);
  }

  // ---------------------------------------------------------------------------
  // Nine-hole totals, displayed statuses and press buttons
  // ---------------------------------------------------------------------------

  /** The summary row: par and score sums per nine, and whether each nine is
      fully scored by both players. */
  datatype NassauTotals = NassauTotals(
    frontPar: int, backPar: int, totalPar: int,
    p1Front: int, p1Back: int, p1Total: int,
    p2Front: int, p2Back: int, p2Total: int,
    frontValid: bool, backValid: bool)

  /** The summary row of updateNassau: par and both players' sums per nine; a
      nine is valid only when both players scored every hole of it. */
  method SegmentTotals(par: seq<Option<int>>, p1: seq<Option<int>>, p2: seq<Option<int>>) returns (t: NassauTotals)
    requires |par| == Holes && |p1| == Holes && |p2| == Holes
    ensures t.frontPar == SumPresent(par, 0, Nine) && t.backPar == SumPresent(par, Nine, Holes)
    ensures t.p1Front == SumPresent(p1, 0, Nine) && t.p1Back == SumPresent(p1, Nine, Holes)
    ensures t.p2Front == SumPresent(p2, 0, Nine) && t.p2Back == SumPresent(p2, Nine, Holes)
    ensures t.totalPar == t.frontPar + t.backPar
    ensures t.p1Total == t.p1Front + t.p1Back && t.p2Total == t.p2Front + t.p2Back
    ensures t.frontValid <==> AllPresent(p1, 0, Nine) && AllPresent(p2, 0, Nine)
    ensures t.backValid <==> AllPresent(p1, Nine, Holes) && AllPresent(p2, Nine, Holes)
  {
    var frontPar, backPar, totalPar, _, _ := RowSums(par);
    var p1Front, p1Back, p1Total, p1FrontComplete, p1BackComplete := RowSums(p1);
    var p2Front, p2Back, p2Total, p2FrontComplete, p2BackComplete := RowSums(p2);
    t := NassauTotals(frontPar, backPar, totalPar, p1Front, p1Back, p1Total, p2Front, p2Back, p2Total,
                      p1FrontComplete && p2FrontComplete, p1BackComplete && p2BackComplete);
  }

  /** The three summary statuses shown under the card: the front nine only when
      it is complete, the back nine (from the front-nine status when that nine
      is complete, else from all square) only when it is complete, and the
      overall status when either nine is. */
  function SegmentStatuses(ms: seq<int>, frontValid: bool, backValid: bool): (r: (Option<int>, Option<int>, Option<int>))
    requires |ms| == Holes
    ensures r.0.Some? <==> frontValid
    ensures r.1.Some? <==> backValid
    ensures r.2.Some? <==> frontValid || backValid
    ensures frontValid && backValid ==> r.0.value + r.1.value == r.2.value
    ensures !frontValid && backValid ==> r.1.value == r.2.value
  {
    var front := if frontValid then Some(ms[8]) else None;
    var backStart := if frontValid then ms[8] else 0;
    var back := if backValid then Some(ms[17] - backStart) else None;
    var overall := if frontValid || backValid then Some(ms[17]) else None;
    (front, back, overall)
  }

  /** The status text of hole index i: shown only when both players scored it,
      with the holes still to play after it. */
  function HoleStatusText(p1: seq<Option<int>>, p2: seq<Option<int>>, ms: seq<int>, i: nat): (t: Option<StatusText>)
    requires |p1| == Holes && |p2| == Holes && |ms| == Holes && i < Holes
    ensures t.None? <==> !Scored(p1, p2, i)
    ensures t.Some? && ms[i] == 0 ==> t.value == (if i < Holes - 1 then AllSquare else Tied)
    ensures t.Some? ==> (t.value.ClosedOut? <==> Abs(ms[i]) > Holes - 1 - i)
  {
    if Scored(p1, p2, i) then Some(FormatMatchStatus(ms[i], Holes - (i + 1), false)) else None
  }

  /** Which press buttons are shown. */
  datatype PressButtons = PressButtons(p1Visible: bool, p2Visible: bool)

  /** The press-eligibility hint: under the manual rule, once some hole has a
      result, the side that is down at the current hole may press. */
  function PressEligibility(rule: PressRule, holeResults: seq<Option<int>>, currentHole: Option<int>, ms: seq<int>): (b: PressButtons)
    requires |ms| == Holes
    requires currentHole.Some? ==> 1 <= currentHole.value <= Holes
    ensures !(b.p1Visible && b.p2Visible)
    ensures b.p1Visible <==> rule == Manual && (exists k :: 0 <= k < |holeResults| && holeResults[k].Some?)
                             && currentHole.Some? && ms[currentHole.value - 1] < 0
    ensures b.p2Visible <==> rule == Manual && (exists k :: 0 <= k < |holeResults| && holeResults[k].Some?)
                             && currentHole.Some? && ms[currentHole.value - 1] > 0
  {
    var canPress := rule == Manual && exists k :: 0 <= k < |holeResults| && holeResults[k].Some?;
    if canPress && currentHole.Some? then
      var status := ms[currentHole.value - 1];
      if status != 0 then PressButtons(status < 0, status > 0) else PressButtons(false, false)
    else PressButtons(false, false)
  }

  // ---------------------------------------------------------------------------
  // The round
  // ---------------------------------------------------------------------------

  /** The answer to a manual press request. */
  datatype PressOutcome = PressAdded(press: Press) | NoScoresYet

  /** One hole of the status loop: the hole result and the status it moves to. */
  method HoleStep(a: Option<int>, b: Option<int>, status: int) returns (result: Option<int>, next: int)
    ensures result == HoleResult(a, b)
    ensures next == status + StatusStep(a, b)
  {
    result, next := None, status;
    if a.Some? && b.Some? {
      result := Some(a.value - b.value);
      if result.value < 0 {
        next := status + 1;
      } else if result.value > 0 {
        next := status - 1;
      }
    }
  }

  /** The auto-2down check of the status loop on hole index i: a press for the
      trailing side when the status moved from one down to two down, the hole
      is fully scored and no press starts there yet. */
  method AutoPressStep(ps: seq<Press>, rule: PressRule, p1: seq<Option<int>>, p2: seq<Option<int>>, i: nat,
                       prevStatus: int, currentStatus: int, scored: bool) returns (next: seq<Press>)
    requires i < |p1| && i < |p2|
    requires i > 0 ==> prevStatus == StatusAfter(p1, p2, i)
    requires currentStatus == StatusAfter(p1, p2, i + 1)
    requires scored == Scored(p1, p2, i)
    ensures next == if AutoPressDue(rule, p1, p2, ps, i) then ps + [AutoPress(p1, p2, i)] else ps
  {
    next := ps;
    if rule == AutoTwoDown && i > 0 {
      if (prevStatus == -1 && currentStatus == -2) || (prevStatus == 1 && currentStatus == 2) {
        var playerDown := if currentStatus > 0 then P2 else P1;
        var existing := HasPressAt(ps, i + 1);
        if !existing && scored {
          next := ps + [Press(i + 1, playerDown, currentStatus, true)];
        }
      }
    }
  }

  /** The Nassau part of the round state: the inputs, the press list, and the
      results of the last recomputation. */
  class NassauRound {
    var p1: seq<Option<int>>
    var p2: seq<Option<int>>
    var pressRule: PressRule
    var wager: real
    var presses: seq<Press>
    var holeResults: seq<Option<int>>
    var matchStatus: seq<int>
    var pressResults: seq<PressResult>

    ghost predicate Valid()
      reads this
    {
      |p1| == Holes && |p2| == Holes
    }

    /** The Nassau defaults: no scores, a wager of 5, manual presses, no presses
        and no results yet. */
    constructor ()
      ensures Valid()
      ensures p1 == seq(Holes, _ => None) && p2 == seq(Holes, _ => None)
      ensures wager == DefaultWager && pressRule == Manual && presses == []
      ensures holeResults == [] && matchStatus == [] && pressResults == []
    {
      p1, p2 := seq(Holes, _ => None), seq(Holes, _ => None);
      wager := DefaultWager;
      pressRule := Manual;
      presses := [];
      holeResults, matchStatus, pressResults := [], [], [];
    }

    /** updateNassau: store the inputs, run the status loop (which may append
        automatic presses), then resolve every press. */
    method Update(newP1: seq<Option<int>>, newP2: seq<Option<int>>, rule: PressRule, newWager: real)
      requires |newP1| == Holes && |newP2| == Holes
      modifies this
      ensures Valid()
      ensures p1 == newP1 && p2 == newP2 && pressRule == rule && wager == EffectiveWager(newWager)
      ensures holeResults == HoleResults(p1, p2)
      ensures matchStatus == MatchStatus(p1, p2)
      ensures presses == PressesAfter(old(presses), rule, p1, p2, Holes)
      ensures pressResults == ResolvePresses(presses, p1, p2, matchStatus)
    {
      p1, p2 := newP1, newP2;
      pressRule := rule;
      wager := EffectiveWager(newWager);
      var results, ms := StatusLoop();
      holeResults := results;
      matchStatus := ms;
      pressResults := ResolveAll(presses, p1, p2, ms);
    }

    /** The status loop of updateNassau: hole results, the running status, and an
        automatic press for the trailing side on each hole where the auto-2down
        rule sees a side go from one down to two down and no press starts there. */
    method StatusLoop() returns (results: seq<Option<int>>, ms: seq<int>)
      requires Valid()
      modifies this`presses
      ensures results == HoleResults(p1, p2)
      ensures ms == MatchStatus(p1, p2)
      ensures presses == PressesAfter(old(presses), pressRule, p1, p2, Holes)
    {
      ghost var wantResults, wantStatus := HoleResults(p1, p2), MatchStatus(p1, p2);
      results, ms := [], [];
      var currentStatus := 0;
      var i := 0;
      while i < Holes
        invariant 0 <= i <= Holes
        invariant results == wantResults[..i] && ms == wantStatus[..i]
        invariant currentStatus == StatusAfter(p1, p2, i)
        invariant presses == PressesAfter(old(presses), pressRule, p1, p2, i)
      {
        var result, next := HoleStep(p1[i], p2[i], currentStatus);
        currentStatus := next;
        results := results + [result];
        ms := ms + [currentStatus];
        var prevStatus := if i > 0 then ms[i - 1] else 0;
        presses := AutoPressStep(presses, pressRule, p1, p2, i, prevStatus, currentStatus, p1[i].Some? && p2[i].Some?);
        assert results == wantResults[..i + 1] && ms == wantStatus[..i + 1];
        i := i + 1;
      }
      assert results == wantResults[..Holes] && ms == wantStatus[..Holes];
    }

    /** handleNassauPress: anchor a press for `player` at the last hole both
        players have scored, with the stored status there (`|| 0` when the
        stored row has no entry); refused, leaving the list unchanged, when no
        hole is fully scored. The caller then recomputes with Update. */
    method RequestPress(player: Side) returns (outcome: PressOutcome)
      requires Valid()
      modifies this`presses
      ensures outcome.NoScoresYet? <==> forall j :: 0 <= j < Holes ==> !Scored(p1, p2, j)
      ensures outcome.NoScoresYet? ==> presses == old(presses)
      ensures outcome.PressAdded? ==> presses == old(presses) + [outcome.press]
      ensures outcome.PressAdded? ==>
        var h := outcome.press.hole;
        && 1 <= h <= Holes && Scored(p1, p2, h - 1)
        && (forall j :: h <= j < Holes ==> !Scored(p1, p2, j))
        && outcome.press.player == player && !outcome.press.auto
        && outcome.press.initialMatchStatus == StoredStatus(matchStatus, h - 1)
    {
      var currentHole := FindCurrentHole(p1, p2);
      if currentHole.None? {
        return NoScoresYet;
      }
      var h := currentHole.value;
      var newPress := Press(h, player, StoredStatus(matchStatus, h - 1), false);
      presses := presses + [newPress];
      outcome := PressAdded(newPress);
      assert Scored(p1, p2, h - 1);
    }
  }
}
