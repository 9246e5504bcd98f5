/** Vegas, two against two (js/vegas.js): each team's two scores on a hole
    form a two-digit team number, low score first; the lower number wins the
    difference, and the round settles on the summed differences. */
module Vegas {
  import opened Golf

  function Min(a: int, b: int): int { if a <= b then a else b }
  function Max(a: int, b: int): int { if a <= b then b else a }

  /** calculateVegasTeamNumber: ten times the lower score plus the higher one,
      or None when either score is missing. */
  function TeamNumber(a: Option<int>, b: Option<int>): (r: Option<int>)
    ensures r.None? <==> a.None? || b.None?
  {
    if a.None? || b.None? then None
    else Some(Min(a.value, b.value) * 10 + Max(a.value, b.value))
  }

  /** The team number does not depend on which partner's score comes first. */
  lemma TeamNumberSymmetric(a: Option<int>, b: Option<int>)
    ensures TeamNumber(a, b) == TeamNumber(b, a)
  {
  }

  /** For scores 1..9 the tens digit is the lower score and the units digit the
      higher one: (3, 7) and (7, 3) both read 37. */
  lemma TeamNumberDigits(x: int, y: int)
    requires 1 <= x <= 9 && 1 <= y <= 9
    ensures TeamNumber(Some(x), Some(y)).Some?
    ensures var n := TeamNumber(Some(x), Some(y)).value;
      && 11 <= n <= 99 && n / 10 == Min(x, y) && n % 10 == Max(x, y)
  {
  }

  lemma TeamNumberExample()
    ensures TeamNumber(Some(3), Some(7)) == TeamNumber(Some(7), Some(3)) == Some(37)
  {
  }

  /** Four score rows of 18 holes: A and B are team 1, C and D team 2. */
  predicate ScoreCard(scores: seq<seq<Option<int>>>)
  {
    |scores| == 4 && forall p :: 0 <= p < 4 ==> |scores[p]| == Holes
  }

  function Team1Number(scores: seq<seq<Option<int>>>, i: nat): Option<int>
    requires ScoreCard(scores) && i < Holes
  {
    TeamNumber(scores[0][i], scores[1][i])
  }

  function Team2Number(scores: seq<seq<Option<int>>>, i: nat): Option<int>
    requires ScoreCard(scores) && i < Holes
  {
    TeamNumber(scores[2][i], scores[3][i])
  }

  /** The hole difference: team 2's number minus team 1's, None unless both
      teams have a number. Positive means team 1 won the hole. */
  function HoleDiff(t1: Option<int>, t2: Option<int>): (d: Option<int>)
    ensures d.None? <==> t1.None? || t2.None?
    ensures d.Some? ==> (d.value > 0 <==> t1.value < t2.value) && (d.value < 0 <==> t1.value > t2.value)
  {
    if t1.Some? && t2.Some? then Some(t2.value - t1.value) else None
  }

  /** The team-number and difference loop of updateVegas. */
  method ComputeDiffs(scores: seq<seq<Option<int>>>) returns (t1Nums: seq<Option<int>>, t2Nums: seq<Option<int>>, diffs: seq<Option<int>>)
    requires ScoreCard(scores)
    ensures |t1Nums| == Holes && |t2Nums| == Holes && |diffs| == Holes
    ensures forall i :: 0 <= i < Holes ==>
      t1Nums[i] == Team1Number(scores, i) && t2Nums[i] == Team2Number(scores, i)
      && diffs[i] == HoleDiff(t1Nums[i], t2Nums[i])
  {
    t1Nums, t2Nums, diffs := [], [], [];
    for i := 0 to Holes
      invariant |t1Nums| == i && |t2Nums| == i && |diffs| == i
      invariant forall k :: 0 <= k < i ==>
        t1Nums[k] == Team1Number(scores, k) && t2Nums[k] == Team2Number(scores, k)
        && diffs[k] == HoleDiff(t1Nums[k], t2Nums[k])
    {
      var t1Num := TeamNumber(scores[0][i], scores[1][i]);
      var t2Num := TeamNumber(scores[2][i], scores[3][i]);
      var diff: Option<int> := None;
      if t1Num.Some? && t2Num.Some? {
        diff := Some(t2Num.value - t1Num.value);
      }
      t1Nums := t1Nums + [t1Num];
      t2Nums := t2Nums + [t2Num];
      diffs := diffs + [diff];
    }
  }

  /** The summary-difference loop of updateVegas: out, in and total sums of the
      present differences, and whether each nine has any difference at all. */
  method SummarizeDiffs(diffs: seq<Option<int>>) returns (outDiff: int, inDiff: int, totalDiff: int, outDiffValid: bool, inDiffValid: bool)
    requires |diffs| == Holes
    ensures outDiff == SumPresent(diffs, 0, Nine) && inDiff == SumPresent(diffs, Nine, Holes)
    ensures totalDiff == SumPresent(diffs, 0, Holes) && totalDiff == outDiff + inDiff
    ensures outDiffValid <==> !NonePresent(diffs, 0, Nine)
    ensures inDiffValid <==> !NonePresent(diffs, Nine, Holes)
  {
    outDiff, inDiff, totalDiff := 0, 0, 0;
    outDiffValid, inDiffValid := false, false;
    for i := 0 to Holes
      invariant outDiff == SumPresent(diffs, 0, if i < Nine then i else Nine)
      invariant inDiff == (if i <= Nine then 0 else SumPresent(diffs, Nine, i))
      invariant totalDiff == SumPresent(diffs, 0, i)
      invariant outDiffValid <==> !NonePresent(diffs, 0, if i < Nine then i else Nine)
      invariant inDiffValid <==> i > Nine && !NonePresent(diffs, Nine, i)
    {
      if diffs[i].Some? {
        if i < 9 {
          outDiff := outDiff + diffs[i].value;
          outDiffValid := true;
        } else {
          inDiff := inDiff + diffs[i].value;
          inDiffValid := true;
        }
        totalDiff := totalDiff + diffs[i].value;
      }
    }
    SumPresentSplit(diffs, 0, Nine, Holes);
  }

  /** Team 2's numbers minus team 1's, summed over the holes lo..hi-1 where both
      teams have a number. */
  function NumberGap(t1Nums: seq<Option<int>>, t2Nums: seq<Option<int>>, lo: nat, hi: nat): int
    requires lo <= hi <= |t1Nums| && hi <= |t2Nums|
    decreases hi - lo
  {
    if lo == hi then 0
    else NumberGap(t1Nums, t2Nums, lo, hi - 1)
         + (if t1Nums[hi - 1].Some? && t2Nums[hi - 1].Some? then t2Nums[hi - 1].value - t1Nums[hi - 1].value else 0)
  }

  /** The summed differences are the gap between the teams' numbers over the
      compared holes: a positive total means team 1's numbers were lower. */
  lemma {:induction false} TotalIsNumberGap(t1Nums: seq<Option<int>>, t2Nums: seq<Option<int>>, diffs: seq<Option<int>>, lo: nat, hi: nat)
    requires lo <= hi <= |diffs| && |t1Nums| == |diffs| && |t2Nums| == |diffs|
    requires forall i :: lo <= i < hi ==> diffs[i] == HoleDiff(t1Nums[i], t2Nums[i])
    ensures SumPresent(diffs, lo, hi) == NumberGap(t1Nums, t2Nums, lo, hi)
    decreases hi - lo
  {
    if lo < hi {
      TotalIsNumberGap(t1Nums, t2Nums, diffs, lo, hi - 1);
    }
  }

  /** A player's summary cell: shown only when the sum is positive. */
  function PositiveCell(sum: int): (cell: Option<int>)
    ensures cell.Some? <==> sum > 0
    ensures cell.Some? ==> cell.value == sum
  {
    if sum > 0 then Some(sum) else None
  }

  /** Who owes whom at the end of a Vegas round. */
  datatype VegasOutcome = MatchTied | Team2OwesTeam1(amount: real) | Team1OwesTeam2(amount: real)

  /** The point value when none is entered (`pointValue || 1`). */
  const DefaultPointValue: real := 1.0

  function AbsInt(x: int): nat { if x < 0 then -x else x }

  /** updateVegasSettlement: tied at 0; a positive total (team 1's numbers were
      lower) means team 2 owes team 1; the amount is |total| times the point value. */
  function Settlement(totalDiff: int, pointValue: real): (o: VegasOutcome)
    ensures o.MatchTied? <==> totalDiff == 0
    ensures o.Team2OwesTeam1? <==> totalDiff > 0
    ensures o.Team1OwesTeam2? <==> totalDiff < 0
    ensures !o.MatchTied? ==> o.amount == AbsInt(totalDiff) as real * OrDefault(pointValue, DefaultPointValue)
  {
    var amount := AbsInt(totalDiff) as real * OrDefault(pointValue, DefaultPointValue);
    if totalDiff == 0 then MatchTied
    else if totalDiff > 0 then Team2OwesTeam1(amount)
    else Team1OwesTeam2(amount)
  }

  /** The team with the lower summed numbers on the compared holes is paid. */
  lemma LowerNumbersArePaid(t1Nums: seq<Option<int>>, t2Nums: seq<Option<int>>, diffs: seq<Option<int>>, pointValue: real)
    requires |t1Nums| == Holes && |t2Nums| == Holes && |diffs| == Holes
    requires forall i :: 0 <= i < Holes ==> diffs[i] == HoleDiff(t1Nums[i], t2Nums[i])
    ensures Settlement(SumPresent(diffs, 0, Holes), pointValue).Team2OwesTeam1? <==> NumberGap(t1Nums, t2Nums, 0, Holes) > 0
    ensures Settlement(SumPresent(diffs, 0, Holes), pointValue).Team1OwesTeam2? <==> NumberGap(t1Nums, t2Nums, 0, Holes) < 0
  {
    TotalIsNumberGap(t1Nums, t2Nums, diffs, 0, Holes);
  }
}
