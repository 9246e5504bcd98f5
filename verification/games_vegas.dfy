/** The second copy of Vegas (js/games/vegas.js). It shares the team number
    with js/vegas.js, stores 0 as the difference of an incomplete hole, sums
    everything in one loop, and states the settlement direction the other way
    round: as written, a positive total makes team 1 pay. */
module GamesVegas {
  import opened Golf
  import Vegas
  import Utils

  /** The stored difference of hole i: team 2's number minus team 1's, or 0
      when either team has no number. */
  function StoredDiff(scores: seq<seq<Option<int>>>, i: nat): (d: int)
    requires Vegas.ScoreCard(scores) && i < Holes
    ensures Vegas.Team1Number(scores, i).None? || Vegas.Team2Number(scores, i).None? ==> d == 0
  {
    match Vegas.HoleDiff(Vegas.Team1Number(scores, i), Vegas.Team2Number(scores, i))
    case Some(v) => v
    case None => 0
  }

  /** The stored difference row of a card. */
  function StoredDiffs(scores: seq<seq<Option<int>>>): (d: seq<int>)
    requires Vegas.ScoreCard(scores)
    ensures |d| == Holes
  {
    seq(Holes, i requires 0 <= i < Holes => StoredDiff(scores, i))
  }

  /** The sums after the loop has visited the first i holes of the difference row d. */
  predicate SumsUpTo(d: seq<int>, i: nat, outDiff: int, inDiff: int, totalDiff: int)
    requires |d| == Holes && i <= Holes
  {
    && outDiff == SumRange(d, 0, if i < Nine then i else Nine)
    && inDiff == (if i <= Nine then 0 else SumRange(d, Nine, i))
    && totalDiff == SumRange(d, 0, i)
  }

  /** The rows after the loop has visited the first i holes: team numbers and
      stored differences are in place for those holes. */
  predicate RowsUpTo(scores: seq<seq<Option<int>>>, i: nat, t1Num: seq<Option<int>>, t2Num: seq<Option<int>>, diff: seq<int>)
    requires Vegas.ScoreCard(scores) && i <= Holes
  {
    && |t1Num| == Holes && |t2Num| == Holes && |diff| == Holes
    && (forall k :: 0 <= k < i ==> t1Num[k] == Vegas.Team1Number(scores, k))
    && (forall k :: 0 <= k < i ==> t2Num[k] == Vegas.Team2Number(scores, k))
    && (forall k :: 0 <= k < i ==> diff[k] == StoredDiff(scores, k))
  }

  /** The single loop of updateVegas: team numbers and differences are written
      into 18-slot rows in place, and complete holes add to the nine and total
      sums (holes 1-9 out, 10-18 in). */
  method UpdateDiffs(scores: seq<seq<Option<int>>>)
    returns (t1Num: seq<Option<int>>, t2Num: seq<Option<int>>, diff: seq<int>, outDiff: int, inDiff: int, totalDiff: int)
    requires Vegas.ScoreCard(scores)
    ensures |t1Num| == Holes && |t2Num| == Holes
    ensures forall i :: 0 <= i < Holes ==> t1Num[i] == Vegas.Team1Number(scores, i) && t2Num[i] == Vegas.Team2Number(scores, i)
    ensures diff == StoredDiffs(scores)
    ensures outDiff == SumRange(diff, 0, Nine) && inDiff == SumRange(diff, Nine, Holes)
    ensures totalDiff == outDiff + inDiff && totalDiff == SumRange(diff, 0, Holes)
  {
    ghost var want := StoredDiffs(scores);
    t1Num, t2Num, diff := seq(Holes, _ => None), seq(Holes, _ => None), seq(Holes, _ => 0);
    totalDiff, outDiff, inDiff := 0, 0, 0;
    for i := 0 to Holes
      invariant RowsUpTo(scores, i, t1Num, t2Num, diff)
      invariant SumsUpTo(want, i, outDiff, inDiff, totalDiff)
    {
      t1Num, t2Num, diff, outDiff, inDiff, totalDiff := UpdateHole(scores, want, i, t1Num, t2Num, diff, outDiff, inDiff, totalDiff);
    }
    assert diff == want;
    SumRangeSplit(diff, 0, Nine, Holes);
  }

  /** One hole of updateVegas: its team numbers and difference go into the
      rows, and a complete hole's difference into the sums. */
  method UpdateHole(scores: seq<seq<Option<int>>>, ghost want: seq<int>, i: nat,
                    t1Num: seq<Option<int>>, t2Num: seq<Option<int>>, diff: seq<int>, outDiff: int, inDiff: int, totalDiff: int)
    returns (t1Num': seq<Option<int>>, t2Num': seq<Option<int>>, diff': seq<int>, outDiff': int, inDiff': int, totalDiff': int)
    requires Vegas.ScoreCard(scores) && i < Holes && want == StoredDiffs(scores)
    requires RowsUpTo(scores, i, t1Num, t2Num, diff) && SumsUpTo(want, i, outDiff, inDiff, totalDiff)
    ensures RowsUpTo(scores, i + 1, t1Num', t2Num', diff') && SumsUpTo(want, i + 1, outDiff', inDiff', totalDiff')
  {
    var t1, t2 := HoleNumbers(scores, i);
    t1Num', t2Num' := t1Num[i := t1], t2Num[i := t2];
    outDiff', inDiff', totalDiff' := outDiff, inDiff, totalDiff;
    if t1.Some? && t2.Some? {
      var holeDiff := t2.value - t1.value;
      diff' := diff[i := holeDiff];
      outDiff', inDiff', totalDiff' := AddDiff(want, i, holeDiff, outDiff, inDiff, totalDiff);
    } else {
      diff' := diff[i := 0];
      ZeroDiffKeepsSums(want, i, outDiff, inDiff, totalDiff);
    }
  }

  /** The two team numbers of hole i, and what the hole stores as its difference. */
  method HoleNumbers(scores: seq<seq<Option<int>>>, i: nat) returns (t1: Option<int>, t2: Option<int>)
    requires Vegas.ScoreCard(scores) && i < Holes
    ensures t1 == Vegas.Team1Number(scores, i) && t2 == Vegas.Team2Number(scores, i)
    ensures StoredDiff(scores, i) == if t1.Some? && t2.Some? then t2.value - t1.value else 0
  {
    t1 := Vegas.TeamNumber(scores[0][i], scores[1][i]);
    t2 := Vegas.TeamNumber(scores[2][i], scores[3][i]);
  }

  /** One hole's difference added to the sums: to the out nine on holes 1-9,
      to the in nine on holes 10-18, and always to the total. */
  method AddDiff(ghost d: seq<int>, i: nat, holeDiff: int, outDiff: int, inDiff: int, totalDiff: int)
    returns (outNext: int, inNext: int, totalNext: int)
    requires |d| == Holes && i < Holes && d[i] == holeDiff
    requires SumsUpTo(d, i, outDiff, inDiff, totalDiff)
    ensures SumsUpTo(d, i + 1, outNext, inNext, totalNext)
  {
    outNext, inNext := outDiff, inDiff;
    totalNext := totalDiff + holeDiff;
    if i < 9 { outNext := outDiff + holeDiff; } else { inNext := inDiff + holeDiff; }
  }

  /** An incomplete hole stores 0, so leaving the sums alone keeps them right. */
  lemma ZeroDiffKeepsSums(d: seq<int>, i: nat, outDiff: int, inDiff: int, totalDiff: int)
    requires |d| == Holes && i < Holes && d[i] == 0
    requires SumsUpTo(d, i, outDiff, inDiff, totalDiff)
    ensures SumsUpTo(d, i + 1, outDiff, inDiff, totalDiff)
  {
  }

  /** Both copies arrive at the same total difference: storing 0 for an
      incomplete hole adds what skipping it adds. */
  lemma {:induction false} SameTotalAsVegas(scores: seq<seq<Option<int>>>, n: nat)
    requires Vegas.ScoreCard(scores) && n <= Holes
    ensures SumRange(StoredDiffs(scores), 0, n)
         == SumPresent(seq(Holes, i requires 0 <= i < Holes => Vegas.HoleDiff(Vegas.Team1Number(scores, i), Vegas.Team2Number(scores, i))), 0, n)
  {
    if n > 0 {
      SameTotalAsVegas(scores, n - 1);
    }
  }

  /** A fresh round's stored rows are what the update loop computes for it: with
      no scores, no team has a number and every hole stores 0. */
  lemma FreshRoundDiffs()
    ensures Vegas.ScoreCard(Utils.DefaultScores(GameType.Vegas))
    ensures StoredDiffs(Utils.DefaultScores(GameType.Vegas)) == Utils.DefaultResults(GameType.Vegas).diff
    ensures forall i :: 0 <= i < Holes ==>
      && Vegas.Team1Number(Utils.DefaultScores(GameType.Vegas), i) == Utils.DefaultResults(GameType.Vegas).t1Num[i]
      && Vegas.Team2Number(Utils.DefaultScores(GameType.Vegas), i) == Utils.DefaultResults(GameType.Vegas).t2Num[i]
  {
  }

  /** A player's nine or round score cell: blank only when every score in that
      range is missing, otherwise the sum of the present ones. */
  function ScoreCell(s: seq<Option<int>>, lo: nat, hi: nat): (cell: Option<int>)
    requires lo <= hi <= |s|
    ensures cell.None? <==> NonePresent(s, lo, hi)
    ensures cell.Some? ==> cell.value == SumPresent(s, lo, hi)
  {
    if NonePresent(s, lo, hi) then None else Some(SumPresent(s, lo, hi))
  }

  /** The settlement as this copy writes it: a positive total (team 1's numbers
      were lower, so team 1 won) makes team 1 pay team 2. */
  function SettlementAsWritten(totalDiff: int, pointValue: real): (o: Vegas.VegasOutcome)
    ensures o.MatchTied? <==> totalDiff == 0
    ensures o.Team1OwesTeam2? <==> totalDiff > 0
    ensures o.Team2OwesTeam1? <==> totalDiff < 0
    ensures !o.MatchTied? ==> o.amount == Vegas.AbsInt(totalDiff) as real * OrDefault(pointValue, Vegas.DefaultPointValue)
  {
    var amount := Vegas.AbsInt(totalDiff) as real * OrDefault(pointValue, Vegas.DefaultPointValue);
    if totalDiff == 0 then Vegas.MatchTied
    else if totalDiff > 0 then Vegas.Team1OwesTeam2(amount)
    else Vegas.Team2OwesTeam1(amount)
  }

  /** The winner pays: team 1 scores 4 and 4 on hole 1 (number 44) against
      team 2's 5 and 5 (number 55), nothing else is scored, so the total is +11;
      the copy as written has team 1 pay 11 points, while js/vegas.js and the
      corrected settlement have team 2 pay team 1. */
  lemma WinnerPaysAsWritten(scores: seq<seq<Option<int>>>)
    requires Vegas.ScoreCard(scores)
    requires scores[0][0] == Some(4) && scores[1][0] == Some(4) && scores[2][0] == Some(5) && scores[3][0] == Some(5)
    requires forall p, i :: 0 <= p < 4 && 1 <= i < Holes ==> scores[p][i].None?
    ensures Vegas.Team1Number(scores, 0) == Some(44) && Vegas.Team2Number(scores, 0) == Some(55)
    ensures SumRange(StoredDiffs(scores), 0, Holes) == 11
    ensures SettlementAsWritten(11, 1.0) == Vegas.Team1OwesTeam2(11.0)
    ensures Vegas.Settlement(11, 1.0) == Vegas.Team2OwesTeam1(11.0)
  {
    var d := StoredDiffs(scores);
    forall i | 1 <= i < Holes
      ensures d[i] == 0
    {
      assert scores[0][i].None?;
    }
    ZeroTail(d, Holes);
  }

  lemma {:induction false} ZeroTail(d: seq<int>, n: nat)
    requires 1 <= n <= |d| && forall i :: 1 <= i < |d| ==> d[i] == 0
    ensures SumRange(d, 0, n) == d[0]
  {
    if n > 1 {
      ZeroTail(d, n - 1);
    }
  }

  /** Settling this copy's total with the rule of js/vegas.js pays the team
      whose numbers were lower over the compared holes; the rule as written
      here makes exactly that team pay. */
  lemma CorrectedPaysLowerNumbers(scores: seq<seq<Option<int>>>, pointValue: real)
    requires Vegas.ScoreCard(scores)
    ensures var t1 := seq(Holes, i requires 0 <= i < Holes => Vegas.Team1Number(scores, i));
            var t2 := seq(Holes, i requires 0 <= i < Holes => Vegas.Team2Number(scores, i));
            var total := SumRange(StoredDiffs(scores), 0, Holes);
            && (Vegas.Settlement(total, pointValue).Team2OwesTeam1? <==> Vegas.NumberGap(t1, t2, 0, Holes) > 0)
            && (Vegas.Settlement(total, pointValue).Team1OwesTeam2? <==> Vegas.NumberGap(t1, t2, 0, Holes) < 0)
            && (SettlementAsWritten(total, pointValue).Team1OwesTeam2? <==> Vegas.NumberGap(t1, t2, 0, Holes) > 0)
  {
    var t1 := seq(Holes, i requires 0 <= i < Holes => Vegas.Team1Number(scores, i));
    var t2 := seq(Holes, i requires 0 <= i < Holes => Vegas.Team2Number(scores, i));
    var diffs := seq(Holes, i requires 0 <= i < Holes => Vegas.HoleDiff(Vegas.Team1Number(scores, i), Vegas.Team2Number(scores, i)));
    SameTotalAsVegas(scores, Holes);
    Vegas.TotalIsNumberGap(t1, t2, diffs, 0, Holes);
  }
}
