/** Wolf for four players (js/games/wolf.js): the captain ("wolf") rotates
    every hole, plays alone or picks a partner, and points are handed out per
    hole, summed per nine and settled at a point value. */
module Wolf {
  import opened Golf
  import opened Payouts
  import Utils

  /** Four score rows (one per player) of 18 holes each: scores[p][i]. */
  predicate ScoreCard(scores: seq<seq<Option<int>>>)
  {
    |scores| == 4 && forall p :: 0 <= p < 4 ==> |scores[p]| == Holes
  }

  /** The wolf on 0-based hole i. */
  function WolfOf(i: nat): PlayerIndex
  {
    i % 4
  }

  /** The captaincy rotates: four consecutive holes have four different wolves,
      and the wolf repeats every fourth hole. */
  lemma WolfRotation(i: nat)
    ensures WolfOf(i + 4) == WolfOf(i)
    ensures WolfOf(i) != WolfOf(i + 1) && WolfOf(i) != WolfOf(i + 2) && WolfOf(i) != WolfOf(i + 3)
  {
  }

  /** The lone-wolf multiplier when none is entered (`loneMultiplier || 3`). */
  const DefaultMultiplier: real := 3.0

  /** All four players have a score on hole i. */
  predicate Complete(scores: seq<seq<Option<int>>>, i: nat)
    requires ScoreCard(scores) && i < Holes
  {
    forall p :: 0 <= p < 4 ==> scores[p][i].Some?
  }

  function Min(a: int, b: int): int { if a <= b then a else b }

  /** The lowest of the four scores on a complete hole. */
  function Lowest(scores: seq<seq<Option<int>>>, i: nat): (low: int)
    requires ScoreCard(scores) && i < Holes && Complete(scores, i)
    ensures forall p :: 0 <= p < 4 ==> low <= scores[p][i].value
    ensures exists p :: 0 <= p < 4 && low == scores[p][i].value
  {
    Min(Min(scores[0][i].value, scores[1][i].value), Min(scores[2][i].value, scores[3][i].value))
  }

  /** The hole is played for points: a selection is made, every score is in,
      and the partner (if any) is not the wolf. */
  predicate Counts(sel: Selection, scores: seq<seq<Option<int>>>, i: nat)
    requires ScoreCard(scores) && i < Holes
  {
    && !sel.NoSelection?
    && Complete(scores, i)
    && !(sel.Partner? && sel.index == WolfOf(i))
  }

  /** The best score of the wolf's side: the wolf's alone, or the better of
      wolf and partner. */
  function SideBest(sel: Selection, scores: seq<seq<Option<int>>>, i: nat): int
    requires ScoreCard(scores) && i < Holes && Complete(scores, i)
  {
    var w := scores[WolfOf(i)][i].value;
    if sel.Partner? then Min(w, scores[sel.index][i].value) else w
  }

  /** The wolf's side wins the hole when its best equals the lowest score. */
  predicate SideWins(sel: Selection, scores: seq<seq<Option<int>>>, i: nat)
    requires ScoreCard(scores) && i < Holes && Complete(scores, i)
  {
    SideBest(sel, scores, i) == Lowest(scores, i)
  }

  /** The wolf's side wins exactly when no player has a strictly lower score:
      a tie for lowest counts as a win. */
  lemma SideWinsIffNoneLower(sel: Selection, scores: seq<seq<Option<int>>>, i: nat)
    requires ScoreCard(scores) && i < Holes && Complete(scores, i)
    ensures SideWins(sel, scores, i) <==> forall p :: 0 <= p < 4 ==> SideBest(sel, scores, i) <= scores[p][i].value
  {
    var p :| 0 <= p < 4 && Lowest(scores, i) == scores[p][i].value;
    assert SideBest(sel, scores, i) >= Lowest(scores, i) by {
      assert scores[WolfOf(i)][i].value >= Lowest(scores, i);
      if sel.Partner? {
        assert scores[sel.index][i].value >= Lowest(scores, i);
      }
    }
  }

  const Zeros: seq<real> := [0.0, 0.0, 0.0, 0.0]

  /** The four players' points on hole i (the points matrix row). A skipped hole
      gives zeros. Alone: the wolf gets the multiplier and everyone else -1 on a
      win, the wolf -3 and everyone else +1 on a loss. With a partner: wolf +2,
      partner +1, opponents -1 on a win, and -2, -1, +1 on a loss. */
  function HolePoints(sel: Selection, scores: seq<seq<Option<int>>>, i: nat, m: real): (r: seq<real>)
    requires ScoreCard(scores) && i < Holes
    ensures |r| == 4
    ensures !Counts(sel, scores, i) ==> r == Zeros
  {
    if !Counts(sel, scores, i) then Zeros
    else
      var w := WolfOf(i);
      var win := SideWins(sel, scores, i);
      match sel
      case Alone =>
        if win then seq(4, p => if p == w then m else -1.0)
        else seq(4, p => if p == w then -3.0 else 1.0)
      case Partner(q) =>
        if win then seq(4, p => if p == w then 2.0 else if p == q then 1.0 else -1.0)
        else seq(4, p => if p == w then -2.0 else if p == q then -1.0 else 1.0)
  }

  function Sum4(r: seq<real>): real
    requires |r| == 4
  {
    r[0] + r[1] + r[2] + r[3]
  }

  /** What a hole's four entries add up to: nothing on a skipped hole or a lone
      wolf's loss, the multiplier minus 3 on a lone wolf's win, and +1 or -1 on
      a partner hole won or lost (two points to the side against two opponents). */
  function HoleImbalance(sel: Selection, scores: seq<seq<Option<int>>>, i: nat, m: real): real
    requires ScoreCard(scores) && i < Holes
  {
    if !Counts(sel, scores, i) then 0.0
    else if sel.Alone? then (if SideWins(sel, scores, i) then m - 3.0 else 0.0)
    else if SideWins(sel, scores, i) then 1.0 else -1.0
  }

  /** The sum of a hole's points is its imbalance: zero on skipped holes, lone
      losses and lone wins at multiplier 3, but never zero on a partner hole. */
  lemma HoleSum(sel: Selection, scores: seq<seq<Option<int>>>, i: nat, m: real)
    requires ScoreCard(scores) && i < Holes
    ensures Sum4(HolePoints(sel, scores, i, m)) == HoleImbalance(sel, scores, i, m)
  {
    var r := HolePoints(sel, scores, i, m);
    if Counts(sel, scores, i) {
      var w := WolfOf(i);
      var win := SideWins(sel, scores, i);
      match sel
      case Alone =>
        if win { SumOneOut(r, w, m, -1.0); } else { SumOneOut(r, w, -3.0, 1.0); }
      case Partner(q) =>
        if win { SumTwoOut(r, w, q, 2.0, 1.0, -1.0); } else { SumTwoOut(r, w, q, -2.0, -1.0, 1.0); }
    }
  }

  /** Hole 1 with scores 4, 4, 6, 6 and the wolf (player 1) taking player 2 as
      partner: the side's best 4 is the lowest, so the row is +2, +1, -1, -1,
      which adds up to +1 rather than zero. */
  lemma PartnerWinExample(scores: seq<seq<Option<int>>>, m: real)
    requires ScoreCard(scores)
    requires scores[0][0] == Some(4) && scores[1][0] == Some(4) && scores[2][0] == Some(6) && scores[3][0] == Some(6)
    ensures HolePoints(Partner(1), scores, 0, m) == [2.0, 1.0, -1.0, -1.0]
    ensures Sum4(HolePoints(Partner(1), scores, 0, m)) == 1.0
  {
    assert Counts(Partner(1), scores, 0) && SideWins(Partner(1), scores, 0);
    var r := HolePoints(Partner(1), scores, 0, m);
    assert r[0] == 2.0 && r[1] == 1.0 && r[2] == -1.0 && r[3] == -1.0;
  }

  lemma SumOneOut(r: seq<real>, w: PlayerIndex, a: real, b: real)
    requires |r| == 4 && forall p :: 0 <= p < 4 ==> r[p] == if p == w then a else b
    ensures Sum4(r) == a + 3.0 * b
  {
  }

  lemma SumTwoOut(r: seq<real>, w: PlayerIndex, q: PlayerIndex, a: real, c: real, b: real)
    requires w != q
    requires |r| == 4 && forall p :: 0 <= p < 4 ==> r[p] == if p == w then a else if p == q then c else b
    ensures Sum4(r) == a + c + 2.0 * b
  {
  }

  /** On a counted hole the opponents (everyone but the wolf and partner) all
      get the same single point, +1 exactly when the wolf's side lost. */
  lemma OpponentsShare(sel: Selection, scores: seq<seq<Option<int>>>, i: nat, m: real, p: PlayerIndex)
    requires ScoreCard(scores) && i < Holes && Counts(sel, scores, i)
    requires p != WolfOf(i) && !(sel.Partner? && p == sel.index)
    ensures HolePoints(sel, scores, i, m)[p] == if SideWins(sel, scores, i) then -1.0 else 1.0
  {
  }

  /** Sets every slot except `keep1` and `keep2` to v: the "other players" and
      "opponents" loops of the points computation. */
  method FillOthers(row: seq<real>, keep1: PlayerIndex, keep2: PlayerIndex, v: real) returns (r: seq<real>)
    requires |row| == 4
    ensures |r| == 4
    ensures forall p :: 0 <= p < 4 ==> r[p] == if p == keep1 || p == keep2 then row[p] else v
  {
    r := row;
    for p := 0 to 4
      invariant |r| == 4
      invariant forall q :: 0 <= q < 4 ==> r[q] == if q < p && q != keep1 && q != keep2 then v else row[q]
    {
      if p != keep1 && p != keep2 {
        r := r[p := v];
      }
    }
  }

  /** One hole of the points loop of updateWolf. */
  method HoleRow(sel: Selection, scores: seq<seq<Option<int>>>, i: nat, m: real) returns (row: seq<real>)
    requires ScoreCard(scores) && i < Holes
    ensures row == HolePoints(sel, scores, i, m)
  {
    row := Zeros;
    var w := WolfOf(i);
    if sel.NoSelection? {
      return;
    }
    if scores[0][i].None? || scores[1][i].None? || scores[2][i].None? || scores[3][i].None? {
      return;
    }
    assert Complete(scores, i);
    var lowest := Lowest(scores, i);
    match sel
    case Alone =>
      if scores[w][i].value == lowest {
        row := row[w := m];
        row := FillOthers(row, w, w, -1.0);
      } else {
        row := row[w := -3.0];
        row := FillOthers(row, w, w, 1.0);
      }
    case Partner(q) =>
      if q == w {
        return;
      }
      var teamLowest := Min(scores[w][i].value, scores[q][i].value);
      if teamLowest == lowest {
        row := row[w := 2.0];
        row := row[q := 1.0];
        row := FillOthers(row, w, q, -1.0);
      } else {
        row := row[w := -2.0];
        row := row[q := -1.0];
        row := FillOthers(row, w, q, 1.0);
      }
  }

  /** The points loop of updateWolf: one row per hole, the lone multiplier
      defaulting to 3 when zero. */
  method ComputePoints(selections: seq<Selection>, scores: seq<seq<Option<int>>>, loneMultiplier: real)
    returns (points: seq<seq<real>>)
    requires |selections| == Holes && ScoreCard(scores)
    ensures |points| == Holes
    ensures forall i :: 0 <= i < Holes ==>
      points[i] == HolePoints(selections[i], scores, i, OrDefault(loneMultiplier, DefaultMultiplier))
  {
    var m := OrDefault(loneMultiplier, DefaultMultiplier);
    points := [];
    var i := 0;
    while i < Holes
      invariant 0 <= i <= Holes && |points| == i
      invariant forall k :: 0 <= k < i ==> points[k] == HolePoints(selections[k], scores, k, m)
    {
      var row := HoleRow(selections[i], scores, i, m);
      points := points + [row];
      i := i + 1;
    }
  }

  /** A well-formed points matrix: 18 rows of four entries. */
  predicate PointsMatrix(points: seq<seq<real>>)
  {
    |points| == Holes && forall i :: 0 <= i < Holes ==> |points[i]| == 4
  }

  /** Player p's points summed over holes lo..hi-1. */
  function ColumnSum(points: seq<seq<real>>, p: PlayerIndex, lo: nat, hi: nat): real
    requires PointsMatrix(points) && lo <= hi <= Holes
    decreases hi - lo
  {
    if lo == hi then 0.0 else ColumnSum(points, p, lo, hi - 1) + points[hi - 1][p]
  }

  lemma {:induction false} ColumnSumSplit(points: seq<seq<real>>, p: PlayerIndex, lo: nat, mid: nat, hi: nat)
    requires PointsMatrix(points) && lo <= mid <= hi <= Holes
    ensures ColumnSum(points, p, lo, hi) == ColumnSum(points, p, lo, mid) + ColumnSum(points, p, mid, hi)
    decreases hi - mid
  {
    if mid < hi {
      ColumnSumSplit(points, p, lo, mid, hi - 1);
    }
  }

  /** Player p's out, in and total points from the summary loop of updateWolf. */
  method PointSums(points: seq<seq<real>>, p: PlayerIndex) returns (outPoints: real, inPoints: real, totalPoints: real)
    requires PointsMatrix(points)
    ensures outPoints == ColumnSum(points, p, 0, Nine) && inPoints == ColumnSum(points, p, Nine, Holes)
    ensures totalPoints == ColumnSum(points, p, 0, Holes)
    ensures outPoints + inPoints == totalPoints
  {
    outPoints, inPoints, totalPoints := 0.0, 0.0, 0.0;
    var i := 0;
    while i < Holes
      invariant 0 <= i <= Holes
      invariant outPoints == ColumnSum(points, p, 0, if i < Nine then i else Nine)
      invariant inPoints == (if i <= Nine then 0.0 else ColumnSum(points, p, Nine, i))
      invariant totalPoints == ColumnSum(points, p, 0, i)
    {
      var holeNum := i + 1;
      if holeNum <= 9 {
        outPoints := outPoints + points[i][p];
      } else {
        inPoints := inPoints + points[i][p];
      }
      totalPoints := totalPoints + points[i][p];
      i := i + 1;
    }
    ColumnSumSplit(points, p, 0, Nine, Holes);
  }

  /** One player's summary row: score sums and completeness per nine, and
      points per nine. */
  datatype PlayerSummary = PlayerSummary(
    outScore: int, inScore: int, totalScore: int, frontValid: bool, backValid: bool,
    outPoints: real, inPoints: real, totalPoints: real)

  /** Player p's summary row: scores and points per nine and in total, each
      nine valid exactly when all its scores are present. */
  predicate Summarizes(scores: seq<seq<Option<int>>>, points: seq<seq<real>>, p: PlayerIndex, row: PlayerSummary)
    requires ScoreCard(scores) && PointsMatrix(points)
  {
    && row.outScore == SumPresent(scores[p], 0, Nine) && row.inScore == SumPresent(scores[p], Nine, Holes)
    && row.totalScore == row.outScore + row.inScore
    && (row.frontValid <==> AllPresent(scores[p], 0, Nine))
    && (row.backValid <==> AllPresent(scores[p], Nine, Holes))
    && row.outPoints == ColumnSum(points, p, 0, Nine) && row.inPoints == ColumnSum(points, p, Nine, Holes)
    && row.totalPoints == row.outPoints + row.inPoints
  }

  /** The summary loop of updateWolf, for all four players. */
  method Summarize(scores: seq<seq<Option<int>>>, points: seq<seq<real>>) returns (rows: seq<PlayerSummary>)
    requires ScoreCard(scores) && PointsMatrix(points)
    ensures |rows| == 4
    ensures forall p: PlayerIndex :: 0 <= p < 4 ==> Summarizes(scores, points, p, rows[p])
  {
    rows := [];
    var p := 0;
    while p < 4
      invariant 0 <= p <= 4 && |rows| == p
      invariant forall q: PlayerIndex :: 0 <= q < p ==> Summarizes(scores, points, q, rows[q])
    {
      var outScore, inScore, totalScore, frontValid, backValid := RowSums(scores[p]);
      var outPoints, inPoints, totalPoints := PointSums(points, p);
      rows := rows + [PlayerSummary(outScore, inScore, totalScore, frontValid, backValid, outPoints, inPoints, totalPoints)];
      p := p + 1;
    }
  }

  /** The score cells shown in the summary row: each nine only when complete,
      the total when either nine is. */
  function ScoreCells(row: PlayerSummary): (cells: (Option<int>, Option<int>, Option<int>))
    ensures cells.0.Some? <==> row.frontValid
    ensures cells.1.Some? <==> row.backValid
    ensures cells.2.Some? <==> row.frontValid || row.backValid
    ensures cells.0.Some? ==> cells.0.value == row.outScore
    ensures cells.1.Some? ==> cells.1.value == row.inScore
    ensures cells.2.Some? ==> cells.2.value == row.totalScore
  {
    (if row.frontValid then Some(row.outScore) else None,
     if row.backValid then Some(row.inScore) else None,
     if row.frontValid || row.backValid then Some(row.totalScore) else None)
  }

  /** The four players' totals over holes 0..n-1 add up to the sum of the
      holes' own sums. */
  lemma {:induction false} TotalsAddUp(points: seq<seq<real>>, n: nat)
    requires PointsMatrix(points) && n <= Holes
    ensures ColumnSum(points, 0, 0, n) + ColumnSum(points, 1, 0, n) + ColumnSum(points, 2, 0, n) + ColumnSum(points, 3, 0, n)
            == SumRangeReal(seq(Holes, i requires 0 <= i < Holes => Sum4(points[i])), 0, n)
  {
    if n > 0 {
      TotalsAddUp(points, n - 1);
    }
  }

  /** A fresh round's stored points are what the points loop computes for it:
      until a captain chooses, every hole's row is zero, whatever the scores. */
  lemma FreshRoundPoints(scores: seq<seq<Option<int>>>, m: real)
    requires ScoreCard(scores)
    ensures forall i :: 0 <= i < Holes ==>
      HolePoints(Utils.DefaultSelections(GameType.Wolf)[i], scores, i, m) == Utils.DefaultResults(GameType.Wolf).points[i]
  {
  }

  /** With no partner holes and the default multiplier of 3, every hole is
      zero-sum and so are the players' round totals. */
  lemma LoneDefaultZeroSum(selections: seq<Selection>, scores: seq<seq<Option<int>>>, points: seq<seq<real>>)
    requires |selections| == Holes && ScoreCard(scores) && PointsMatrix(points)
    requires forall i :: 0 <= i < Holes ==> !selections[i].Partner?
    requires forall i :: 0 <= i < Holes ==> points[i] == HolePoints(selections[i], scores, i, 3.0)
    ensures ColumnSum(points, 0, 0, Holes) + ColumnSum(points, 1, 0, Holes)
          + ColumnSum(points, 2, 0, Holes) + ColumnSum(points, 3, 0, Holes) == 0.0
  {
    forall i | 0 <= i < Holes
      ensures Sum4(points[i]) == 0.0
    {
      LoneHoleZero(selections[i], scores, i, points[i]);
    }
    ZeroHolesZeroTotal(points);
  }

  /** When every hole's four entries add up to zero, so do the four players'
      round totals. */
  lemma ZeroHolesZeroTotal(points: seq<seq<real>>)
    requires PointsMatrix(points)
    requires forall i :: 0 <= i < Holes ==> Sum4(points[i]) == 0.0
    ensures ColumnSum(points, 0, 0, Holes) + ColumnSum(points, 1, 0, Holes)
          + ColumnSum(points, 2, 0, Holes) + ColumnSum(points, 3, 0, Holes) == 0.0
  {
    var sums := seq(Holes, i requires 0 <= i < Holes => Sum4(points[i]));
    assert forall i :: 0 <= i < Holes ==> sums[i] == 0.0;
    ZeroRangeSum(sums, Holes);
    TotalsAddUp(points, Holes);
  }

  /** One hole without a partner, at the default multiplier, adds up to zero. */
  lemma LoneHoleZero(sel: Selection, scores: seq<seq<Option<int>>>, i: nat, row: seq<real>)
    requires ScoreCard(scores) && i < Holes && !sel.Partner?
    requires row == HolePoints(sel, scores, i, 3.0)
    ensures |row| == 4 && Sum4(row) == 0.0
  {
    HoleSum(sel, scores, i, 3.0);
  }

  lemma {:induction false} ZeroRangeSum(s: seq<real>, n: nat)
    requires n <= |s| && forall i :: 0 <= i < n ==> s[i] == 0.0
    ensures SumRangeReal(s, 0, n) == 0.0
  {
    if n > 0 {
      ZeroRangeSum(s, n - 1);
    }
  }

  /** The point value when none is entered (`pointValue || 1`). */
  const DefaultPointValue: real := 1.0

  /** updateWolfSettlement: winnings are total points times the point value. */
  function Winnings(totals: seq<real>, pointValue: real): (w: seq<real>)
    requires |totals| == 4
    ensures |w| == 4
    ensures forall p :: 0 <= p < 4 ==> (w[p] == 0.0 <==> totals[p] == 0.0)
    ensures forall p :: 0 <= p < 4 ==> (w[p] > 0.0 <==> (totals[p] > 0.0) == (OrDefault(pointValue, DefaultPointValue) > 0.0) && totals[p] != 0.0)
  {
    var v := OrDefault(pointValue, DefaultPointValue);
    seq(4, p requires 0 <= p < 4 => totals[p] * v)
  }

  /** Zero-sum totals give zero-sum winnings. */
  lemma WinningsZeroSum(totals: seq<real>, pointValue: real)
    requires |totals| == 4 && Sum4(totals) == 0.0
    ensures Sum4(Winnings(totals, pointValue)) == 0.0
  {
    var v := OrDefault(pointValue, DefaultPointValue);
    var w := Winnings(totals, pointValue);
    assert Sum4(w) == (totals[0] + totals[1] + totals[2] + totals[3]) * v;
  }

  /** The settlement: points, winnings and the summary lines. */
  datatype WolfSettlement = WolfSettlement(totalPoints: seq<real>, winnings: seq<real>, summary: SummaryText)

  method Settle(totals: seq<real>, pointValue: real) returns (s: WolfSettlement)
    requires |totals| == 4
    ensures s.totalPoints == totals && s.winnings == Winnings(totals, pointValue)
    ensures s.summary.NoPointsAwardedYet? <==> forall p :: 0 <= p < 4 ==> totals[p] == 0.0
    ensures s.summary.Joined? ==> s.summary.lines == PayLines(s.winnings, 4)
  {
    var w := Winnings(totals, pointValue);
    var summary := SummaryLines(w);
    s := WolfSettlement(totals, w, summary);
  }
}
