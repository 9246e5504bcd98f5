/** Bingo-Bango-Bongo for four players (js/games/bingo.js): on each hole one
    player may be marked for each of the three achievements, every mark is a
    point, and the round settles against the average. */
module Bingo {
  import opened Golf
  import opened Payouts
  import Utils

  /** Four rows of marks (one per player) of 18 holes each: marks[p][i]. */
  predicate MarkCard(marks: seq<seq<HoleMarks>>)
  {
    |marks| == 4 && forall p :: 0 <= p < 4 ==> |marks[p]| == Holes
  }

  function B(b: bool): int { if b then 1 else 0 }

  /** The number of marks a player holds on a hole (the summary's mark count). */
  function MarkCount(m: HoleMarks): (n: int)
    ensures 0 <= n <= 3
    ensures n == 0 <==> !m.bi && !m.ba && !m.bo
    ensures n == 3 <==> m.bi && m.ba && m.bo
  {
    B(m.bi) + B(m.ba) + B(m.bo)
  }

  /** A points matrix: 18 rows of four counts. */
  predicate PointsMatrix(points: seq<seq<int>>)
  {
    |points| == Holes && forall i :: 0 <= i < Holes ==> |points[i]| == 4
  }

  /** One player's points on one hole: start at 0 and add one per set flag. */
  method HolePoints(m: HoleMarks) returns (n: int)
    ensures n == MarkCount(m)
  {
    n := 0;
    if m.bi { n := n + 1; }
    if m.ba { n := n + 1; }
    if m.bo { n := n + 1; }
  }

  /** The points loop of updateBingo: pointsPerHole[i][p] counts player p's
      marks on hole i, so it lies in 0..3. */
  method ComputePoints(marks: seq<seq<HoleMarks>>) returns (pointsPerHole: seq<seq<int>>)
    requires MarkCard(marks)
    ensures PointsMatrix(pointsPerHole)
    ensures forall i, p :: 0 <= i < Holes && 0 <= p < 4 ==> pointsPerHole[i][p] == MarkCount(marks[p][i])
    ensures forall i, p :: 0 <= i < Holes && 0 <= p < 4 ==> 0 <= pointsPerHole[i][p] <= 3
  {
    pointsPerHole := [];
    var i := 0;
    while i < Holes
      invariant 0 <= i <= Holes && |pointsPerHole| == i
      invariant forall k :: 0 <= k < i ==> |pointsPerHole[k]| == 4
      invariant forall k, p :: 0 <= k < i && 0 <= p < 4 ==> pointsPerHole[k][p] == MarkCount(marks[p][k])
      invariant forall k, p :: 0 <= k < i && 0 <= p < 4 ==> 0 <= pointsPerHole[k][p] <= 3
    {
      var row := [0, 0, 0, 0];
      for p := 0 to 4
        invariant |row| == 4
        invariant forall q :: 0 <= q < p ==> row[q] == MarkCount(marks[q][i])
        invariant forall q :: p <= q < 4 ==> row[q] == 0
      {
        var n := HolePoints(marks[p][i]);
        row := row[p := n];
      }
      pointsPerHole := pointsPerHole + [row];
      i := i + 1;
    }
  }

  // ---------------------------------------------------------------------------
  // Exclusivity of each mark on a hole
  // ---------------------------------------------------------------------------

  /** At most one entry is set. */
  predicate AtMostOne(s: seq<bool>)
  {
    forall j, k :: 0 <= j < |s| && 0 <= k < |s| && s[j] && s[k] ==> j == k
  }

  /** enforceExclusivity: after one checkbox of a mark's column changes, clear
      every other checkbox of that column in place; the changed one is kept. */
  method EnforceExclusivity(checkboxes: array<bool>, changedIndex: int)
    modifies checkboxes
    ensures forall j :: 0 <= j < checkboxes.Length && j != changedIndex ==> !checkboxes[j]
    ensures 0 <= changedIndex < checkboxes.Length ==> checkboxes[changedIndex] == old(checkboxes[changedIndex])
    ensures AtMostOne(checkboxes[..])
  {
    for j := 0 to checkboxes.Length
      invariant forall k :: 0 <= k < j && k != changedIndex ==> !checkboxes[k]
      invariant forall k :: j <= k < checkboxes.Length ==> checkboxes[k] == old(checkboxes[k])
      invariant 0 <= changedIndex < checkboxes.Length ==> checkboxes[changedIndex] == old(checkboxes[changedIndex])
    {
      if j != changedIndex && checkboxes[j] {
        checkboxes[j] := false;
      }
    }
  }

  /** The three checkbox columns of hole i (one box per player) each have at
      most one box set. */
  predicate ExclusiveHole(marks: seq<seq<HoleMarks>>, i: nat)
    requires MarkCard(marks) && i < Holes
  {
    && AtMostOne(seq(4, p requires 0 <= p < 4 => marks[p][i].bi))
    && AtMostOne(seq(4, p requires 0 <= p < 4 => marks[p][i].ba))
    && AtMostOne(seq(4, p requires 0 <= p < 4 => marks[p][i].bo))
  }

  /** How many of four flags are set. */
  function Count4(s: seq<bool>): int
    requires |s| == 4
  {
    B(s[0]) + B(s[1]) + B(s[2]) + B(s[3])
  }

  /** A fresh round's stored points are what the points loop computes for it:
      with nothing ticked, every player scores 0 on every hole. */
  lemma FreshRoundPoints()
    ensures MarkCard(Utils.DefaultMarks(GameType.Bingo))
    ensures forall i, p :: 0 <= i < Holes && 0 <= p < 4 ==>
      MarkCount(Utils.DefaultMarks(GameType.Bingo)[p][i]) == Utils.DefaultResults(GameType.Bingo).pointsPerHole[i][p]
  {
  }

  /** With exclusivity in place, a hole awards at most the three points. */
  lemma ExclusiveHoleAtMostThree(marks: seq<seq<HoleMarks>>, i: nat)
    requires MarkCard(marks) && i < Holes && ExclusiveHole(marks, i)
    ensures MarkCount(marks[0][i]) + MarkCount(marks[1][i]) + MarkCount(marks[2][i]) + MarkCount(marks[3][i]) <= 3
  {
    var bi := seq(4, p requires 0 <= p < 4 => marks[p][i].bi);
    var ba := seq(4, p requires 0 <= p < 4 => marks[p][i].ba);
    var bo := seq(4, p requires 0 <= p < 4 => marks[p][i].bo);
    assert Count4(bi) <= 1 && Count4(ba) <= 1 && Count4(bo) <= 1;
    assert MarkCount(marks[0][i]) + MarkCount(marks[1][i]) + MarkCount(marks[2][i]) + MarkCount(marks[3][i])
        == Count4(bi) + Count4(ba) + Count4(bo);
  }

  // ---------------------------------------------------------------------------
  // Summary
  // ---------------------------------------------------------------------------

  /** Player p's marks over holes lo..hi-1. */
  function MarkSum(marks: seq<seq<HoleMarks>>, p: PlayerIndex, lo: nat, hi: nat): int
    requires MarkCard(marks) && lo <= hi <= Holes
    decreases hi - lo
  {
    if lo == hi then 0 else MarkSum(marks, p, lo, hi - 1) + MarkCount(marks[p][hi - 1])
  }

  /** Player p's points over holes lo..hi-1. */
  function PointSum(points: seq<seq<int>>, p: PlayerIndex, lo: nat, hi: nat): int
    requires PointsMatrix(points) && lo <= hi <= Holes
    decreases hi - lo
  {
    if lo == hi then 0 else PointSum(points, p, lo, hi - 1) + points[hi - 1][p]
  }

  /** Points and marks agree over any range of holes once the points matrix
      counts the marks. */
  lemma {:induction false} PointsEqualMarks(marks: seq<seq<HoleMarks>>, points: seq<seq<int>>, p: PlayerIndex, lo: nat, hi: nat)
    requires MarkCard(marks) && PointsMatrix(points) && lo <= hi <= Holes
    requires forall i :: lo <= i < hi ==> points[i][p] == MarkCount(marks[p][i])
    ensures PointSum(points, p, lo, hi) == MarkSum(marks, p, lo, hi)
    decreases hi - lo
  {
    if lo < hi {
      PointsEqualMarks(marks, points, p, lo, hi - 1);
    }
  }

  lemma {:induction false} MarkSumSplit(marks: seq<seq<HoleMarks>>, p: PlayerIndex, lo: nat, mid: nat, hi: nat)
    requires MarkCard(marks) && lo <= mid <= hi <= Holes
    ensures MarkSum(marks, p, lo, hi) == MarkSum(marks, p, lo, mid) + MarkSum(marks, p, mid, hi)
    decreases hi - mid
  {
    if mid < hi {
      MarkSumSplit(marks, p, lo, mid, hi - 1);
    }
  }

  lemma {:induction false} PointSumSplit(points: seq<seq<int>>, p: PlayerIndex, lo: nat, mid: nat, hi: nat)
    requires PointsMatrix(points) && lo <= mid <= hi <= Holes
    ensures PointSum(points, p, lo, hi) == PointSum(points, p, lo, mid) + PointSum(points, p, mid, hi)
    decreases hi - mid
  {
    if mid < hi {
      PointSumSplit(points, p, lo, mid, hi - 1);
    }
  }

  /** One player's summary row. */
  datatype PlayerSummary = PlayerSummary(
    outMarks: int, inMarks: int, totalMarks: int, outPoints: int, inPoints: int, totalPoints: int)

  /** The summary accumulators after the loop has visited the first i holes. */
  predicate SummaryUpTo(marks: seq<seq<HoleMarks>>, points: seq<seq<int>>, p: PlayerIndex, i: nat, acc: PlayerSummary)
    requires MarkCard(marks) && PointsMatrix(points) && i <= Holes
  {
    && acc.outMarks == MarkSum(marks, p, 0, if i < Nine then i else Nine)
    && acc.inMarks == (if i <= Nine then 0 else MarkSum(marks, p, Nine, i))
    && acc.totalMarks == MarkSum(marks, p, 0, i)
    && acc.outPoints == PointSum(points, p, 0, if i < Nine then i else Nine)
    && acc.inPoints == (if i <= Nine then 0 else PointSum(points, p, Nine, i))
    && acc.totalPoints == PointSum(points, p, 0, i)
  }

  /** The summary loop of updateBingo for player p: marks and points per nine
      and in total. */
  method Summarize(marks: seq<seq<HoleMarks>>, points: seq<seq<int>>, p: PlayerIndex) returns (row: PlayerSummary)
    requires MarkCard(marks) && PointsMatrix(points)
    ensures row.outMarks == MarkSum(marks, p, 0, Nine) && row.inMarks == MarkSum(marks, p, Nine, Holes)
    ensures row.outPoints == PointSum(points, p, 0, Nine) && row.inPoints == PointSum(points, p, Nine, Holes)
    ensures row.totalMarks == row.outMarks + row.inMarks && row.totalPoints == row.outPoints + row.inPoints
  {
    row := PlayerSummary(0, 0, 0, 0, 0, 0);
    var i := 0;
    while i < Holes
      invariant 0 <= i <= Holes
      invariant SummaryUpTo(marks, points, p, i, row)
    {
      row := SummaryStep(marks, points, p, i, row);
      i := i + 1;
    }
    MarkSumSplit(marks, p, 0, Nine, Holes);
    PointSumSplit(points, p, 0, Nine, Holes);
  }

  /** One hole of the summary loop: its marks and points go to the out or in
      nine by hole number, and to the totals. */
  method SummaryStep(marks: seq<seq<HoleMarks>>, points: seq<seq<int>>, p: PlayerIndex, i: nat, acc: PlayerSummary)
    returns (next: PlayerSummary)
    requires MarkCard(marks) && PointsMatrix(points) && i < Holes
    requires SummaryUpTo(marks, points, p, i, acc)
    ensures SummaryUpTo(marks, points, p, i + 1, next)
  {
    var holeNum := i + 1;
    var holeMarks := B(marks[p][i].bi) + B(marks[p][i].ba) + B(marks[p][i].bo);
    next := acc;
    if holeNum <= 9 {
      next := next.(outMarks := next.outMarks + holeMarks, outPoints := next.outPoints + points[i][p]);
    } else {
      next := next.(inMarks := next.inMarks + holeMarks, inPoints := next.inPoints + points[i][p]);
    }
    next := next.(totalMarks := next.totalMarks + holeMarks, totalPoints := next.totalPoints + points[i][p]);
  }

  /** For the points computed from the marks, each nine's mark count equals its
      points, and so does the total. */
  lemma SummaryMarksArePoints(marks: seq<seq<HoleMarks>>, points: seq<seq<int>>, p: PlayerIndex)
    requires MarkCard(marks) && PointsMatrix(points)
    requires forall i, q :: 0 <= i < Holes && 0 <= q < 4 ==> points[i][q] == MarkCount(marks[q][i])
    ensures PointSum(points, p, 0, Nine) == MarkSum(marks, p, 0, Nine)
    ensures PointSum(points, p, Nine, Holes) == MarkSum(marks, p, Nine, Holes)
    ensures PointSum(points, p, 0, Holes) == MarkSum(marks, p, 0, Holes)
  {
    PointsEqualMarks(marks, points, p, 0, Nine);
    PointsEqualMarks(marks, points, p, Nine, Holes);
    PointsEqualMarks(marks, points, p, 0, Holes);
  }

  // ---------------------------------------------------------------------------
  // Settlement
  // ---------------------------------------------------------------------------

  /** The point value when none is entered (`pointValue || 0.5`). */
  const DefaultPointValue: real := 0.5

  function Sum4(s: seq<int>): int
    requires |s| == 4
  {
    s[0] + s[1] + s[2] + s[3]
  }

  /** updateBingoSettlement: each player wins their points minus the average,
      times the point value. */
  function Winnings(points: seq<int>, pointValue: real): (w: seq<real>)
    requires |points| == 4
    ensures |w| == 4
  {
    var avg := Sum4(points) as real / 4.0;
    var v := OrDefault(pointValue, DefaultPointValue);
    seq(4, p requires 0 <= p < 4 => (points[p] as real - avg) * v)
  }

  /** The winnings always sum to zero. */
  lemma WinningsZeroSum(points: seq<int>, pointValue: real)
    requires |points| == 4
    ensures var w := Winnings(points, pointValue); w[0] + w[1] + w[2] + w[3] == 0.0
  {
    var avg := Sum4(points) as real / 4.0;
    var v := OrDefault(pointValue, DefaultPointValue);
    var w := Winnings(points, pointValue);
    var d := seq(4, p requires 0 <= p < 4 => points[p] as real - avg);
    assert d[0] + d[1] + d[2] + d[3] == 0.0;
    assert w[0] + w[1] + w[2] + w[3] == (d[0] + d[1] + d[2] + d[3]) * v;
  }

  /** With a positive point value, a player collects exactly when above the
      average, pays exactly when below it, and is left out at the average. */
  lemma WinningsSign(points: seq<int>, pointValue: real, p: PlayerIndex)
    requires |points| == 4 && pointValue > 0.0
    ensures var w := Winnings(points, pointValue)[p]; var avg := Sum4(points) as real / 4.0;
      && (w > 0.0 <==> points[p] as real > avg)
      && (w < 0.0 <==> points[p] as real < avg)
      && (w == 0.0 <==> points[p] as real == avg)
  {
  }

  /** The settlement: points, winnings and the summary lines. */
  datatype BingoSettlement = BingoSettlement(totalPoints: seq<int>, winnings: seq<real>, summary: SummaryText)

  method Settle(points: seq<int>, pointValue: real) returns (s: BingoSettlement)
    requires |points| == 4
    ensures s.totalPoints == points && s.winnings == Winnings(points, pointValue)
    ensures s.summary.NoPointsAwardedYet? <==> forall p :: 0 <= p < 4 ==> s.winnings[p] == 0.0
    ensures s.summary.Joined? ==> s.summary.lines == PayLines(s.winnings, 4)
  {
    var w := Winnings(points, pointValue);
    var summary := SummaryLines(w);
    s := BingoSettlement(points, w, summary);
  }

  /** When every player holds the same points (in particular when no marks are
      set) nobody collects or pays. */
  lemma EqualPointsNoPayout(points: seq<int>, pointValue: real)
    requires |points| == 4 && points[0] == points[1] == points[2] == points[3]
    ensures forall p :: 0 <= p < 4 ==> Winnings(points, pointValue)[p] == 0.0
  {
  }
}
