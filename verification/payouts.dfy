/** The "who collects, who pays" summary shared by the four-player point games
    (js/games/wolf.js and js/games/bingo.js): one line per player whose
    winnings are not zero, in player order. */
module Payouts {

  /** A summary line: player index (0-based) collects or pays a positive amount. */
  datatype PayLine = Collects(player: nat, amount: real) | Pays(player: nat, amount: real)

  /** The summary text: the joined lines, or "No points awarded yet" when there are none. */
  datatype SummaryText = NoPointsAwardedYet | Joined(lines: seq<PayLine>)

  /** A line agrees with the winnings it reports: collects exactly a positive
      amount, pays exactly the absolute value of a negative one. */
  predicate LineMatches(winnings: seq<real>, l: PayLine)
  {
    && l.player < |winnings|
    && (l.Collects? ==> winnings[l.player] > 0.0 && l.amount == winnings[l.player])
    && (l.Pays? ==> winnings[l.player] < 0.0 && l.amount == -winnings[l.player])
  }

  /** The line a player's winnings produce: collects when positive, pays the
      absolute value when negative, nothing at zero. */
  function LineFor(winnings: seq<real>, p: nat): (l: seq<PayLine>)
    requires p < |winnings|
    ensures |l| <= 1
    ensures |l| == 0 <==> winnings[p] == 0.0
    ensures |l| == 1 ==> l[0].player == p && LineMatches(winnings, l[0])
  {
    var w := winnings[p];
    if w == 0.0 then [] else if w > 0.0 then [Collects(p, w)] else [Pays(p, -w)]
  }

  /** The lines of the first n players. */
  function PayLines(winnings: seq<real>, n: nat): (lines: seq<PayLine>)
    requires n <= |winnings|
    ensures |lines| <= n
  {
    if n == 0 then []
    else PayLines(winnings, n - 1) + LineFor(winnings, n - 1)
  }

  /** There are no lines exactly when every one of the first n players has zero winnings. */
  lemma {:induction false} PayLinesEmpty(winnings: seq<real>, n: nat)
    requires n <= |winnings|
    ensures PayLines(winnings, n) == [] <==> forall p :: 0 <= p < n ==> winnings[p] == 0.0
  {
    if n > 0 {
      PayLinesEmpty(winnings, n - 1);
    }
  }

  /** Every line belongs to one of the first n players and agrees with their winnings. */
  lemma {:induction false} PayLinesMatch(winnings: seq<real>, n: nat, k: nat)
    requires n <= |winnings| && k < |PayLines(winnings, n)|
    ensures PayLines(winnings, n)[k].player < n && LineMatches(winnings, PayLines(winnings, n)[k])
  {
    var prev := PayLines(winnings, n - 1);
    if k < |prev| {
      PayLinesMatch(winnings, n - 1, k);
      assert PayLines(winnings, n)[k] == prev[k];
    } else {
      assert PayLines(winnings, n)[k] == LineFor(winnings, n - 1)[k - |prev|];
    }
  }

  /** The lines come in strictly increasing player order, so no player has two. */
  lemma {:induction false} PayLinesOrdered(winnings: seq<real>, n: nat, j: nat, k: nat)
    requires n <= |winnings| && j < k < |PayLines(winnings, n)|
    ensures PayLines(winnings, n)[j].player < PayLines(winnings, n)[k].player
  {
    var prev := PayLines(winnings, n - 1);
    var lines := PayLines(winnings, n);
    if k < |prev| {
      PayLinesOrdered(winnings, n - 1, j, k);
      assert lines[j] == prev[j] && lines[k] == prev[k];
    } else {
      PayLinesMatch(winnings, n - 1, j);
      assert lines[j] == prev[j] && lines[k] == LineFor(winnings, n - 1)[k - |prev|];
    }
  }

  /** Every player with non-zero winnings has a line. */
  lemma {:induction false} PayLinesComplete(winnings: seq<real>, n: nat, p: nat)
    requires n <= |winnings| && p < n && winnings[p] != 0.0
    ensures exists k :: 0 <= k < |PayLines(winnings, n)| && PayLines(winnings, n)[k].player == p
  {
    var prev := PayLines(winnings, n - 1);
    var lines := PayLines(winnings, n);
    assert lines == prev + LineFor(winnings, n - 1);
    if p == n - 1 {
      assert lines[|prev|] == LineFor(winnings, n - 1)[0];
    } else {
      PayLinesComplete(winnings, n - 1, p);
      var k :| 0 <= k < |prev| && prev[k].player == p;
      assert lines[k] == prev[k];
    }
  }

  /** The summary loop of the settlement: one line per player with non-zero
      winnings, and the no-points text when there is none. */
  method SummaryLines(winnings: seq<real>) returns (summary: SummaryText)
    ensures summary.NoPointsAwardedYet? <==> forall p :: 0 <= p < |winnings| ==> winnings[p] == 0.0
    ensures summary.Joined? ==> summary.lines == PayLines(winnings, |winnings|)
  {
    var lines: seq<PayLine> := [];
    var p := 0;
    while p < |winnings|
      invariant 0 <= p <= |winnings|
      invariant lines == PayLines(winnings, p)
    {
      ghost var next := PayLines(winnings, p + 1);
      assert next == lines + LineFor(winnings, p);
      if winnings[p] != 0.0 {
        if winnings[p] > 0.0 {
          lines := lines + [Collects(p, winnings[p])];
        } else {
          lines := lines + [Pays(p, -winnings[p])];
        }
      }
      assert lines == next;
      p := p + 1;
    }
    PayLinesEmpty(winnings, |winnings|);
    if |lines| > 0 {
      summary := Joined(lines);
    } else {
      summary := NoPointsAwardedYet;
    }
  }
}
