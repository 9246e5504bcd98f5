/** The shared helpers of js/utils.js: Stableford points, match-status text and
    classes, score validation, and the default round state per game type. */
module Utils {
  import opened Golf

  // ---------------------------------------------------------------------------
  // Stableford points
  // ---------------------------------------------------------------------------

  /** Standard Stableford points for a hole played `diff` strokes relative to par,
      as the code computes them (including the rule used beyond an albatross). */
  function StandardPoints(diff: int): (r: int)
    ensures r >= 0
    ensures r == 0 <==> diff >= 2
  {
    match diff
    case 0 => 2
    case 1 => 1
    case -1 => 3
    case -2 => 4
    case -3 => 5
    case _ => if diff >= 2 then 0 else 5 - diff
  }

  /** Modified Stableford points for a hole played `diff` strokes relative to par,
      as the code computes them (including the rule used beyond an albatross). */
  function ModifiedPoints(diff: int): (r: int)
    ensures r >= -2
    ensures r == -2 <==> diff >= 3
    ensures r < 0 <==> diff >= 2
  {
    match diff
    case 0 => 1
    case 1 => 0
    case 2 => -1
    case -1 => 2
    case -2 => 3
    case -3 => 4
    case _ => if diff >= 3 then -2 else 4 - diff
  }

  /** The point system calculateStablefordPoints uses when its caller passes none. */
  const DefaultPointSystem: string := "standard"

  /** calculateStablefordPoints: null when the score or the par is missing, or the
      point system is neither "standard" nor "modified". A call that omits the
      system is this function with `DefaultPointSystem`. */
  function StablefordPoints(score: Option<int>, par: Option<int>, system: string): (r: Option<int>)
    ensures r.None? <==> score.None? || par.None? || (system != "standard" && system != "modified")
    ensures r.Some? && system == "standard" ==> r.value >= 0
    ensures r.Some? && system == "modified" ==> r.value >= -2
  {
    if score.None? || par.None? then None
    else
      var diff := score.value - par.value;
      if system == "standard" then Some(StandardPoints(diff))
      else if system == "modified" then Some(ModifiedPoints(diff))
      else None
  }

  /** A worse score relative to par never earns more points, in either system. */
  lemma StablefordNonIncreasing(d1: int, d2: int)
    requires d1 <= d2
    ensures StandardPoints(d1) >= StandardPoints(d2)
    ensures ModifiedPoints(d1) >= ModifiedPoints(d2)
  {
  }

  /** The code's rule beyond an albatross breaks the one-point-per-stroke ladder:
      a score four under par earns 9 standard points (8 modified) where the
      stroke before it earns 5 (4 modified). */
  lemma StablefordJumpPastAlbatross()
    ensures StablefordPoints(Some(1), Some(5), "standard") == Some(9)
    ensures StablefordPoints(Some(2), Some(5), "standard") == Some(5)
    ensures StandardPoints(-4) != StandardPoints(-3) + 1
    ensures ModifiedPoints(-4) != ModifiedPoints(-3) + 1
  {
  }

  /** Standard points with the ladder continued past an albatross (2 - diff). */
  function StandardPointsCorrected(diff: int): (r: int)
    ensures r >= 0
    ensures -3 <= diff ==> r == StandardPoints(diff)
  {
    if diff >= 2 then 0 else 2 - diff
  }

  /** Modified points with the ladder continued past an albatross (1 - diff). */
  function ModifiedPointsCorrected(diff: int): (r: int)
    ensures r >= -2
    ensures -3 <= diff ==> r == ModifiedPoints(diff)
  {
    if diff >= 3 then -2 else 1 - diff
  }

  /** calculateStablefordPoints with the ladder continued past an albatross. */
  function StablefordPointsCorrected(score: Option<int>, par: Option<int>, system: string): (r: Option<int>)
    ensures r.None? <==> score.None? || par.None? || (system != "standard" && system != "modified")
    ensures r.Some? && score.value - par.value >= -3 ==> r == StablefordPoints(score, par, system)
  {
    if score.None? || par.None? then None
    else
      var diff := score.value - par.value;
      if system == "standard" then Some(StandardPointsCorrected(diff))
      else if system == "modified" then Some(ModifiedPointsCorrected(diff))
      else None
  }

  /** In the corrected tables every stroke saved, down to the floor, is worth
      exactly one point, however far under par. */
  lemma StablefordCorrectedLadder(diff: int)
    ensures diff <= 2 ==> StandardPointsCorrected(diff - 1) == StandardPointsCorrected(diff) + 1
    ensures diff <= 3 ==> ModifiedPointsCorrected(diff - 1) == ModifiedPointsCorrected(diff) + 1
    ensures diff >= 2 ==> StandardPointsCorrected(diff) == 0
    ensures diff >= 3 ==> ModifiedPointsCorrected(diff) == -2
  {
  }

  // ---------------------------------------------------------------------------
  // Match status text and classes
  // ---------------------------------------------------------------------------

  /** The shape of formatMatchStatus's text: "AS", "TIED",
      "<leader> <margin> & <toPlay>", or "<leader> <holes>[ UP]". */
  datatype StatusText =
    | AllSquare
    | Tied
    | ClosedOut(leader: Side, margin: int, toPlay: int)
    | Lead(leader: Side, holes: int, up: bool)

  function Abs(x: int): nat { if x < 0 then -x else x }

  /** formatMatchStatus: a positive status means P1 leads. */
  function FormatMatchStatus(status: int, holesRemaining: int, isFinal: bool): (t: StatusText)
    ensures status == 0 <==> t.AllSquare? || t.Tied?
    ensures status == 0 ==> (t.AllSquare? <==> holesRemaining > 0)
    ensures t.ClosedOut? || t.Lead? ==> (t.leader == P1 <==> status > 0)
    ensures status != 0 ==> (t.ClosedOut? <==> Abs(status) > holesRemaining)
    ensures t.ClosedOut? ==> t.margin >= 1 && t.margin + holesRemaining == Abs(status)
    ensures t.ClosedOut? ==> t.toPlay == if Abs(status) > holesRemaining + 1 then holesRemaining + 1 else holesRemaining
    ensures t.Lead? ==> t.holes == Abs(status) >= 1 && t.up == !isFinal
  {
    if status == 0 then
      (if holesRemaining > 0 then AllSquare else Tied)
    else
      var abs := Abs(status);
      var leader := if status > 0 then P1 else P2;
      if abs > holesRemaining then
        ClosedOut(leader, abs - holesRemaining, if abs > holesRemaining + 1 then holesRemaining + 1 else holesRemaining)
      else
        Lead(leader, abs, !isFinal)
  }

  /** Decimal digits of a natural number. */
  function NatToString(n: nat): (s: string)
    ensures |s| >= 1
    ensures forall k :: 0 <= k < |s| ==> '0' <= s[k] <= '9'
    decreases n
  {
    var d := [(('0' as int) + n % 10) as char];
    if n < 10 then d else NatToString(n / 10) + d
  }

  function IntToString(n: int): (s: string)
    ensures |s| >= 1
  {
    if n < 0 then "-" + NatToString(-n) else NatToString(n)
  }

  /** The text a StatusText renders to, given the two players' display names. */
  function Render(t: StatusText, p1Name: string, p2Name: string): (s: string)
    ensures t.AllSquare? ==> s == "AS"
    ensures t.Tied? ==> s == "TIED"
    ensures t.ClosedOut? || t.Lead? ==> (if t.leader == P1 then p1Name else p2Name) <= s
  {
    match t
    case AllSquare => "AS"
    case Tied => "TIED"
    case ClosedOut(leader, m, y) =>
      (if leader == P1 then p1Name else p2Name) + " " + IntToString(m) + " & " + IntToString(y)
    case Lead(leader, n, up) =>
      (if leader == P1 then p1Name else p2Name) + " " + IntToString(n) + (if up then " UP" else "")
  }

  /** A nine-hole sweep shown as final: the text is "P1 9 & 1". */
  lemma FinalNineSweepText()
    ensures FormatMatchStatus(9, 0, true) == ClosedOut(P1, 9, 1)
    ensures Render(FormatMatchStatus(9, 0, true), "P1", "P2") == "P1 9 & 1"
  {
  }

  /** The CSS classes of getStatusClass (numeric statuses only). */
  datatype StatusClass = StatusHalve | StatusWin | StatusLoss

  function GetStatusClass(status: int): (c: StatusClass)
    ensures c == StatusHalve <==> status == 0
    ensures c == StatusWin <==> status > 0
    ensures c == StatusLoss <==> status < 0
  {
    if status == 0 then StatusHalve else if status > 0 then StatusWin else StatusLoss
  }

  /** The CSS classes of getValueClass: none, positive, negative. */
  datatype ValueClass = NoValueClass | ValuePositive | ValueNegative

  function GetValueClass(value: real): (c: ValueClass)
    ensures c == NoValueClass <==> value == 0.0
    ensures c == ValuePositive <==> value > 0.0
    ensures c == ValueNegative <==> value < 0.0
  {
    if value == 0.0 then NoValueClass else if value > 0.0 then ValuePositive else ValueNegative
  }

  // ---------------------------------------------------------------------------
  // Score validation
  // ---------------------------------------------------------------------------

  /** A raw score field: blank, or text whose integer parse is `number`
      (None when it does not parse). */
  datatype ScoreEntry = Blank | Entered(number: Option<int>)

  datatype Validation = Validation(valid: bool, warning: bool, message: string)

  const PositiveMessage := "Score must be a positive number"
  const HighMessage := "Score seems high relative to par"
  const LowMessage := "Score seems low relative to par"

  /** A score that is high for its par: more than five over. */
  predicate SeemsHigh(n: int, par: int) { par > 0 && n > par + 5 }

  /** A score that is low for its par: more than three under, on a hole longer than a par 3. */
  predicate SeemsLow(n: int, par: int) { par > 3 && n < par - 3 }

  /** validateScore: `par` is the parsed par (None when it does not parse). */
  function ValidateScore(score: ScoreEntry, par: Option<int>): (r: Validation)
    ensures score.Blank? ==> r == Validation(true, false, "")
    ensures !r.valid <==> score.Entered? && (score.number.None? || score.number.value < 1)
    ensures !r.valid ==> r.message == PositiveMessage && !r.warning
    ensures r.warning <==> r.valid && score.Entered? && par.Some?
                           && (SeemsHigh(score.number.value, par.value) || SeemsLow(score.number.value, par.value))
    ensures r.warning ==> r.message == (if SeemsHigh(score.number.value, par.value) then HighMessage else LowMessage)
    ensures r.valid && !r.warning ==> r.message == ""
  {
    match score
    case Blank => Validation(true, false, "")
    case Entered(number) =>
      if number.None? || number.value < 1 then Validation(false, false, PositiveMessage)
      else if par.Some? && par.value > 0 then
        if number.value > par.value + 5 then Validation(true, true, HighMessage)
        else if number.value < par.value - 3 && par.value > 3 then Validation(true, true, LowMessage)
        else Validation(true, false, "")
      else Validation(true, false, "")
  }

  // ---------------------------------------------------------------------------
  // Default round state
  // ---------------------------------------------------------------------------

  /** Games whose state holds a par row. */
  predicate UsesPar(g: GameType) { g.Nassau? || g.Skins? || g.Stableford? || g.Banker? }

  /** Games played by four named individuals. */
  predicate HasFourPlayers(g: GameType) { g.Skins? || g.Wolf? || g.Bingo? || g.Stableford? || g.Banker? }

  /** Number of score rows each game keeps (Nassau p1/p2, Bloodsome t1/t2, Vegas pA..pD). */
  function ScoreRows(g: GameType): nat
  {
    match g
    case Nassau => 2
    case Bloodsome => 2
    case Wolf => 4
    case Skins => 4
    case Stableford => 4
    case Banker => 4
    case Vegas => 4
    case _ => 0
  }

  /** The default par row: par 4 on every hole, for the games that keep par. */
  function DefaultPar(g: GameType): (par: seq<Option<int>>)
    ensures UsesPar(g) ==> |par| == Holes && forall h :: 0 <= h < Holes ==> par[h] == Some(4)
    ensures !UsesPar(g) ==> par == []
  {
    if UsesPar(g) then seq(Holes, _ => Some(4)) else []
  }

  /** The default score rows: every score of every row is unrecorded. */
  function DefaultScores(g: GameType): (scores: seq<seq<Option<int>>>)
    ensures |scores| == ScoreRows(g)
    ensures forall p :: 0 <= p < |scores| ==> |scores[p]| == Holes
    ensures forall p, h :: 0 <= p < |scores| && 0 <= h < Holes ==> scores[p][h] == None
  {
    seq(ScoreRows(g), _ => seq(Holes, _ => None))
  }

  /** The default Wolf selections: no choice made on any hole. */
  function DefaultSelections(g: GameType): (selections: seq<Selection>)
    ensures g == Wolf ==> |selections| == Holes && forall h :: 0 <= h < Holes ==> selections[h] == NoSelection
    ensures g != Wolf ==> selections == []
  {
    if g == Wolf then seq(Holes, _ => NoSelection) else []
  }

  /** The default Bingo marks: four players, nothing ticked on any hole. */
  function DefaultMarks(g: GameType): (marks: seq<seq<HoleMarks>>)
    ensures g == Bingo ==> |marks| == 4
    ensures g != Bingo ==> marks == []
    ensures forall p :: 0 <= p < |marks| ==> |marks[p]| == Holes
    ensures forall p, h :: 0 <= p < |marks| && 0 <= h < Holes ==> marks[p][h] == HoleMarks(false, false, false)
  {
    if g == Bingo then seq(4, _ => seq(Holes, _ => HoleMarks(false, false, false))) else []
  }

  /** The default Bloodsome drives: two teams, no driver chosen on any hole. */
  function DefaultDrives(g: GameType): (drives: seq<seq<Driver>>)
    ensures g == Bloodsome ==> |drives| == 2
    ensures g != Bloodsome ==> drives == []
    ensures forall t :: 0 <= t < |drives| ==> |drives[t]| == Holes
    ensures forall t, h :: 0 <= t < |drives| && 0 <= h < Holes ==> drives[t][h] == NoDriver
  {
    if g == Bloodsome then seq(2, _ => seq(Holes, _ => NoDriver)) else []
  }

  /** The default Banker points rows: four players, no points on any hole. */
  function DefaultBankerPoints(g: GameType): (points: seq<seq<Option<int>>>)
    ensures g == Banker ==> |points| == 4
    ensures g != Banker ==> points == []
    ensures forall p :: 0 <= p < |points| ==> |points[p]| == Holes
    ensures forall p, h :: 0 <= p < |points| && 0 <= h < Holes ==> points[p][h] == None
  {
    if g == Banker then seq(4, _ => seq(Holes, _ => None)) else []
  }

  /** The `results` object of a round, in the shape each game stores it. A game
      without a case (NoResults) has no results at all; Banker's is `{}`.
      Nassau's three lists (holeResults, matchStatus, pressResults) always
      start empty; their entries are those of `NassauRound`. */
  datatype RoundResults =
    | NoResults
    | EmptyResults
    | NassauLists
    | SkinsResults(winners: seq<Option<int>>, values: seq<real>, carryovers: seq<real>)
    | WolfResults(points: seq<seq<real>>)
    | BingoResults(pointsPerHole: seq<seq<int>>)
    | BloodsomeResults(holeResults: seq<int>, matchStatus: seq<int>)
    | StablefordResults(playerPoints: seq<seq<int>>)
    | VegasResults(t1Num: seq<Option<int>>, t2Num: seq<Option<int>>, diff: seq<int>)

  /** Every per-hole list of a results object has one entry per hole. */
  predicate ResultsFull(r: RoundResults)
  {
    match r
    case SkinsResults(winners, values, carryovers) => |winners| == Holes && |values| == Holes && |carryovers| == Holes
    case WolfResults(points) => |points| == Holes && forall h :: 0 <= h < Holes ==> |points[h]| == 4
    case BingoResults(pointsPerHole) => |pointsPerHole| == Holes && forall h :: 0 <= h < Holes ==> |pointsPerHole[h]| == 4
    case BloodsomeResults(holeResults, matchStatus) => |holeResults| == Holes && |matchStatus| == Holes
    case StablefordResults(rows) => |rows| == 4 && forall p :: 0 <= p < 4 ==> |rows[p]| == Holes
    case VegasResults(t1Num, t2Num, diff) => |t1Num| == Holes && |t2Num| == Holes && |diff| == Holes
    case _ => true
  }

  /** The results a fresh round starts with: per-hole lists of zeros (or nulls
      for the Skins winners and the Vegas team numbers). */
  function DefaultResults(g: GameType): (r: RoundResults)
    ensures ResultsFull(r)
    ensures g.Nassau? <==> r.NassauLists?
    ensures g.Banker? <==> r.EmptyResults?
    ensures g.Unknown? <==> r.NoResults?
    ensures r.SkinsResults? ==> g.Skins? && forall h :: 0 <= h < Holes ==>
      r.winners[h] == None && r.values[h] == 0.0 && r.carryovers[h] == 0.0
    ensures r.WolfResults? ==> g.Wolf? && forall h :: 0 <= h < Holes ==> r.points[h] == [0.0, 0.0, 0.0, 0.0]
    ensures r.BingoResults? ==> g.Bingo? && forall h :: 0 <= h < Holes ==> r.pointsPerHole[h] == [0, 0, 0, 0]
    ensures r.BloodsomeResults? ==> g.Bloodsome? && forall h :: 0 <= h < Holes ==>
      r.holeResults[h] == 0 && r.matchStatus[h] == 0
    ensures r.StablefordResults? ==> g.Stableford? && forall p, h :: 0 <= p < 4 && 0 <= h < Holes ==>
      r.playerPoints[p][h] == 0
    ensures r.VegasResults? ==> g.Vegas? && forall h :: 0 <= h < Holes ==>
      r.t1Num[h] == None && r.t2Num[h] == None && r.diff[h] == 0
  {
    match g
    case Nassau => NassauLists
    case Skins => SkinsResults(seq(Holes, _ => None), seq(Holes, _ => 0.0), seq(Holes, _ => 0.0))
    case Wolf => WolfResults(seq(Holes, _ => [0.0, 0.0, 0.0, 0.0]))
    case Bingo => BingoResults(seq(Holes, _ => [0, 0, 0, 0]))
    case Bloodsome => BloodsomeResults(seq(Holes, _ => 0), seq(Holes, _ => 0))
    case Stableford => StablefordResults(seq(4, _ => seq(Holes, _ => 0)))
    case Banker => EmptyResults
    case Vegas => VegasResults(seq(Holes, _ => None), seq(Holes, _ => None), seq(Holes, _ => 0))
    case Unknown => NoResults
  }

  /** The `settlement` object of a round: Nassau's is `{}`, a game without a
      case has none, and the other games keep per-player totals and a text. */
  datatype RoundSettlement =
    | NoSettlement
    | EmptySettlement
    | SkinsSettlement(skinsWon: seq<int>, winnings: seq<real>, totalPot: real, summaryText: string)
    | PointsSettlement(totalPoints: seq<real>, winnings: seq<real>, summaryText: string)
    | BloodsomeSettlement(finalStatusText: string, summaryText: string)
    | BankerSettlement(totalPoints: seq<real>, vsQuota: seq<real>, winnings: seq<real>, summaryText: string)
    | VegasSettlement(totalDiff: int, summaryText: string)

  /** Nobody has won or owes anything yet: every count, total and amount is
      zero, and no summary has been written. */
  predicate NothingSettled(s: RoundSettlement)
  {
    match s
    case SkinsSettlement(skinsWon, winnings, totalPot, text) =>
      skinsWon == [0, 0, 0, 0] && winnings == [0.0, 0.0, 0.0, 0.0] && totalPot == 0.0 && text == ""
    case PointsSettlement(totalPoints, winnings, text) =>
      totalPoints == [0.0, 0.0, 0.0, 0.0] && winnings == [0.0, 0.0, 0.0, 0.0] && text == ""
    case BloodsomeSettlement(_, text) => text == ""
    case BankerSettlement(totalPoints, vsQuota, winnings, text) =>
      totalPoints == [0.0, 0.0, 0.0, 0.0] && vsQuota == [0.0, 0.0, 0.0, 0.0] && winnings == [0.0, 0.0, 0.0, 0.0] && text == ""
    case VegasSettlement(totalDiff, text) => totalDiff == 0 && text == ""
    case _ => true
  }

  /** The settlement a fresh round starts with. Wolf, Bingo and Stableford share
      one shape; Bloodsome's final status reads "--". */
  function DefaultSettlement(g: GameType): (s: RoundSettlement)
    ensures NothingSettled(s)
    ensures g.Nassau? <==> s.EmptySettlement?
    ensures g.Unknown? <==> s.NoSettlement?
    ensures g.Skins? <==> s.SkinsSettlement?
    ensures g.Wolf? || g.Bingo? || g.Stableford? <==> s.PointsSettlement?
    ensures g.Bloodsome? <==> s.BloodsomeSettlement?
    ensures g.Banker? <==> s.BankerSettlement?
    ensures g.Vegas? <==> s.VegasSettlement?
    ensures s.BloodsomeSettlement? ==> s.finalStatusText == "--"
  {
    var zeros := [0.0, 0.0, 0.0, 0.0];
    match g
    case Nassau => EmptySettlement
    case Skins => SkinsSettlement([0, 0, 0, 0], zeros, 0.0, "")
    case Wolf => PointsSettlement(zeros, zeros, "")
    case Bingo => PointsSettlement(zeros, zeros, "")
    case Bloodsome => BloodsomeSettlement("--", "")
    case Stableford => PointsSettlement(zeros, zeros, "")
    case Banker => BankerSettlement(zeros, zeros, zeros, "")
    case Vegas => VegasSettlement(0, "")
    case Unknown => NoSettlement
  }

  /** Each per-hole array is absent or has one entry per hole; the results
      object's per-hole lists too. */
  predicate PerHoleFull(par: seq<Option<int>>, scores: seq<seq<Option<int>>>, selections: seq<Selection>,
                        marks: seq<seq<HoleMarks>>, drives: seq<seq<Driver>>,
                        points: seq<seq<Option<int>>>, results: RoundResults)
  {
    (par == [] || |par| == Holes) &&
    (forall p :: 0 <= p < |scores| ==> |scores[p]| == Holes) &&
    (selections == [] || |selections| == Holes) &&
    (forall p :: 0 <= p < |marks| ==> |marks[p]| == Holes) &&
    (forall t :: 0 <= t < |drives| ==> |drives[t]| == Holes) &&
    (forall p :: 0 <= p < |points| ==> |points[p]| == Holes) &&
    ResultsFull(results)
  }

  /** The defaults of every game fill each per-hole array they hold. */
  lemma DefaultsFull(g: GameType)
    ensures PerHoleFull(DefaultPar(g), DefaultScores(g), DefaultSelections(g), DefaultMarks(g), DefaultDrives(g),
                        DefaultBankerPoints(g), DefaultResults(g))
  {
  }

  /** The active round: the fields initializeDefaultState assigns. Team games keep
      their four names pA..pD in `teams`. */
  class RoundState {
    var gameType: GameType
    var players: seq<string>
    var teams: seq<string>
    var wager: real
    var pointValue: real
    var loneMultiplier: real
    var pressRule: PressRule
    var pointSystem: string
    var validation: bool
    var carryover: bool
    var quotas: seq<int>
    var par: seq<Option<int>>
    var scores: seq<seq<Option<int>>>
    var selections: seq<Selection>
    var marks: seq<seq<HoleMarks>>
    var drives: seq<seq<Driver>>
    var presses: seq<Press>
    /** Banker's per-hole points rows (a state field of their own, not part of `results`). */
    var points: seq<seq<Option<int>>>
    var results: RoundResults
    var settlement: RoundSettlement

    /** Every per-hole array the state holds has one entry per hole. */
    ghost predicate PerHoleArraysFull()
      reads this
    {
      PerHoleFull(par, scores, selections, marks, drives, points, results)
    }

    constructor ()
      ensures gameType == Unknown && players == [] && scores == [] && presses == []
      ensures results == NoResults && settlement == NoSettlement
      ensures PerHoleArraysFull()
    {
      gameType := Unknown;
      players, teams := [], [];
      wager, pointValue, loneMultiplier := 0.0, 0.0, 0.0;
      pressRule := Manual;
      pointSystem := "";
      validation, carryover := false, false;
      quotas := [];
      par, scores, selections, marks, drives, presses := [], [], [], [], [], [];
      points, results, settlement := [], NoResults, NoSettlement;
    }

    /** initializeDefaultState: replace the state by the defaults of game `g`. */
    method InitializeDefaultState(g: GameType)
      modifies this
      ensures gameType == g && PerHoleArraysFull()
      ensures par == DefaultPar(g) && scores == DefaultScores(g)
      ensures selections == DefaultSelections(g) && marks == DefaultMarks(g) && drives == DefaultDrives(g)
      ensures presses == [] && points == DefaultBankerPoints(g) && results == DefaultResults(g)
      ensures settlement == DefaultSettlement(g)
      ensures g == Nassau ==> players == ["", ""] && wager == 5.0 && pressRule == Manual
      ensures HasFourPlayers(g) ==> players == ["", "", "", ""]
      ensures g.Bloodsome? || g.Vegas? ==> teams == ["", "", "", ""] && players == []
      ensures g == Skins ==> wager == 1.0 && !validation && carryover
      ensures g == Wolf ==> pointValue == 1.0 && loneMultiplier == 3.0
      ensures g == Bingo ==> pointValue == 0.5
      ensures g == Bloodsome ==> wager == 10.0
      ensures g == Stableford ==> pointSystem == "standard" && pointValue == 1.0
      ensures g == Banker ==> quotas == [36, 36, 36, 36] && pointValue == 1.0 && pointSystem == "stableford-standard"
      ensures g == Vegas ==> pointValue == 1.0
    {
      SetPerHoleArrays(g);
      SetGameOptions(g);
    }

    /** The array part of initializeDefaultState: the `Array(18).fill(...)` rows
        of the games that keep them, and the empty press list. */
    method SetPerHoleArrays(g: GameType)
      modifies this`par, this`scores, this`selections, this`marks, this`drives, this`presses
      modifies this`points, this`results
      ensures PerHoleArraysFull()
      ensures par == DefaultPar(g) && scores == DefaultScores(g)
      ensures selections == DefaultSelections(g) && marks == DefaultMarks(g) && drives == DefaultDrives(g)
      ensures presses == [] && points == DefaultBankerPoints(g) && results == DefaultResults(g)
    {
      par, scores := DefaultPar(g), DefaultScores(g);
      selections, marks, drives := DefaultSelections(g), DefaultMarks(g), DefaultDrives(g);
      presses := [];
      points, results := DefaultBankerPoints(g), DefaultResults(g);
      DefaultsFull(g);
    }

    /** The non-array part of initializeDefaultState: the base state holds only
        the game type, and each game's case adds its names, options and
        settlement. */
    method SetGameOptions(g: GameType)
      modifies this`gameType, this`players, this`teams, this`wager, this`pointValue, this`loneMultiplier
      modifies this`pressRule, this`pointSystem, this`validation, this`carryover, this`quotas, this`settlement
      ensures gameType == g && settlement == DefaultSettlement(g)
      ensures g == Nassau ==> players == ["", ""] && wager == 5.0 && pressRule == Manual
      ensures HasFourPlayers(g) ==> players == ["", "", "", ""]
      ensures g.Bloodsome? || g.Vegas? ==> teams == ["", "", "", ""] && players == []
      ensures g == Skins ==> wager == 1.0 && !validation && carryover
      ensures g == Wolf ==> pointValue == 1.0 && loneMultiplier == 3.0
      ensures g == Bingo ==> pointValue == 0.5
      ensures g == Bloodsome ==> wager == 10.0
      ensures g == Stableford ==> pointSystem == "standard" && pointValue == 1.0
      ensures g == Banker ==> quotas == [36, 36, 36, 36] && pointValue == 1.0 && pointSystem == "stableford-standard"
      ensures g == Vegas ==> pointValue == 1.0
    {
      gameType := g;
      players, teams := [], [];
      wager, pointValue, loneMultiplier := 0.0, 0.0, 0.0;
      pressRule := Manual;
      pointSystem := "";
      validation, carryover := false, false;
      quotas := [];
      settlement := DefaultSettlement(g);
      match g {
        case Nassau =>
          players := ["", ""];
          wager := 5.0;
          pressRule := Manual;
        case Skins =>
          players := ["", "", "", ""];
          wager := 1.0;
          validation := false;
          carryover := true;
        case Wolf =>
          players := ["", "", "", ""];
          pointValue := 1.0;
          loneMultiplier := 3.0;
        case Bingo =>
          players := ["", "", "", ""];
          pointValue := 0.5;
        case Bloodsome =>
          teams := ["", "", "", ""];
          wager := 10.0;
        case Stableford =>
          players := ["", "", "", ""];
          pointSystem := "standard";
          pointValue := 1.0;
        case Banker =>
          players := ["", "", "", ""];
          quotas := [36, 36, 36, 36];
          pointValue := 1.0;
          pointSystem := "stableford-standard";
        case Vegas =>
          teams := ["", "", "", ""];
          pointValue := 1.0;
        case Unknown =>
      }
    }
  }
}
