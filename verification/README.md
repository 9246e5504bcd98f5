# Golf wagering scorekeeper: a Dafny model of the scoring core

This project models the scoring and settlement logic of a browser scorekeeper
for golf side games (eratner15/peel-eat-golf). Each game reads 18 holes of
nullable scores or check marks and computes per-hole outcomes, running totals
and a signed settlement. The model keeps that computation and drops the page
work around it.

- **Nassau** (`nassau.dfy`). Two players play match play. The running match
  status moves by one per hole won. Under the "auto 2-down" rule a press is
  appended when a side goes from one down to two down. A manual press is
  anchored at the last hole both players scored. Each press is resolved
  against the last scored hole at or after its start. The settlement sums
  signed wagers for the front nine, the back nine, the overall match and each
  press. The press list and stored results live in the class `NassauRound`.
  Its loops are methods proved against the specification functions
  `StatusAfter`, `PressesAfter` and `ResolvePresses`.
- **Helpers** (`utils.dfy`). This covers Stableford points in the standard and
  modified systems, the match-status text and CSS classes, and score
  validation. It also covers the default round state of every game type:
  `RoundState.InitializeDefaultState` gives every input array 18 entries, and
  sets each game's `results` and `settlement` objects (Nassau's result lists
  start empty).
- **Wolf** (`wolf.dfy`). The captain of hole `i` is player `i % 4`. The wolf
  plays alone or with a partner. Points per hole go into a matrix. The
  per-player out, in and total sums are kept. Winnings are points times the
  point value.
- **Bingo-Bango-Bongo** (`bingo.dfy`). A player's points on a hole are their
  marks. `EnforceExclusivity` clears the other players' checkboxes in place.
  Winnings are each player's points minus the average, times the point value.
- **Payout lines** (`payouts.dfy`). This is the "collects / pays / No points
  awarded yet" summary shared by Wolf and Bingo.
- **Vegas**, in two copies that differ. `vegas.dfy` follows `js/vegas.js`.
  `games_vegas.dfy` follows `js/games/vegas.js`, which stores 0 for an
  incomplete hole, sums in a single in-place loop, and settles in the opposite
  direction. Both copies share the team number `10 * min + max`.
- **Bloodsome drive defaults** (`bloodsome.dfy`). Each team has an 18-slot
  array of drive selections. Initialise, reset and populate fill these slots
  by hole parity.
- `golf.dfy` holds the shared entities (`Option`, `Side`, `Press`,
  `Selection`, `HoleMarks`, `Driver`, `GameType`). It also holds the range sums
  and the per-row nine/eighteen summary loop `RowSums`.

Conventions. Hole index 0 is hole 1. A missing score (`null`) is `None`.
Money (wager, point value, lone multiplier) is `real`. The source's `x || d`
fallback for a zero or unparsable number is modelled as
`if x == 0.0 then d else x`.

Behaviours of the code worth knowing:

- Wolf holes are not zero-sum. A partner hole adds up to +1 (won: +2, +1,
  -1, -1) or -1 (lost). A lone wolf's win adds up to the multiplier minus 3.
  Only skipped holes, lone losses and lone wins at the default multiplier 3
  add up to zero. `Wolf.HoleSum` states the exact sums, and
  `Wolf.PartnerWinExample` works the scores 4, 4, 6, 6 with player 2 as
  partner. `Wolf.LoneDefaultZeroSum` shows that the totals are zero-sum when
  there are no partner holes and the multiplier is 3.
- `formatMatchStatus(9, 0, true)`, a nine-hole sweep shown as final, renders
  "P1 9 & 1" (`Utils.FinalNineSweepText`).
- On the Nassau card, the back-nine status is measured from 0 when the front
  nine is incomplete (js/nassau.js:486). The settlement always measures it
  from the status after hole 9 (js/nassau.js:575). Both are modelled as
  written: `Nassau.SegmentStatuses` and `Nassau.ComputeSettlement`.

## Model

| member | source | states |
|---|---|---|
| Golf.OrDefault | js/nassau.js:569 | a zero entry falls back to the default (the wager to 5; elsewhere the lone multiplier to 3 and the point value to 1, or 0.5 in Bingo); any other entry is kept, and a non-zero default never yields zero |
| Golf.SumPresentSplit | js/nassau.js:446-456 | the sum of the present scores over a range is the front part's sum plus the back part's sum |
| Golf.SumRangeSplit | js/games/vegas.js:293-294 | a range sum splits at any midpoint (out + in = total) |
| Golf.SumRangeRealSplit | js/games/wolf.js:264-266 | the same split for real-valued point columns |
| Golf.RowSums | js/nassau.js:440-469 | the summary loop over one score row gives the front-nine and back-nine sums of the present scores, total = front + back, and each nine is complete exactly when every score in it is present |
| Golf.RowStep | js/nassau.js:452-459 | one hole of that loop keeps the running sums right: a recorded score adds to its nine (holes 1-9 out, 10-18 in) and to the total, and a missing one marks its nine incomplete |
| Utils.StandardPoints | js/utils.js:198-208 | standard Stableford points are never negative, and are 0 exactly for double bogey or worse |
| Utils.ModifiedPoints | js/utils.js:209-220 | modified points are never below -2, are -2 exactly for triple bogey or worse, and are negative exactly from double bogey on |
| Utils.StablefordPoints | js/utils.js:191-225 | null exactly when the score or par is missing or the system is unknown; otherwise the standard result is >= 0 and the modified result >= -2 |
| Utils.StablefordNonIncreasing | js/utils.js:198-220 | in both systems a worse score relative to par never earns more points |
| Utils.StablefordJumpPastAlbatross | js/utils.js:207 | as written, four under par earns 9 standard points where three under earns 5, breaking the one-point-per-stroke ladder (likewise 8 vs 4 modified) |
| Utils.StandardPointsCorrected | js/utils.js:207 | the ladder continued past albatross: never negative, and equal to the code's table from three under par upward |
| Utils.ModifiedPointsCorrected | js/utils.js:219 | the modified ladder continued past albatross: never below -2, and equal to the code's table from three under par upward |
| Utils.StablefordPointsCorrected | js/utils.js:191-225 | null in the same cases as the code; equal to the code's result whenever the score is at most three under par |
| Utils.StablefordCorrectedLadder | js/utils.js:198-220 | in the corrected tables each stroke saved is worth exactly one point down to the floor, however far under par |
| Utils.FormatMatchStatus | js/utils.js:120-134 | status 0 gives AS when holes remain and TIED otherwise; P1 leads exactly when the status is positive; the status closes out exactly when abs > holesRemaining, with margin abs - holesRemaining and the stated "& Y" part; otherwise the text is the lead, with UP exactly when not final |
| Utils.Render | js/utils.js:122-133 | AS and TIED render literally; the other texts start with the leader's name |
| Utils.FinalNineSweepText | js/utils.js:128-129 | nine up with no holes remaining, shown as final, renders "P1 9 & 1" |
| Utils.GetStatusClass | js/utils.js:95-99 | halve exactly for 0, win exactly for a positive status, loss exactly for a negative one |
| Utils.GetValueClass | js/utils.js:106-109 | no class exactly for 0, positive or negative by sign |
| Utils.ValidateScore | js/utils.js:157-182 | a blank score is valid with no message; invalid exactly when the entry does not parse or is below 1; a warning exactly when valid with a par and the score is more than par + 5, or less than par - 3 with par > 3, with the matching message |
| Utils.DefaultPar | js/utils.js:489-496 | the games that keep par get par 4 on all 18 holes; the other games get none |
| Utils.DefaultScores | js/utils.js:497-566 | each game's score rows (2 or 4) have 18 entries, all unrecorded |
| Utils.DefaultSelections | js/utils.js:517 | Wolf's 18 selections start empty |
| Utils.DefaultMarks | js/utils.js:524-529 | Bingo's four players have 18 holes of unticked marks |
| Utils.DefaultDrives | js/utils.js:536 | Bloodsome's two teams have 18 empty drive slots |
| Utils.DefaultBankerPoints | js/utils.js:557 | Banker's four points rows have 18 entries, all null |
| Utils.DefaultResults | js/utils.js:499-571 | each game's `results` object: Nassau's three empty lists, Banker's `{}`, none for an unknown game, and otherwise 18-entry lists of zeros (nulls for the Skins winners and the Vegas team numbers), with rows of four zeros for Wolf and Bingo |
| Utils.DefaultSettlement | js/utils.js:500-572 | each game's `settlement` object in its own shape, with every count, total and amount zero and no summary text; Bloodsome's final status reads "--" |
| Utils.DefaultsFull | js/utils.js:487-575 | for every game type, every input array the defaults hold, Banker's points rows and every per-hole list of the results have 18 entries |
| Utils.RoundState.InitializeDefaultState | js/utils.js:487-579 | the state becomes the defaults of the chosen game: per-hole arrays, Banker's points, results and settlement as above (every per-hole list with 18 entries, Nassau's result lists empty), no presses, and each game's names and options (Nassau wager 5 and manual presses, Wolf point value 1 and multiplier 3, Bingo 0.5, Bloodsome 10, ...) |
| Utils.RoundState.SetGameOptions | js/utils.js:488-574 | the non-array defaults of each game type's case, its settlement object included |
| Utils.RoundState.SetPerHoleArrays | js/utils.js:489-571 | the par, score, selection, mark, drive and Banker points rows and the results object of the game's case, and an empty press list |
| Nassau.HoleResult | js/nassau.js:311-313 | null exactly when either score is missing; otherwise negative exactly when P1 scored lower and positive exactly when P1 scored higher |
| Nassau.StatusStep | js/nassau.js:312-319 | one hole moves the status by -1, 0 or +1: +1 exactly when P1 scored lower, -1 exactly when P2 did |
| Nassau.HoleResults | js/nassau.js:307-321 | one result per hole, null exactly where the hole is not fully scored |
| Nassau.MatchStatus | js/nassau.js:305-322 | one running status per hole |
| Nassau.StatusBounded | js/nassau.js:307-322 | after n holes the status is at most n either way |
| Nassau.MatchStatusSteps | js/nassau.js:307-322 | abs(matchStatus[i]) <= i + 1; consecutive entries differ by at most one, and not at all on a hole that is not fully scored |
| Nassau.SweepStatus | js/nassau.js:316 | winning each of the first n holes makes P1 n up |
| Nassau.StatusSwap | js/nassau.js:316-317 | swapping the players negates the status after every hole |
| Nassau.Trailing | js/nassau.js:331 | the side pressing is P2 when the status is positive and P1 when it is negative |
| Nassau.TransitionScored | js/nassau.js:312-319 | a status change on a hole needs both scores on it |
| Nassau.PressesGrow | js/nassau.js:337-343 | the status loop only appends: earlier press lists are prefixes of later ones |
| Nassau.AddedPressesAreAuto | js/nassau.js:325-347 | every press the loop adds needs the auto-2down rule, is automatic, starts on a hole where a side went from exactly one down to exactly two down, is for the trailing side, carries the status there, and no earlier press starts on that hole |
| Nassau.NoPressWithoutTransition | js/nassau.js:329 | a hole without a one-down to two-down move (e.g. two down to three down) adds nothing |
| Nassau.TransitionsCovered | js/nassau.js:325-347 | under auto-2down every one-down to two-down hole ends up with a press |
| Nassau.CoveredPressesStable | js/nassau.js:334-336 | a press list that already covers every such hole is left unchanged |
| Nassau.AutoPressesIdempotent | js/nassau.js:334-336 | recomputing with unchanged scores adds no further presses |
| Nassau.LastScoredBelowSpec | js/nassau.js:366-372 | the last fully scored hole in a range, or none exactly when the range has none |
| Nassau.PressResolution | js/nassau.js:358-386 | a press resolves exactly when its hole is 1..18 and some hole from it on is fully scored; the end hole is the last such hole and the final status is matchStatus[end] minus the initial status |
| Nassau.ResolvePressesMembers | js/nassau.js:355-388 | the results are exactly the resolved presses: each comes from a press in the list that resolves to it, and each press that resolves is included |
| Nassau.ScanEndHole | js/nassau.js:366-372 | the decrementing scan stops at the last fully scored hole at or after the start, or at start - 1 when there is none |
| Nassau.ResolveOne | js/nassau.js:358-386 | one press of the resolution loop: the range check, the end-hole scan and the result it pushes are ResolvePress |
| Nassau.ResolveAll | js/nassau.js:355-390 | the press-resolution loop computes ResolvePresses |
| Nassau.FindCurrentHole | js/nassau.js:208-221 | null exactly when no hole is fully scored; otherwise the largest fully scored 1-based hole |
| Nassau.SignedWager | js/nassau.js:580-582 | each bet is worth 0, +wager or -wager, with the sign of the status when the wager is positive |
| Nassau.WagerCapIsProduct | js/nassau.js:580-590 | the cap of k bets of one wager, one wager's size per bet, is abs(wager) times k |
| Nassau.PressesValueBound | js/nassau.js:585-590 | the presses together are worth at most one wager each |
| Nassau.OutcomeOf | js/nassau.js:606-618 | tied exactly at 0; P2 owes P1 exactly when the total is positive; the amount is the absolute total |
| Nassau.SettlementBound | js/nassau.js:574-593 | abs(total) is at most one wager for each of the three bets and each press result, that is WagerCap(wager, 3 + number of press results) |
| Nassau.SettlementSwap | js/nassau.js:574-593 | swapping the players negates a press-free settlement |
| Nassau.ComputeSettlement | js/nassau.js:564-620 | front status matchStatus[8] (or 0), overall status matchStatus[17] (or 0), back = overall - front; each bet's signed wager; the press loop's total; the total is their sum; the outcome is by its sign |
| Nassau.SegmentTotals | js/nassau.js:435-469 | par and both players' sums per nine, total = front + back, and each nine is valid exactly when both players scored every hole of it |
| Nassau.SegmentStatuses | js/nassau.js:485-488 | the front status is shown exactly when the front is valid, the back exactly when the back is valid, the overall when either is; front + back = overall when both are valid, and back = overall when only the back is valid |
| Nassau.HoleStatusText | js/nassau.js:416-424 | a hole's status is shown exactly when both players scored it; 0 reads AS before the last hole and TIED on it; it closes out exactly when abs(status) exceeds the holes left |
| Nassau.PressEligibility | js/nassau.js:524-555 | at most one button is shown; P1's exactly under the manual rule once a hole has a result and P1 is down at the current hole; P2's likewise when P2 is down |
| Nassau.NassauRound.constructor | js/utils.js:492-500 | no scores, wager 5, manual presses, no presses and no results |
| Nassau.NassauRound.Update | js/nassau.js:261-390 | stores the inputs (wager with its fallback); the hole results and match status are HoleResults and MatchStatus; the press list is the old list after the auto-press pass; the press results are ResolvePresses of the new list |
| Nassau.HoleStep | js/nassau.js:311-319 | one hole of the status loop: the result is HoleResult and the status moves by StatusStep |
| Nassau.AutoPressStep | js/nassau.js:324-349 | one hole's auto-2down check appends AutoPress exactly when AutoPressDue holds, and otherwise leaves the list unchanged |
| Nassau.NassauRound.StatusLoop | js/nassau.js:300-352 | the status loop computes HoleResults and MatchStatus and appends exactly the presses of PressesAfter |
| Nassau.NassauRound.RequestPress | js/nassau.js:171-202 | refused, leaving the list unchanged, exactly when no hole is fully scored; otherwise appends one manual press for the player at the last fully scored hole, carrying the stored status there (or 0) |
| Payouts.LineFor | js/games/wolf.js:312-318 | no line exactly for zero winnings; otherwise one line for that player that collects a positive amount or pays the absolute value of a negative one |
| Payouts.PayLinesEmpty | js/games/wolf.js:310-320 | there are no lines exactly when all winnings are zero |
| Payouts.PayLinesMatch | js/games/wolf.js:312-318 | every line belongs to one of the listed players and agrees with their winnings: collects exactly a positive amount, pays the absolute value of a negative one |
| Payouts.PayLinesOrdered | js/games/wolf.js:311 | the lines are in strictly increasing player order, so no player appears twice |
| Payouts.PayLinesComplete | js/games/wolf.js:311-319 | every player with non-zero winnings has a line |
| Payouts.SummaryLines | js/games/bingo.js:468-484 | the summary loop gives "No points awarded yet" exactly when all winnings are zero, and otherwise the joined PayLines |
| Wolf.WolfRotation | js/games/wolf.js:129 | the wolf of hole i + 4 is the wolf of hole i, and four consecutive holes have four different wolves |
| Wolf.Lowest | js/games/wolf.js:146 | the lowest score is at most every score and is one of them |
| Wolf.SideWinsIffNoneLower | js/games/wolf.js:153 | the wolf's side wins exactly when no player scored strictly lower (a tie counts as a win) |
| Wolf.HolePoints | js/games/wolf.js:128-211 | four entries, all zero on a hole with no selection, a missing score, or a partner equal to the wolf |
| Wolf.HoleSum | js/games/wolf.js:149-209 | a hole's points add up to 0 when skipped or on a lone loss, to multiplier - 3 on a lone win, and to +1 or -1 on a partner hole won or lost |
| Wolf.PartnerWinExample | js/games/wolf.js:185-199 | scores 4, 4, 6, 6 with player 2 as partner give +2, +1, -1, -1 |
| Wolf.OpponentsShare | js/games/wolf.js:159-207 | on a counted hole every player outside the wolf's side gets -1 when the side wins and +1 when it loses |
| Wolf.FillOthers | js/games/wolf.js:159-175 | every entry except the kept ones is set to the given value |
| Wolf.HoleRow | js/games/wolf.js:129-210 | one iteration of the points loop computes HolePoints |
| Wolf.ComputePoints | js/games/wolf.js:126-211 | the points loop gives 18 rows, each the HolePoints of its hole with the effective multiplier |
| Wolf.ColumnSumSplit | js/games/wolf.js:264-266 | a player's points over a range split at any midpoint |
| Wolf.PointSums | js/games/wolf.js:263-266 | a player's out, in and total points are the column sums of each nine and of the round, and out + in = total |
| Wolf.Summarize | js/games/wolf.js:238-268 | for each of the four players, score sums and completeness per nine as RowSums, and points per nine as PointSums |
| Wolf.ScoreCells | js/games/wolf.js:272-274 | a nine's score is shown exactly when that nine is complete, the total when either is |
| Wolf.TotalsAddUp | js/games/wolf.js:263-266 | the four players' totals add up to the sum of the holes' row sums |
| Wolf.LoneHoleZero | js/games/wolf.js:149-176 | a hole without a partner at multiplier 3 adds up to zero |
| Wolf.ZeroHolesZeroTotal | js/games/wolf.js:263-266 | when every hole's row adds up to zero, so do the four players' totals |
| Wolf.FreshRoundPoints | js/games/wolf.js:126-133 | a fresh round's stored zero rows are what the points loop computes: with no selection, every hole's row is zero, whatever the scores |
| Wolf.LoneDefaultZeroSum | js/games/wolf.js:149-176 | with no partner holes and multiplier 3 the four totals add up to zero |
| Wolf.Winnings | js/games/wolf.js:300 | zero exactly for zero points; positive exactly when points and point value have the same sign |
| Wolf.WinningsZeroSum | js/games/wolf.js:300 | zero-sum totals give zero-sum winnings |
| Wolf.Settle | js/games/wolf.js:290-326 | keeps the totals, winnings are Winnings, and the summary is "No points awarded yet" exactly when every total is zero, and otherwise PayLines |
| Bingo.MarkCount | js/games/bingo.js:405-407 | 0..3 marks, 0 exactly when none is set and 3 exactly when all are |
| Bingo.HolePoints | js/games/bingo.js:365-367 | counting up from 0 per set flag gives MarkCount |
| Bingo.ComputePoints | js/games/bingo.js:357-369 | pointsPerHole[i][p] is player p's mark count on hole i, so it lies in 0..3 |
| Bingo.EnforceExclusivity | js/games/bingo.js:194-201 | every checkbox but the changed one is cleared, the changed one is unchanged, and at most one stays set |
| Bingo.FreshRoundPoints | js/games/bingo.js:357-372 | a fresh round's stored zero points are what the points loop computes from the unticked marks |
| Bingo.ExclusiveHoleAtMostThree | js/games/bingo.js:182-201 | with exclusivity in place the four players' points on a hole total at most 3 |
| Bingo.PointsEqualMarks | js/games/bingo.js:398-420 | over any range of holes a player's points equal their marks |
| Bingo.MarkSumSplit | js/games/bingo.js:409-417 | mark sums split at any midpoint |
| Bingo.PointSumSplit | js/games/bingo.js:409-418 | point sums split at any midpoint |
| Bingo.Summarize | js/games/bingo.js:398-420 | a player's marks and points per nine, and total = out + in for both |
| Bingo.SummaryStep | js/games/bingo.js:404-418 | one hole of that loop adds the player's marks and points to its nine (holes 1-9 out, 10-18 in) and to the totals, keeping the running sums right |
| Bingo.SummaryMarksArePoints | js/games/bingo.js:398-420 | for computed points, each nine's and the round's points equal the marks |
| Bingo.Winnings | js/games/bingo.js:455-458 | four entries, each the player's points minus the average, times the point value |
| Bingo.WinningsZeroSum | js/games/bingo.js:455-458 | the four winnings add up to zero |
| Bingo.WinningsSign | js/games/bingo.js:458 | with a positive point value a player collects exactly when above the average and pays exactly when below |
| Bingo.Settle | js/games/bingo.js:443-486 | keeps the points, winnings are Winnings, and the summary is "No points awarded yet" exactly when every winning is zero, and otherwise PayLines |
| Bingo.EqualPointsNoPayout | js/games/bingo.js:455-484 | equal points (e.g. no marks at all) pay nothing to anyone |
| Vegas.TeamNumber | js/vegas.js:221-227 | null exactly when either score is missing |
| Vegas.TeamNumberSymmetric | js/vegas.js:223-226 | the team number does not depend on the order of the two scores |
| Vegas.TeamNumberDigits | js/vegas.js:224-226 | for scores 1..9 the number is 11..99 with the lower score as tens digit and the higher as units digit |
| Vegas.TeamNumberExample | js/vegas.js:221-227 | (3, 7) and (7, 3) both give 37 |
| Vegas.HoleDiff | js/vegas.js:283-286 | null exactly when either team number is missing; positive exactly when team 1's number is lower |
| Vegas.ComputeDiffs | js/vegas.js:279-291 | the loop gives each hole's two team numbers and their difference |
| Vegas.SummarizeDiffs | js/vegas.js:340-354 | out, in and total are the sums of the present differences per nine and overall, out + in = total, and each nine is valid exactly when it has a difference |
| Vegas.TotalIsNumberGap | js/vegas.js:279-354 | the summed differences are team 2's numbers minus team 1's over the holes both teams completed |
| Vegas.PositiveCell | js/vegas.js:323-337 | a player's summary cell is shown exactly when the sum is positive |
| Vegas.Settlement | js/vegas.js:395-412 | tied exactly at 0; team 2 owes team 1 exactly when the total is positive; the amount is abs(total) times the point value |
| Vegas.LowerNumbersArePaid | js/vegas.js:395-412 | the team whose numbers were lower over the compared holes is paid |
| GamesVegas.StoredDiff | js/games/vegas.js:289-297 | an incomplete hole stores 0 |
| GamesVegas.UpdateDiffs | js/games/vegas.js:272-307 | the single loop stores each hole's team numbers and difference (0 when incomplete); out and in are the sums of holes 1-9 and 10-18, and total = out + in |
| GamesVegas.UpdateHole | js/games/vegas.js:278-297 | one hole of that loop writes its team numbers and stored difference into the rows and keeps the running sums right |
| GamesVegas.HoleNumbers | js/games/vegas.js:284-287 | the hole's two team numbers, whose difference (or 0) is what the hole stores |
| GamesVegas.AddDiff | js/games/vegas.js:290-294 | a complete hole's difference goes to the out nine on holes 1-9, the in nine on holes 10-18, and the total |
| GamesVegas.FreshRoundDiffs | js/games/vegas.js:278-297 | a fresh round's stored rows are what the update loop computes from empty scores: no team numbers and a stored 0 on every hole |
| GamesVegas.SameTotalAsVegas | js/games/vegas.js:289-297 | storing 0 for incomplete holes gives the same total as skipping them in js/vegas.js |
| GamesVegas.ScoreCell | js/games/vegas.js:313-324 | a player's segment cell is blank exactly when every score in it is missing, and otherwise shows the sum of the present ones |
| GamesVegas.SettlementAsWritten | js/games/vegas.js:342-361 | as written: tied exactly at 0; team 1 owes team 2 exactly when the total is positive |
| GamesVegas.WinnerPaysAsWritten | js/games/vegas.js:349-361 | 44 against 55 on hole 1 alone totals +11: as written team 1, the winner, pays 11; js/vegas.js has team 2 pay |
| GamesVegas.CorrectedPaysLowerNumbers | js/games/vegas.js:349-361 | settling this copy's total with the js/vegas.js rule pays the team with the lower numbers; the rule as written makes exactly that team pay |
| Bloodsome.HoleDefault | js/games/bloodsome.js:142-152 | the default driver is a member of the team, the first player exactly on odd holes |
| Bloodsome.DefaultsAlternate | js/games/bloodsome.js:142-152 | consecutive holes never suggest the same driver, and holes two apart always do |
| Bloodsome.DefaultsShared | js/games/bloodsome.js:142-152 | over 2n holes each teammate is suggested n times |
| Bloodsome.FillSlot | js/games/bloodsome.js:146-152 | an empty slot gets the parity default, a chosen driver stays, and the result is never empty |
| Bloodsome.Filled | js/games/bloodsome.js:142-157 | the initialised row applies FillSlot to every slot |
| Bloodsome.Defaults | js/games/bloodsome.js:207-211 | the reset row has the parity default on all 18 holes |
| Bloodsome.FilledIdempotent | js/games/bloodsome.js:142-157 | initialising twice equals initialising once, and leaves no slot empty |
| Bloodsome.FilledEmptyIsDefaults | js/games/bloodsome.js:142-157 | initialising an untouched form gives exactly the reset row |
| Bloodsome.StoredDrive | js/games/bloodsome.js:248 | a stored drive outside the stored row reads as empty |
| Bloodsome.PopulateIsFill | js/games/bloodsome.js:248-255 | populate's index-parity fallback equals initialisation's hole-parity rule for hole i + 1 |
| Bloodsome.Populated | js/games/bloodsome.js:240-260 | the populated row has 18 slots |
| Bloodsome.PopulateRoundTrip | js/games/bloodsome.js:240-260 | populating keeps every stored drive, populating again changes nothing, and an empty stored row populates to the reset row |
| Bloodsome.SelectableKept | js/games/bloodsome.js:26-38 | the reset row, initialisation of a selectable row and populating from a selectable stored row leave every slot empty or a player of the team, the options its select offers |
| Bloodsome.ReadDrive | js/games/bloodsome.js:307-308 | a missing select reads as empty |
| Bloodsome.DriveForm.constructor | js/games/bloodsome.js:21-36 | every select starts on its empty option |
| Bloodsome.DriveForm.InitializeDefaults | js/games/bloodsome.js:142-157 | both arrays become Filled of their old contents |
| Bloodsome.DriveForm.ResetDefaults | js/games/bloodsome.js:207-211 | both arrays become the parity defaults, whatever they held |
| Bloodsome.DriveForm.Populate | js/games/bloodsome.js:240-260 | both arrays become the Populated rows of the stored drives |
| Bloodsome.DriveForm.ReadDrives | js/games/bloodsome.js:305-309 | the rows read back are the arrays' contents |

## Left out

- Page work is not modelled. This covers building rows, wiring listeners, the
  reset and populate halves that only touch text, and the result cells,
  colours and headers. The results are modelled as data, and "who owes whom"
  is a datatype rather than a sentence.
- Storage, file import and export, alerts, timers and `debounce` are not
  modelled. They are I/O and scheduling.
- `formatCurrency` is not modelled. Amounts stay `real` and are never
  formatted as text.
- `parseFloat` and `parseInt` of form fields are not modelled. Scores arrive
  as `Option<int>` and money as `real`, and validation takes the parsed value.
- Floating point is not modelled. The source's JavaScript numbers are modelled
  as exact `int` and `real`, so rounding in `p * pointValue` or in
  `(p - avg) * pointValue` is not captured.
- The Bloodsome match computation is not modelled. js/games/bloodsome.js ends
  at line 311, partway through reading the inputs.
- The Skins, Stableford and Banker game modules are not part of this model.
  Only their default state and the Stableford lookup in js/utils.js are
  modelled.
- js/script.js (the app shell) is not part of this model.
- Wolf selections naming a player outside 1..4 are not modelled. A selection
  is `NoSelection`, `Alone` or `Partner(0..3)`.
- `getStatusClass` is modelled only for numeric statuses. Its string
  branches ('AS', 'UP') are left out.
- Nassau: the press-count cells per nine (js/nassau.js:515-517) and the
  hole-result text (js/nassau.js:404-412) are display only.
- The per-player score sums of both Vegas copies are not modelled as their own
  loops. They are the same range sums of present scores (`Golf.SumPresent`)
  that `Golf.RowSums` computes. Only their display rules are modelled:
  `Vegas.PositiveCell` and `GamesVegas.ScoreCell`.
- GamesVegas.UpdateDiffs: the difference cells that js/games/vegas.js shows
  only when non-zero (js/games/vegas.js:331-337) are not modelled.
- Wolf.Summarize and Bingo.Summarize: the source runs one loop over holes with
  an inner loop over players. The model runs the hole loop once per player.
  The sums are the same, but the interleaving of the updates is not kept.
- Utils.RoundState.InitializeDefaultState: the entries of the Nassau result
  lists and the Skins, Stableford and Banker results are not computed anywhere
  in this model (those games are not part of it). Only their default values
  are modelled.
- Bloodsome.DriveForm.Populate: a stored drive that names the other team's
  player is written into the slot as it is. A browser select that has no such
  option would show it empty. Rows the form itself stored never hold one
  (`Bloodsome.SelectableKept`).
- Nassau.NassauRound.RequestPress: the source recomputes (`updateNassau`)
  right after appending the press. The model leaves that to a following call
  of `Update`.

## Findings

| source | as written | input that shows it | evidently intended | confidence | as-written member | corrected member |
|---|---|---|---|---|---|---|
| js/games/vegas.js:356-360 | a positive total difference (team 1's numbers were lower, so team 1 won) makes team 1 pay team 2 | team 1 scores 4 and 4 on hole 1 (44), team 2 scores 5 and 5 (55), nothing else scored: total +11, and team 1 is told to pay 11 | the team with the lower numbers is paid, as in js/vegas.js:406-408 and the comment at js/games/vegas.js:291 | high, not executed | GamesVegas.WinnerPaysAsWritten | GamesVegas.CorrectedPaysLowerNumbers |
| js/utils.js:207 | beyond an albatross, standard points are `5 - diff` (modified: `4 - diff`) | a 1 on a par 5 (four under) earns 9 standard points, while a 2 on a par 5 (three under) earns 5; modified gives 8 against 4 | one more point per stroke saved: `2 - diff` standard, `1 - diff` modified (6 and 5 for four under) | medium, not executed | Utils.StablefordJumpPastAlbatross | Utils.StablefordCorrectedLadder |
