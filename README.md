# Mathematics Premier League: a Dafny model of the quiz-cricket screens

The repository is a React single-page app for a quiz game played as cricket. Two
teams of eleven enter their players and toss a coin. The winner chooses to bat or
bowl first. On the match screen the batting side picks one of fifteen numbered
"balls", each carrying a multiple-choice question, and answers it.

The model covers the logic the components hold:

- **`Common`** (common.dfy): optional values, the two sides `A | B`, and the two
  JavaScript string operations the components rely on: the decimal rendering of a
  number in a template string, and `String.prototype.trim` with the ECMAScript
  whitespace set.
- **`Questions`** (questions.dfy): the `Question` record and the 30-entry
  `QUESTIONS` bank of src/data/questions.ts, as a constant sequence. Lemmas state
  its well-formedness: count, ids, choice bounds, run values, delivery type and
  toughness. Lemmas also check every answer key against the arithmetic of its
  prompt; see Findings.
- **`GameZone`** (game_zone.dfy): the ball grid and question panel. It has the
  15-slot availability grid, `find` of the ball behind a slot, and the
  "Worth N run(s)" caption. The class `Zone` holds the `selectedBall` cell and the
  two click handlers, which report to the parent.
- **`GameScreen`** (game_screen.dfy): the `GameState` record and its initial value.
  It includes the two `setGameState` updaters as pure step functions, the
  batting/bowling roster choice, the mock balls, and the filter that offers the
  unused balls. The class `Game` holds the `gameState` cell and its `Zone` child,
  and wires a slot click or option click through both.
- **`SetupScreen`** (setup_screen.dfy): the roster form. It has two 11-slot name
  lists edited one slot at a time (copy, overwrite, store), the `isValid` flag,
  and `handleSubmit`'s filter-and-gate.
- **`TossScreen`** (toss_screen.dfy): the `choose → flipping → result` toss
  machine, the winner rule, and the guard on the bat/bowl decision.
- **`IndexPage`** (index_page.dfy): the page's screen machine
  `setup → toss → game → setup`, the state it carries between screens, and the
  rule that turns the toss winner and its choice into the side batting first.

The model follows what the code does. The code implements no scoring:
`handleAnswer` counts a ball whatever the answer was, and never touches runs,
wickets, the batter, the bowler or the innings. The model proves exactly that
(`GameScreen.AnswerIgnoresCorrectness`, `GameScreen.ReplayFromStart`). The code
marks both handlers as placeholders (src/components/GameScreen.tsx:52, :60). The
fields nothing updates (`innings`, `runs`, `wickets`, `extras`, `teamAScore`, and a
question's `type`) are left as the code leaves them.

Randomness and timers are inputs:

- The coin result is the argument of `TossScreen.Toss.FlipComplete`.
- The 2000 ms `setTimeout` is that separate step. It completes the oldest flip
  still pending, with the call that was captured when the flip was scheduled.
- The factors and run pick of each mock ball are a `GameScreen.MockDraw` given
  to the `Game` constructor.

## Model

| member | source | states |
|---|---|---|
| Common.Team.Other | src/pages/Index.tsx:30 | The other side differs from the given one (`winner === "A" ? "B" : "A"`). |
| Common.DigitsRoundTrip | src/components/GameZone.tsx:79 | The digits of a natural number `n` are a non-empty string of decimal digits. They read back as `n`, begin with `0` only when `n` is zero, and are a single digit exactly when `n < 10`. |
| Common.DecimalRoundTrip | src/components/GameZone.tsx:79 | An integer rendered in a template string reads back as itself. It starts with `-` exactly when the integer is negative and ends in a digit. |
| Common.DecimalInjective | src/components/GameZone.tsx:79 | Two integers that render the same are equal. |
| Common.TrimStartShape | src/components/SetupScreen.tsx:18-19 | `trimStart` removes a prefix made only of whitespace. What it leaves is a suffix of the input that is empty or does not start with whitespace. |
| Common.TrimEndEmpty | src/components/SetupScreen.tsx:18-19 | `trimEnd` leaves the empty string exactly when every character is whitespace. |
| Common.TrimEmptyIffAllWhitespace | src/components/SetupScreen.tsx:18-26 | `p.trim() === ""` exactly when every character of `p` is ECMAScript whitespace. |
| Common.BlankIffNoVisible | src/components/SetupScreen.tsx:18-26 | For every string, `trim` leaves nothing exactly when no character survives it. |
| Questions.BankSize | src/data/questions.ts:11-44 | The bank has exactly 30 entries. |
| Questions.BankIds | src/data/questions.ts:12-43 | Entry `i` has id `i + 1`, so the ids are 1..30 in order. |
| Questions.BankIdsDistinct | src/data/questions.ts:12-43 | The ids are pairwise distinct. |
| Questions.BankChoices | src/data/questions.ts:12-43 | Every entry has four choices, and its `correctIndex` indexes one of them. |
| Questions.BankRuns | src/data/questions.ts:12-43 | Every `runs` value is one of 0, 1, 2, 4, 6. |
| Questions.BankKinds | src/data/questions.ts:12-43 | No entry sets `type`, so every question is a normal delivery, neither a wide nor a no-ball. |
| Questions.BankToughness | src/data/questions.ts:12-43 | Every `toughness` is 1 or 2. |
| Questions.AnswerKeysAsWritten | src/data/questions.ts:12-43 | As written, an entry's key points at a choice other than its prompt's answer exactly for ids 4, 6, 17, 26 and 27. |
| Questions.KeysOf1To5 | src/data/questions.ts:12-16 | Ids 1-5: keyed wrongly exactly when the id is mis-keyed; keyed correctly once re-keyed. |
| Questions.KeysOf6To10 | src/data/questions.ts:17-21 | The same for ids 6-10. |
| Questions.KeysOf11To15 | src/data/questions.ts:23-27 | The same for ids 11-15. |
| Questions.KeysOf16To20 | src/data/questions.ts:28-32 | The same for ids 16-20. |
| Questions.KeysOf21To25 | src/data/questions.ts:34-38 | The same for ids 21-25. |
| Questions.KeysOf26To30 | src/data/questions.ts:39-43 | The same for ids 26-30. |
| Questions.CorrectedAnswerKeys | src/data/questions.ts:12-43 | In the corrected bank, every key points at the answer its prompt asks for. |
| Questions.CorrectionChangesOnlyKeys | src/data/questions.ts:12-43 | The correction changes only `correctIndex`, and changes an entry exactly when its id is one of the five mis-keyed ids. |
| Questions.CorrectedBankWellFormed | src/data/questions.ts:1-44 | The corrected bank keeps every invariant of the bank as written: 30 entries, ids 1..30, four choices with an in-range key, run values, normal delivery, toughness 1 or 2. |
| Questions.IntendedAnswersOf1To6 | src/data/questions.ts:12-17 | The intended answers of ids 1-6 are the decimal values of their prompts' arithmetic. |
| Questions.IntendedAnswersOf7To12 | src/data/questions.ts:18-24 | The same for ids 7-12. |
| Questions.IntendedAnswersOf13To17 | src/data/questions.ts:25-29 | The same for ids 13-17: 9 for the square root of 81, and so on. |
| Questions.IntendedAnswersOf19To24 | src/data/questions.ts:31-37 | The same for ids 19-24, with the rupee sign for id 19. |
| Questions.IntendedAnswersOf25To30 | src/data/questions.ts:38-43 | The same for ids 25-30. |
| GameZone.FindBall | src/components/GameZone.tsx:48-49 | `find(b => b.id === k)` returns a ball exactly when some available ball has id `k`, and then it returns the first such ball. |
| GameZone.Grid | src/components/GameZone.tsx:42-51 | The grid has exactly 15 slots. Slot `i + 1` is enabled exactly when clicking it finds a ball. |
| GameZone.RunsCaption | src/components/GameZone.tsx:79 | The caption is `Worth <runs> run` followed by one `s` exactly when `runs != 1`, and by nothing when `runs` is 1. |
| GameZone.Zone.constructor | src/components/GameZone.tsx:21 | No ball is selected at first. |
| GameZone.Zone.HandleBallClick | src/components/GameZone.tsx:23-26 | Selects the ball and reports its id. |
| GameZone.Zone.ClickSlot | src/components/GameZone.tsx:47-50 | With a ball of id `k` available, the first such ball is selected and `k` is reported. Otherwise nothing changes and nothing is reported. |
| GameZone.Zone.HandleAnswerClick | src/components/GameZone.tsx:28-34 | With a ball selected, reports `optionIndex == correct` and clears the selection. With none, does nothing and reports nothing. |
| GameScreen.InitialState | src/components/GameScreen.tsx:38-49 | First innings, `battingTeam == battingFirst`, runs, wickets, overs, balls and extras 0, both player indices 0, no used balls, no first-innings score. |
| GameScreen.SelectBall | src/components/GameScreen.tsx:53-56 | `usedBalls` gains `n` at the end, and every other field is unchanged. |
| GameScreen.Answer | src/components/GameScreen.tsx:59-72 | `balls` goes up by one and `overs == balls / 6`, so `6*overs <= balls < 6*overs + 6`. Every other field is unchanged. |
| GameScreen.AnswerIgnoresCorrectness | src/components/GameScreen.tsx:59-72 | The step is the same whether the answer was right or wrong. |
| GameScreen.BattingPlayers | src/components/GameScreen.tsx:74 | Batting A gives team A's roster; batting B gives team B's. |
| GameScreen.BowlingPlayers | src/components/GameScreen.tsx:75 | Batting A gives team B's roster for the bowlers; batting B gives team A's. |
| GameScreen.BowlersAreTheOtherSide | src/components/GameScreen.tsx:74-75 | The bowling roster is the batting roster of the other side, and the reverse. |
| GameScreen.MockBall | src/components/GameScreen.tsx:30-34 | Ball `i + 1` asks "What is x × y?" for its two drawn factors. It has the options `12, 15, 18, 21`, its key is the first ("12"), and it is worth the drawn entry of the run table. |
| GameScreen.MockQuestions | src/components/GameScreen.tsx:29-35 | Fifteen balls with ids 1..15 in order. Each asks for the product of its own two factors, has the four options `12, 15, 18, 21` keyed to the first, and is worth one of the run-table values. |
| GameScreen.MockOfferKeepsOrder | src/components/GameScreen.tsx:97 | The balls the screen offers come in increasing id order, each with an id from 1 to 15 that has not been used. |
| GameScreen.AvailableBalls | src/components/GameScreen.tsx:97 | The filter never yields more balls than it is given. |
| GameScreen.AvailableBallsMembers | src/components/GameScreen.tsx:97 | A ball is offered exactly when it is one of the mock balls and its id is not in `usedBalls`. |
| GameScreen.AvailableBallsAppend | src/components/GameScreen.tsx:97 | Filtering a concatenation is concatenating the filtered parts, so the filter keeps order. |
| GameScreen.AvailableBallsKeepOrder | src/components/GameScreen.tsx:97 | Balls listed by increasing id are offered by increasing id. |
| GameScreen.SelectWithdrawsBall | src/components/GameScreen.tsx:97 | Adding `n` to the used balls removes exactly the balls with id `n` from the offer, and `n` is no longer offered. |
| GameScreen.ReplayFromStart | src/components/GameScreen.tsx:38-72 | After any run of selections and answers, the state is still the first innings with the same batting side, and runs, wickets, extras, batter and bowler are zero. `balls` counts the answers, `overs` follows it, and `usedBalls` lists the selections in order. |
| GameScreen.Game.constructor | src/components/GameScreen.tsx:29-49 | The screen starts from the initial state with the given teams and the mock balls of its draws, beside a fresh zone with nothing selected. |
| GameScreen.Game.HandleBallSelect | src/components/GameScreen.tsx:51-57 | The state becomes `SelectBall` of the old state. |
| GameScreen.Game.HandleAnswer | src/components/GameScreen.tsx:59-72 | The state becomes `Answer` of the old state. |
| GameScreen.Game.OfferedBalls | src/components/GameScreen.tsx:97 | The `availableBalls` prop: exactly the mock balls whose ids are not in `usedBalls`. |
| GameScreen.Game.BattingTeamPlayers | src/components/GameScreen.tsx:74 | Team A's roster when A bats, team B's when B does. |
| GameScreen.Game.BowlingTeamPlayers | src/components/GameScreen.tsx:75 | Team B's roster when A bats, team A's when B does, which is the other side's batting roster. |
| GameScreen.Game.ClickSlot | src/components/GameScreen.tsx:96-98 | A click on slot `k` with an offered ball selects in the zone the first offered ball with id `k`, records `k` as used, and stops offering it. A click on a slot without an offered ball changes nothing. |
| GameScreen.Game.ClickOption | src/components/GameScreen.tsx:96-99 | With a ball selected, one ball is bowled and the selection is cleared. With none, nothing changes. |
| SetupScreen.NonBlank | src/components/SetupScreen.tsx:18-19 | The blank filter never yields more entries than it is given. |
| SetupScreen.NonBlankMembers | src/components/SetupScreen.tsx:18-19 | The filtered roster holds exactly the non-blank entries, untrimmed, and all of them are named. |
| SetupScreen.NonBlankAppend | src/components/SetupScreen.tsx:18-19 | Filtering a concatenation is concatenating the filtered parts, so entries keep their order. |
| SetupScreen.NonBlankKeepsAll | src/components/SetupScreen.tsx:18-26 | The filter drops nothing exactly when every entry is named, and then returns the roster unchanged. |
| SetupScreen.Submit | src/components/SetupScreen.tsx:17-24 | Submits exactly when both filtered rosters have 11 entries. The submission holds the team names as typed and the filtered rosters. |
| SetupScreen.SubmittedRosters | src/components/SetupScreen.tsx:18-22 | A submission holds two rosters of 11 named players, each taken from its form. |
| SetupScreen.ValidIffSubmits | src/components/SetupScreen.tsx:14-26 | With 11 slots per team, `isValid` holds exactly when submission goes through, and then the rosters pass unchanged. |
| SetupScreen.Setup.constructor | src/components/SetupScreen.tsx:12-15 | The names start as "Team A" and "Team B", and each roster is 11 empty strings. |
| SetupScreen.Setup.SetTeamAName | src/components/SetupScreen.tsx:45 | Replaces team A's name, and nothing else changes. |
| SetupScreen.Setup.SetTeamBName | src/components/SetupScreen.tsx:72 | Replaces team B's name, and nothing else changes. |
| SetupScreen.Setup.EditTeamAPlayer | src/components/SetupScreen.tsx:55-59 | Slot `idx` of team A takes the new value. The length and every other slot are kept, and the other cells are unchanged. |
| SetupScreen.Setup.EditTeamBPlayer | src/components/SetupScreen.tsx:82-86 | The same for team B. |
| SetupScreen.Setup.IsValid | src/components/SetupScreen.tsx:26 | `isValid` holds exactly when every slot of both rosters has a character that is not whitespace. |
| SetupScreen.Setup.HandleSubmit | src/components/SetupScreen.tsx:17-26 | Yields what `Submit` yields on the form's cells. With 11 slots per team, it submits exactly when `isValid` holds. |
| TossScreen.TossWinner | src/components/TossScreen.tsx:23 | A wins the toss exactly when the coin lands as called; otherwise B does. |
| TossScreen.Toss.constructor | src/components/TossScreen.tsx:13-15 | The toss starts at "choose" with no call, no winner and no flip pending. |
| TossScreen.Toss.HandleToss | src/components/TossScreen.tsx:17-21 | Records the call, moves to "flipping" and schedules one flip with that call. From "choose", the cells stay consistent. |
| TossScreen.Toss.FlipComplete | src/components/TossScreen.tsx:21-26 | The oldest pending flip sets the winner from the coin and its own call, and moves to "result". From a consistent state, the winner follows the recorded call. |
| TossScreen.Toss.HandleBatBowl | src/components/TossScreen.tsx:29-33 | Forwards `(winner, decision)` exactly when a winner is set; otherwise does nothing. |
| TossScreen.TossThrough | src/components/TossScreen.tsx:17-33 | Call, flip, decide. A decision before the call or while the coin is in the air reaches nobody. The decision on the result reaches `onComplete` with the winner the call and the coin determine. |
| IndexPage.BattingFirst | src/pages/Index.tsx:30 | Choosing to bat puts the winner in first; choosing to bowl puts the other side in. |
| IndexPage.BattingFirstFromToss | src/pages/Index.tsx:30 | Team A bats first exactly when it won the call and chose to bat, or lost it and the winner chose to bowl. |
| IndexPage.Page.constructor | src/pages/Index.tsx:9-14 | The page starts on setup with empty names and rosters, and A batting first. |
| IndexPage.Page.HandleSetupComplete | src/pages/Index.tsx:16-27 | Stores the names and rosters as given and moves to the toss. `battingFirst` is kept. |
| IndexPage.Page.HandleTossComplete | src/pages/Index.tsx:29-32 | Sets `battingFirst` by the toss rule and moves to the game. The teams are kept. |
| IndexPage.Page.HandleNewGame | src/pages/Index.tsx:34-42 | Clears the names and rosters, resets `battingFirst` to A and returns to setup. |

## Left out

- Rendering: all JSX, CSS classes and animations; src/components/TeamPanel.tsx (a view that highlights the current player); and the `Scoreboard` and `@/components/ui/*` components. These are presentation only and TeamPanel.tsx is not part of this model.
- vite.config.ts is build tooling and is not part of this model.
- `Math.random()` for the coin and for the mock balls' factors and run pick is not modelled. The coin result is an argument of `TossScreen.Toss.FlipComplete`, and each mock ball's draw is a `GameScreen.MockDraw` argument to the `Game` constructor.
- The 2000 ms delay of `setTimeout` is not modelled. Only its effect is: a step that completes the oldest pending flip.
- The scoring rules are not modelled because the code does not implement them: runs, wickets, batter and bowler rotation, the innings switch, targets, extras, and drawing from the question bank.
- The `onNewGame` prop passed by the page is not declared by the game screen. This is a typing gap with no behaviour, so no button calls `IndexPage.Page.HandleNewGame` from the game screen in the code as written.
- The `ballsInOver` value computed by `handleAnswer` is never used and is not modelled.
- JavaScript numbers are modelled as unbounded integers. Every value involved is a small count, and `Math.floor(balls / 6)` on non-negative counts is Dafny's division.
- `innings: 1 | 2` is modelled as an `int`. The model proves it stays 1 and `teamAScore` stays absent, since nothing in the code changes them.
- The mock balls are demo data, as the code's own comment says. Their options and key do not depend on their factors, so a prompt's product is usually not among its options. The model states this data as it is and corrects nothing.
- Which screen is rendered, and which props reach it, is not modelled beyond the cells `IndexPage.Page` holds.

## Findings

| source | as written | input that shows it | evidently intended | confidence | as-written member | corrected member |
|---|---|---|---|---|---|---|
| src/data/questions.ts:15 | id 4, "What is 15 + 26?", is keyed to index 2, "40" | 15 + 26 = 41, which is choice 0 | `correctIndex: 0` | not executed | Questions.AnswerKeysAsWritten | Questions.CorrectedAnswerKeys |
| src/data/questions.ts:17 | id 6, "Simplify: 5² + 2³", is keyed to index 1, "31" | 25 + 8 = 33, which is choice 0 | `correctIndex: 0` | not executed | Questions.AnswerKeysAsWritten | Questions.CorrectedAnswerKeys |
| src/data/questions.ts:29 | id 17, "Simplify: 3(2 + 5)", is keyed to index 0, "15" | 3 × 7 = 21, which is choice 2 | `correctIndex: 2` | not executed | Questions.AnswerKeysAsWritten | Questions.CorrectedAnswerKeys |
| src/data/questions.ts:39 | id 26, "Simplify: (2³ × 3²)", is keyed to index 0, "36" | 8 × 9 = 72, which is choice 3 | `correctIndex: 3` | not executed | Questions.AnswerKeysAsWritten | Questions.CorrectedAnswerKeys |
| src/data/questions.ts:40 | id 27, "Find the mean of 3, 5, 7", is keyed to index 2, "6" | (3 + 5 + 7) / 3 = 5, which is choice 1 | `correctIndex: 1` | not executed | Questions.AnswerKeysAsWritten | Questions.CorrectedAnswerKeys |

The corrected bank is `Questions.CORRECTED_QUESTIONS`. `Questions.CorrectionChangesOnlyKeys` and `Questions.CorrectedBankWellFormed` prove it differs from the bank as written only in those five keys, and that it keeps the bank's invariants.
