/** The match screen (src/components/GameScreen.tsx): the `GameState` record,
    the two updaters passed to `setGameState`, the choice of batting and
    bowling rosters, the mock balls and the filter that offers the unused ones
    to the GameZone child. */
module GameScreen {
  import opened Common
  import opened GameZone

  datatype Score = Score(runs: int, wickets: int, overs: int)

  datatype GameState = GameState(
    innings: int,
    battingTeam: Team,
    runs: int,
    wickets: int,
    overs: int,
    balls: int,
    extras: int,
    currentBatter: int,
    currentBowler: int,
    usedBalls: seq<int>,
    teamAScore: Option<Score>)

  /** `overs` is the number of whole overs of six balls in `balls`. */
  predicate OversMatchBalls(s: GameState) {
    s.overs == s.balls / 6
  }

  /** The state the screen starts from: first innings, `battingFirst` at the
      crease, every count zero and no ball used. */
  function InitialState(battingFirst: Team): (s: GameState)
    ensures s.innings == 1 && s.battingTeam == battingFirst && s.teamAScore == None
    ensures s.runs == 0 && s.wickets == 0 && s.extras == 0 && s.balls == 0 && OversMatchBalls(s)
    ensures s.currentBatter == 0 && s.currentBowler == 0 && s.usedBalls == []
  {
    GameState(1, battingFirst, 0, 0, 0, 0, 0, 0, 0, [], None)
  }

  /** The updater of `handleBallSelect`: `ballNumber` joins the used balls and
      nothing else changes. */
  function SelectBall(s: GameState, ballNumber: int): (r: GameState)
    ensures r.usedBalls == s.usedBalls + [ballNumber]
    ensures r.(usedBalls := s.usedBalls) == s
  {
    s.(usedBalls := s.usedBalls + [ballNumber])
  }

  /** The updater of `handleAnswer`: one more ball, overs recomputed as
      `Math.floor(balls / 6)`. Whether the answer was correct makes no
      difference, and nothing else changes. */
  function Answer(s: GameState, isCorrect: bool): (r: GameState)
    ensures r.balls == s.balls + 1
    ensures OversMatchBalls(r) && 6 * r.overs <= r.balls < 6 * r.overs + 6
    ensures r.(balls := s.balls, overs := s.overs) == s
  {
    var newBalls := s.balls + 1;
    var newOvers := newBalls / 6;
    s.(balls := newBalls, overs := newOvers)
  }

  /** `handleAnswer` ignores `isCorrect`. */
  lemma AnswerIgnoresCorrectness(s: GameState)
    ensures Answer(s, true) == Answer(s, false)
  {
  }

  /** `battingTeamPlayers` */
  function BattingPlayers(battingTeam: Team, teamAPlayers: seq<string>, teamBPlayers: seq<string>): (r: seq<string>)
    ensures battingTeam == A ==> r == teamAPlayers
    ensures battingTeam == B ==> r == teamBPlayers
  {
    if battingTeam == A then teamAPlayers else teamBPlayers
  }

  /** `bowlingTeamPlayers` */
  function BowlingPlayers(battingTeam: Team, teamAPlayers: seq<string>, teamBPlayers: seq<string>): (r: seq<string>)
    ensures battingTeam == A ==> r == teamBPlayers
    ensures battingTeam == B ==> r == teamAPlayers
  {
    if battingTeam == A then teamBPlayers else teamAPlayers
  }

  /** The bowling side is always the batting side's opponent. */
  lemma BowlersAreTheOtherSide(battingTeam: Team, teamAPlayers: seq<string>, teamBPlayers: seq<string>)
    ensures BowlingPlayers(battingTeam, teamAPlayers, teamBPlayers)
         == BattingPlayers(battingTeam.Other(), teamAPlayers, teamBPlayers)
    ensures BattingPlayers(battingTeam, teamAPlayers, teamBPlayers)
         == BowlingPlayers(battingTeam.Other(), teamAPlayers, teamBPlayers)
  {
  }

  /** The run values a mock ball draws from, one of eight at random. */
  const RUN_TABLE: seq<int> := [0, 1, 1, 2, 2, 4, 4, 6]

  /** The random numbers behind one mock ball: the two factors of its prompt
      and the position drawn in RUN_TABLE. */
  datatype MockDraw = MockDraw(x: int, y: int, runPick: int)

  predicate ValidDraw(d: MockDraw) {
    1 <= d.x <= 10 && 1 <= d.y <= 10 && 0 <= d.runPick < |RUN_TABLE|
  }

  predicate ValidDraws(draws: seq<MockDraw>) {
    |draws| == GRID_SIZE && forall i :: 0 <= i < |draws| ==> ValidDraw(draws[i])
  }

  /** Ball `i + 1` of `mockQuestions`, built from its draw: the prompt asks
      for the product of the two drawn factors, the options and key are fixed,
      and the ball is worth the drawn entry of RUN_TABLE. */
  function MockBall(i: int, d: MockDraw): (b: Ball)
    requires ValidDraw(d)
    ensures b.id == i + 1
    ensures b.question == "What is " + Decimal(d.x) + " × " + Decimal(d.y) + "?"
    ensures b.options == ["12", "15", "18", "21"] && b.correct == 0 && b.options[b.correct] == "12"
    ensures b.runs == RUN_TABLE[d.runPick] && b.runs in RUN_TABLE && 0 <= b.runs <= 6
  {
    Ball(i + 1, "What is " + Decimal(d.x) + " × " + Decimal(d.y) + "?", ["12", "15", "18", "21"], 0, RUN_TABLE[d.runPick])
  }

  /** `mockQuestions`: fifteen balls numbered 1 to 15 in order, each asking
      for the product of its own two factors, all with the same four options
      keyed to the first, each worth a value of RUN_TABLE. */
  function MockQuestions(draws: seq<MockDraw>): (balls: seq<Ball>)
    requires ValidDraws(draws)
    ensures |balls| == GRID_SIZE
    ensures forall i :: 0 <= i < |balls| ==> balls[i].id == i + 1
    ensures forall i :: 0 <= i < |balls| ==>
      balls[i].question == "What is " + Decimal(draws[i].x) + " × " + Decimal(draws[i].y) + "?"
    ensures forall i :: 0 <= i < |balls| ==>
      balls[i].options == ["12", "15", "18", "21"] && balls[i].correct == 0 && balls[i].runs in RUN_TABLE
  {
    seq(GRID_SIZE, i requires 0 <= i < GRID_SIZE => MockBall(i, draws[i]))
  }

  /** `mockQuestions.filter(q => !usedBalls.includes(q.id))` */
  function AvailableBalls(balls: seq<Ball>, usedBalls: seq<int>): (r: seq<Ball>)
    ensures |r| <= |balls|
  {
    if balls == [] then []
    else (if balls[0].id in usedBalls then [] else [balls[0]]) + AvailableBalls(balls[1..], usedBalls)
  }

  /** A ball is offered exactly when it is one of the balls and its id has not been used. */
  lemma {:induction false} AvailableBallsMembers(balls: seq<Ball>, usedBalls: seq<int>)
    ensures forall b :: b in AvailableBalls(balls, usedBalls) <==> b in balls && b.id !in usedBalls
  {
    if balls != [] {
      AvailableBallsMembers(balls[1..], usedBalls);
      assert balls == [balls[0]] + balls[1..];
    }
  }

  /** The filter keeps the order of the list it filters: filtering a
      concatenation is concatenating the filtered parts. */
  lemma {:induction false} AvailableBallsAppend(a: seq<Ball>, b: seq<Ball>, usedBalls: seq<int>)
    ensures AvailableBalls(a + b, usedBalls) == AvailableBalls(a, usedBalls) + AvailableBalls(b, usedBalls)
  {
    if a == [] {
      assert a + b == b;
    } else {
      assert (a + b)[0] == a[0];
      assert (a + b)[1..] == a[1..] + b;
      AvailableBallsAppend(a[1..], b, usedBalls);
    }
  }

  /** Balls listed in increasing id order are offered in increasing id order. */
  lemma {:induction false} AvailableBallsKeepOrder(balls: seq<Ball>, usedBalls: seq<int>)
    requires forall i, j :: 0 <= i < j < |balls| ==> balls[i].id < balls[j].id
    ensures forall i, j :: 0 <= i < j < |AvailableBalls(balls, usedBalls)| ==>
      AvailableBalls(balls, usedBalls)[i].id < AvailableBalls(balls, usedBalls)[j].id
  {
    if balls != [] {
      AvailableBallsKeepOrder(balls[1..], usedBalls);
      AvailableBallsMembers(balls[1..], usedBalls);
      var rest := AvailableBalls(balls[1..], usedBalls);
      forall b | b in rest ensures balls[0].id < b.id {
        var k :| 0 < k < |balls| && balls[k] == b;
      }
    }
  }

  /** The balls the screen offers keep the order of `mockQuestions`: their ids
      increase, and each is one of 1 to 15 not yet used. */
  lemma MockOfferKeepsOrder(draws: seq<MockDraw>, usedBalls: seq<int>)
    requires ValidDraws(draws)
    ensures var offered := AvailableBalls(MockQuestions(draws), usedBalls);
      && (forall i, j :: 0 <= i < j < |offered| ==> offered[i].id < offered[j].id)
      && (forall b :: b in offered ==> 1 <= b.id <= GRID_SIZE && b.id !in usedBalls)
  {
    var balls := MockQuestions(draws);
    AvailableBallsKeepOrder(balls, usedBalls);
    AvailableBallsMembers(balls, usedBalls);
  }

  /** Selecting ball `n` withdraws exactly the balls with id `n` from the
      offer, keeping the rest in order. */
  lemma {:induction false} SelectWithdrawsBall(balls: seq<Ball>, usedBalls: seq<int>, n: int)
    ensures AvailableBalls(balls, usedBalls + [n]) == AvailableBalls(AvailableBalls(balls, usedBalls), [n])
    ensures !IsAvailable(AvailableBalls(balls, usedBalls + [n]), n)
  {
    if balls != [] {
      SelectWithdrawsBall(balls[1..], usedBalls, n);
      var head := if balls[0].id in usedBalls then [] else [balls[0]];
      AvailableBallsAppend(head, AvailableBalls(balls[1..], usedBalls), [n]);
      assert AvailableBalls(balls, usedBalls) == head + AvailableBalls(balls[1..], usedBalls);
    }
    AvailableBallsMembers(balls, usedBalls + [n]);
  }

  /** What the screen's own handlers can do to the state. */
  datatype GameEvent = BallSelected(ballNumber: int) | Answered(isCorrect: bool)

  function Apply(s: GameState, e: GameEvent): GameState {
    match e
    case BallSelected(n) => SelectBall(s, n)
    case Answered(c) => Answer(s, c)
  }

  /** The state after the events `events`, in order, starting from `s`. */
  function Replay(s: GameState, events: seq<GameEvent>): GameState
    decreases |events|
  {
    if events == [] then s else Apply(Replay(s, events[..|events| - 1]), events[|events| - 1])
  }

  function AnswerCount(events: seq<GameEvent>): nat
    decreases |events|
  {
    if events == [] then 0
    else AnswerCount(events[..|events| - 1]) + (if events[|events| - 1].Answered? then 1 else 0)
  }

  function SelectedBalls(events: seq<GameEvent>): seq<int>
    decreases |events|
  {
    if events == [] then []
    else
      var last := events[|events| - 1];
      SelectedBalls(events[..|events| - 1]) + (if last.BallSelected? then [last.ballNumber] else [])
  }

  /** Whatever the screen's handlers do, the state stays in the first innings
      with the side batting first, runs, wickets, extras, batter and bowler
      untouched; `balls` counts the answers, `overs` follows it, and
      `usedBalls` lists the selected balls in the order they were selected. */
  lemma {:induction false} ReplayFromStart(battingFirst: Team, events: seq<GameEvent>)
    ensures var s := Replay(InitialState(battingFirst), events);
      && s.innings == 1 && s.battingTeam == battingFirst && s.teamAScore == None
      && s.runs == 0 && s.wickets == 0 && s.extras == 0
      && s.currentBatter == 0 && s.currentBowler == 0
      && s.balls == AnswerCount(events) && OversMatchBalls(s)
      && s.usedBalls == SelectedBalls(events)
    decreases |events|
  {
    if events != [] {
      ReplayFromStart(battingFirst, events[..|events| - 1]);
    }
  }

  class Game {
    const teamAName: string
    const teamBName: string
    const teamAPlayers: seq<string>
    const teamBPlayers: seq<string>
    const mockQuestions: seq<Ball>
    /** The GameZone child this screen renders. */
    const zone: Zone
    var gameState: GameState

    constructor (teamAName: string, teamBName: string, teamAPlayers: seq<string>, teamBPlayers: seq<string>,
                 battingFirst: Team, draws: seq<MockDraw>)
      requires ValidDraws(draws)
      ensures this.teamAName == teamAName && this.teamBName == teamBName
      ensures this.teamAPlayers == teamAPlayers && this.teamBPlayers == teamBPlayers
      ensures mockQuestions == MockQuestions(draws)
      ensures gameState == InitialState(battingFirst)
      ensures fresh(zone) && zone.selectedBall == None
    {
      this.teamAName := teamAName;
      this.teamBName := teamBName;
      this.teamAPlayers := teamAPlayers;
      this.teamBPlayers := teamBPlayers;
      mockQuestions := MockQuestions(draws);
      zone := new Zone();
      gameState := InitialState(battingFirst);
    }

    /** The balls handed to the GameZone as `availableBalls`: the mock balls
        whose ids have not been used. */
    function OfferedBalls(): (offered: seq<Ball>)
      reads this
      ensures |offered| <= |mockQuestions|
      ensures forall b :: b in offered <==> b in mockQuestions && b.id !in gameState.usedBalls
    {
      AvailableBallsMembers(mockQuestions, gameState.usedBalls);
      AvailableBalls(mockQuestions, gameState.usedBalls)
    }

    /** `battingTeamPlayers`: the roster of the side at the crease. */
    function BattingTeamPlayers(): (players: seq<string>)
      reads this
      ensures gameState.battingTeam == A ==> players == teamAPlayers
      ensures gameState.battingTeam == B ==> players == teamBPlayers
    {
      BattingPlayers(gameState.battingTeam, teamAPlayers, teamBPlayers)
    }

    /** `bowlingTeamPlayers`: the roster of the side in the field, which is
        the batting roster of the other side. */
    function BowlingTeamPlayers(): (players: seq<string>)
      reads this
      ensures gameState.battingTeam == A ==> players == teamBPlayers
      ensures gameState.battingTeam == B ==> players == teamAPlayers
      ensures players == BattingPlayers(gameState.battingTeam.Other(), teamAPlayers, teamBPlayers)
    {
      BowlingPlayers(gameState.battingTeam, teamAPlayers, teamBPlayers)
    }

    method HandleBallSelect(ballNumber: int)
      modifies this
      ensures gameState == SelectBall(old(gameState), ballNumber)
    {
      gameState := SelectBall(gameState, ballNumber);
    }

    method HandleAnswer(isCorrect: bool)
      modifies this
      ensures gameState == Answer(old(gameState), isCorrect)
    {
      gameState := Answer(gameState, isCorrect);
    }

    /** A click on grid slot `k`: the GameZone selects the first offered ball
        with id `k` and reports it, and the ball is marked used, so it is no longer
        offered; a slot with no offered ball changes nothing. */
    method ClickSlot(k: int)
      modifies this, zone
      ensures IsAvailable(old(OfferedBalls()), k) ==>
        && gameState == SelectBall(old(gameState), k)
        && zone.selectedBall == FindBall(old(OfferedBalls()), k)
        && zone.selectedBall.Some? && zone.selectedBall.value.id == k
        && !IsAvailable(OfferedBalls(), k)
      ensures !IsAvailable(old(OfferedBalls()), k) ==>
        gameState == old(gameState) && zone.selectedBall == old(zone.selectedBall)
    {
      var reported := zone.ClickSlot(OfferedBalls(), k);
      if reported.Some? {
        SelectWithdrawsBall(mockQuestions, gameState.usedBalls, reported.value);
        HandleBallSelect(reported.value);
      }
    }

    /** A click on option `optionIndex`: with a ball selected, one more ball
        is bowled and the selection is cleared; otherwise nothing changes. */
    method ClickOption(optionIndex: int)
      modifies this, zone
      ensures old(zone.selectedBall).Some? ==>
        && gameState == Answer(old(gameState), optionIndex == old(zone.selectedBall).value.correct)
        && zone.selectedBall == None
      ensures old(zone.selectedBall).None? ==> gameState == old(gameState) && zone.selectedBall == None
    {
      var reported := zone.HandleAnswerClick(optionIndex);
      if reported.Some? {
        HandleAnswer(reported.value);
      }
    }
  }
}
