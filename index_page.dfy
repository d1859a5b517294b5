/** The page (src/pages/Index.tsx): which screen is shown, the teams as
    submitted by the setup screen, and the side batting first as decided by
    the toss. */
module IndexPage {
  import opened Common
  import TossScreen

  datatype Screen = Setup | Toss | Game

  /** The side that bats first: the toss winner if it chose to bat, its
      opponent if it chose to bowl. */
  function BattingFirst(winner: Team, choice: TossScreen.Decision): (t: Team)
    ensures choice == TossScreen.Bat ==> t == winner
    ensures choice == TossScreen.Bowl ==> t == winner.Other() && t != winner
  {
    if choice == TossScreen.Bat then winner else winner.Other()
  }

  /** From the call and the coin: team A bats first exactly when it won the
      toss and chose to bat, or lost it and the winner chose to bowl. */
  lemma BattingFirstFromToss(call: TossScreen.Coin, result: TossScreen.Coin, choice: TossScreen.Decision)
    ensures BattingFirst(TossScreen.TossWinner(result, call), choice) == A
        <==> ((result == call) <==> (choice == TossScreen.Bat))
  {
  }

  class Page {
    var screen: Screen
    var teamAName: string
    var teamBName: string
    var teamAPlayers: seq<string>
    var teamBPlayers: seq<string>
    var battingFirst: Team

    constructor ()
      ensures screen == Setup && battingFirst == A
      ensures teamAName == "" && teamBName == "" && teamAPlayers == [] && teamBPlayers == []
    {
      screen := Setup;
      teamAName := "";
      teamBName := "";
      teamAPlayers := [];
      teamBPlayers := [];
      battingFirst := A;
    }

    /** `handleSetupComplete`: keep the teams as given and go to the toss. */
    method HandleSetupComplete(tAName: string, tBName: string, tAPlayers: seq<string>, tBPlayers: seq<string>)
      modifies this
      ensures teamAName == tAName && teamBName == tBName
      ensures teamAPlayers == tAPlayers && teamBPlayers == tBPlayers
      ensures screen == Toss && battingFirst == old(battingFirst)
    {
      teamAName := tAName;
      teamBName := tBName;
      teamAPlayers := tAPlayers;
      teamBPlayers := tBPlayers;
      screen := Toss;
    }

    /** `handleTossComplete`: settle who bats first and go to the game. */
    method HandleTossComplete(winner: Team, choice: TossScreen.Decision)
      modifies this
      ensures battingFirst == BattingFirst(winner, choice) && screen == Game
      ensures teamAName == old(teamAName) && teamBName == old(teamBName)
      ensures teamAPlayers == old(teamAPlayers) && teamBPlayers == old(teamBPlayers)
    {
      battingFirst := BattingFirst(winner, choice);
      screen := Game;
    }

    /** `handleNewGame`: forget the teams, reset the batting side, back to setup. */
    method HandleNewGame()
      modifies this
      ensures screen == Setup && battingFirst == A
      ensures teamAName == "" && teamBName == "" && teamAPlayers == [] && teamBPlayers == []
    {
      teamAName := "";
      teamBName := "";
      teamAPlayers := [];
      teamBPlayers := [];
      battingFirst := A;
      screen := Setup;
    }
  }
}
