/** The coin toss (src/components/TossScreen.tsx): team A calls heads or
    tails, the coin is flipped after a delay, the winner of the toss chooses
    to bat or bowl, and that choice goes to `onComplete`. */
module TossScreen {
  import opened Common

  datatype Stage = Choose | Flipping | Result

  datatype Coin = Heads | Tails

  /** The toss winner's choice, "bat" | "bowl". */
  datatype Decision = Bat | Bowl

  /** Team A makes the call, so A wins the toss exactly when the coin lands
      the way A called it. */
  function TossWinner(result: Coin, call: Coin): (winner: Team)
    ensures winner == A <==> result == call
    ensures winner == B <==> result != call
  {
    if result == call then A else B
  }

  class Toss {
    var stage: Stage
    var choice: Option<Coin>
    var winner: Option<Team>
    /** The flips scheduled by `setTimeout` and not yet completed, oldest
        first; each remembers the call it was scheduled with. */
    var pendingFlips: seq<Coin>

    /** The consistency of the three cells as the screen drives them: a call
        exactly once past "choose", a winner exactly in "result", and one
        flip pending exactly while "flipping", for the call on record. */
    predicate Valid()
      reads this
    {
      && (stage == Choose <==> choice == None)
      && (stage == Result <==> winner.Some?)
      && (stage == Flipping <==> pendingFlips != [])
      && (stage == Flipping ==> pendingFlips == [choice.value])
    }

    constructor ()
      ensures stage == Choose && choice == None && winner == None && pendingFlips == []
      ensures Valid()
    {
      stage := Choose;
      choice := None;
      winner := None;
      pendingFlips := [];
    }

    /** `handleToss`: record the call, show the flip, schedule its completion.
        The buttons that call it are shown only in "choose". */
    method HandleToss(selectedChoice: Coin)
      modifies this
      ensures choice == Some(selectedChoice) && stage == Flipping
      ensures pendingFlips == old(pendingFlips) + [selectedChoice]
      ensures winner == old(winner)
      ensures old(Valid()) && old(stage) == Choose ==> Valid()
    {
      choice := Some(selectedChoice);
      stage := Flipping;
      pendingFlips := pendingFlips + [selectedChoice];
    }

    /** The `setTimeout` callback of the oldest pending flip, with the coin's
        `result` as its input: set the winner and show the result. */
    method FlipComplete(result: Coin)
      requires pendingFlips != []
      modifies this
      ensures winner == Some(TossWinner(result, old(pendingFlips)[0])) && stage == Result
      ensures pendingFlips == old(pendingFlips)[1..] && choice == old(choice)
      ensures old(Valid()) ==> Valid() && winner == Some(TossWinner(result, choice.value))
    {
      var selectedChoice := pendingFlips[0];
      pendingFlips := pendingFlips[1..];
      var tossWinner := TossWinner(result, selectedChoice);
      winner := Some(tossWinner);
      stage := Result;
    }

    /** `handleBatBowl`: once there is a winner, hand `(winner, decision)` to
        `onComplete`; before that, do nothing. */
    method HandleBatBowl(decision: Decision) returns (completed: Option<(Team, Decision)>)
      ensures completed.Some? <==> winner.Some?
      ensures completed.Some? ==> completed.value == (winner.value, decision)
    {
      if winner.Some? {
        completed := Some((winner.value, decision));
      } else {
        completed := None;
      }
    }
  }

  /** The toss as the screen runs it: call, flip, decide. A decision made
      before the call or while the coin is in the air reaches nobody; the one
      made on the result reaches `onComplete` with the winner the call and the
      coin determine. */
  method TossThrough(call: Coin, result: Coin, decision: Decision)
    returns (beforeCall: Option<(Team, Decision)>, whileFlipping: Option<(Team, Decision)>,
             completed: Option<(Team, Decision)>)
    ensures beforeCall == None && whileFlipping == None
    ensures completed == Some((TossWinner(result, call), decision))
  {
    var toss := new Toss();
    beforeCall := toss.HandleBatBowl(decision);
    toss.HandleToss(call);
    whileFlipping := toss.HandleBatBowl(decision);
    toss.FlipComplete(result);
    completed := toss.HandleBatBowl(decision);
  }
}
