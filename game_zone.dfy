/** The ball grid and the question panel (src/components/GameZone.tsx): a grid
    of fifteen numbered slots, the `selectedBall` cell, and the two click
    handlers that report to the parent through `onBallSelect` and `onAnswer`. */
module GameZone {
  import opened Common

  /** GameZone's `Question`: one ball on the grid. */
  datatype Ball = Ball(id: int, question: string, options: seq<string>, correct: int, runs: int)

  /** The grid always shows slots 1 to GRID_SIZE. */
  const GRID_SIZE: nat := 15

  /** `availableBalls.some(b => b.id === k)` */
  predicate IsAvailable(balls: seq<Ball>, k: int) {
    exists j :: 0 <= j < |balls| && balls[j].id == k
  }

  /** Position `j` holds the first ball with id `k`. */
  predicate IsFirstWithId(balls: seq<Ball>, j: int, k: int) {
    0 <= j < |balls| && balls[j].id == k && forall i :: 0 <= i < j ==> balls[i].id != k
  }

  /** `availableBalls.find(b => b.id === k)`: the first ball with id `k`, if any. */
  function FindBall(balls: seq<Ball>, k: int): (r: Option<Ball>)
    ensures r.Some? <==> IsAvailable(balls, k)
    ensures r.Some? ==> exists j :: IsFirstWithId(balls, j, k) && balls[j] == r.value
  {
    if balls == [] then None
    else if balls[0].id == k then
      assert IsFirstWithId(balls, 0, k);
      Some(balls[0])
    else
      var r := FindBall(balls[1..], k);
      if r.Some? then
        var j :| IsFirstWithId(balls[1..], j, k) && balls[1..][j] == r.value;
        assert IsFirstWithId(balls, j + 1, k);
        r
      else
        r
  }

  /** Whether each slot of the grid is enabled: slot `i` (shown as `i + 1`)
      is enabled exactly when clicking it finds a ball to select. */
  function Grid(balls: seq<Ball>): (enabled: seq<bool>)
    ensures |enabled| == GRID_SIZE
    ensures forall i :: 0 <= i < GRID_SIZE ==> (enabled[i] <==> FindBall(balls, i + 1).Some?)
  {
    seq(GRID_SIZE, i => IsAvailable(balls, i + 1))
  }

  /** The caption under a question: `Worth {runs} run{runs !== 1 ? "s" : ""}`. */
  function RunsCaption(runs: int): (caption: string)
    ensures |caption| > 0
    ensures caption[|caption| - 1] == 's' <==> runs != 1
    ensures "Worth " + Decimal(runs) + " run" <= caption
    ensures |caption| == |"Worth " + Decimal(runs) + " run"| + (if runs != 1 then 1 else 0)
  {
    "Worth " + Decimal(runs) + " run" + (if runs != 1 then "s" else "")
  }

  class Zone {
    /** The ball whose question is on show, `null` when none is. */
    var selectedBall: Option<Ball>

    constructor ()
      ensures selectedBall == None
    {
      selectedBall := None;
    }

    /** `handleBallClick`: select `ball` and report its id to `onBallSelect`. */
    method HandleBallClick(ball: Ball) returns (selectedId: int)
      modifies this
      ensures selectedBall == Some(ball)
      ensures selectedId == ball.id
    {
      selectedBall := Some(ball);
      selectedId := ball.id;
    }

    /** The `onClick` of grid slot `k`: select the available ball with id `k`
        and report `k`; with no such ball, nothing happens. */
    method ClickSlot(availableBalls: seq<Ball>, k: int) returns (reported: Option<int>)
      modifies this
      ensures IsAvailable(availableBalls, k) ==>
        && selectedBall == FindBall(availableBalls, k)
        && selectedBall.Some? && selectedBall.value.id == k
        && reported == Some(k)
      ensures !IsAvailable(availableBalls, k) ==> selectedBall == old(selectedBall) && reported == None
    {
      var ball := FindBall(availableBalls, k);
      if ball.Some? {
        var id := HandleBallClick(ball.value);
        reported := Some(id);
      } else {
        reported := None;
      }
    }

    /** `handleAnswerClick`: with a ball selected, report to `onAnswer` whether
        the chosen option is its correct one and clear the selection; with no
        ball selected, do nothing and report nothing. */
    method HandleAnswerClick(optionIndex: int) returns (reported: Option<bool>)
      modifies this
      ensures old(selectedBall).Some? ==>
        reported == Some(optionIndex == old(selectedBall).value.correct) && selectedBall == None
      ensures old(selectedBall).None? ==> reported == None && selectedBall == None
    {
      if selectedBall.Some? {
        var isCorrect := optionIndex == selectedBall.value.correct;
        reported := Some(isCorrect);
        selectedBall := None;
      } else {
        reported := None;
      }
    }
  }
}
