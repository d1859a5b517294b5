/** The roster form (src/components/SetupScreen.tsx): two team names, two
    eleven-slot name lists edited one slot at a time, the `isValid` flag that
    enables "Start Match", and `handleSubmit`, which passes the non-blank names
    on only when both teams have eleven of them. */
module SetupScreen {
  import opened Common

  /** Both rosters have this many slots. */
  const ROSTER_SIZE: nat := 11

  /** `p.trim() === ""` */
  predicate IsBlank(p: string) {
    Trim(p) == ""
  }

  /** `players.every(p => p.trim() !== "")` */
  predicate AllNamed(players: seq<string>) {
    forall i :: 0 <= i < |players| ==> !IsBlank(players[i])
  }

  /** `players.filter(p => p.trim() !== "")` */
  function NonBlank(players: seq<string>): (r: seq<string>)
    ensures |r| <= |players|
  {
    if players == [] then []
    else (if IsBlank(players[0]) then [] else [players[0]]) + NonBlank(players[1..])
  }

  /** The filter keeps exactly the non-blank entries, as they were typed: an
      entry survives untrimmed, and nothing else appears. */
  lemma {:induction false} NonBlankMembers(players: seq<string>)
    ensures forall p :: p in NonBlank(players) <==> p in players && !IsBlank(p)
    ensures AllNamed(NonBlank(players))
  {
    if players != [] {
      NonBlankMembers(players[1..]);
      assert players == [players[0]] + players[1..];
    }
  }

  /** The filter keeps the entries in their original order. */
  lemma {:induction false} NonBlankAppend(a: seq<string>, b: seq<string>)
    ensures NonBlank(a + b) == NonBlank(a) + NonBlank(b)
  {
    if a == [] {
      assert a + b == b;
    } else {
      assert (a + b)[0] == a[0];
      assert (a + b)[1..] == a[1..] + b;
      NonBlankAppend(a[1..], b);
    }
  }

  /** The filter drops nothing exactly when every entry is named, and then it
      returns the list unchanged. */
  lemma {:induction false} NonBlankKeepsAll(players: seq<string>)
    ensures |NonBlank(players)| == |players| <==> AllNamed(players)
    ensures AllNamed(players) ==> NonBlank(players) == players
  {
    if players != [] {
      NonBlankKeepsAll(players[1..]);
      assert |NonBlank(players[1..])| <= |players| - 1;
    }
  }

  /** The arguments `handleSubmit` passes to `onComplete`. */
  datatype Submission = Submission(
    teamAName: string,
    teamBName: string,
    teamAPlayers: seq<string>,
    teamBPlayers: seq<string>)

  /** `handleSubmit`: the blank-filtered rosters go on, with the names as
      typed, when both have exactly ROSTER_SIZE entries; otherwise nothing
      happens. */
  function Submit(teamAName: string, teamBName: string, teamAPlayers: seq<string>, teamBPlayers: seq<string>)
    : (r: Option<Submission>)
    ensures r.Some? <==> |NonBlank(teamAPlayers)| == ROSTER_SIZE && |NonBlank(teamBPlayers)| == ROSTER_SIZE
    ensures r.Some? ==> r.value.teamAName == teamAName && r.value.teamBName == teamBName
    ensures r.Some? ==> r.value.teamAPlayers == NonBlank(teamAPlayers) && r.value.teamBPlayers == NonBlank(teamBPlayers)
  {
    var validTeamA := NonBlank(teamAPlayers);
    var validTeamB := NonBlank(teamBPlayers);
    if |validTeamA| == ROSTER_SIZE && |validTeamB| == ROSTER_SIZE then
      Some(Submission(teamAName, teamBName, validTeamA, validTeamB))
    else
      None
  }

  /** What is submitted is two full rosters of named players, each entry taken
      verbatim from the form. */
  lemma SubmittedRosters(teamAName: string, teamBName: string, teamAPlayers: seq<string>, teamBPlayers: seq<string>)
    requires Submit(teamAName, teamBName, teamAPlayers, teamBPlayers).Some?
    ensures var s := Submit(teamAName, teamBName, teamAPlayers, teamBPlayers).value;
      && |s.teamAPlayers| == ROSTER_SIZE && |s.teamBPlayers| == ROSTER_SIZE
      && AllNamed(s.teamAPlayers) && AllNamed(s.teamBPlayers)
      && (forall p :: p in s.teamAPlayers ==> p in teamAPlayers)
      && (forall p :: p in s.teamBPlayers ==> p in teamBPlayers)
  {
    NonBlankMembers(teamAPlayers);
    NonBlankMembers(teamBPlayers);
  }

  /** With eleven slots per team, as the form always has, the button is
      enabled exactly when `handleSubmit` goes through, and then the rosters
      are passed on as they stand. */
  lemma ValidIffSubmits(teamAName: string, teamBName: string, teamAPlayers: seq<string>, teamBPlayers: seq<string>)
    requires |teamAPlayers| == ROSTER_SIZE && |teamBPlayers| == ROSTER_SIZE
    ensures AllNamed(teamAPlayers) && AllNamed(teamBPlayers)
        <==> Submit(teamAName, teamBName, teamAPlayers, teamBPlayers).Some?
    ensures AllNamed(teamAPlayers) && AllNamed(teamBPlayers) ==>
      Submit(teamAName, teamBName, teamAPlayers, teamBPlayers)
        == Some(Submission(teamAName, teamBName, teamAPlayers, teamBPlayers))
  {
    NonBlankKeepsAll(teamAPlayers);
    NonBlankKeepsAll(teamBPlayers);
  }

  class Setup {
    var teamAName: string
    var teamBName: string
    var teamAPlayers: seq<string>
    var teamBPlayers: seq<string>

    /** The form opens with the default team names and eleven empty slots per team. */
    constructor ()
      ensures teamAName == "Team A" && teamBName == "Team B"
      ensures |teamAPlayers| == ROSTER_SIZE && |teamBPlayers| == ROSTER_SIZE
      ensures forall i :: 0 <= i < ROSTER_SIZE ==> teamAPlayers[i] == "" && teamBPlayers[i] == ""
    {
      teamAName := "Team A";
      teamBName := "Team B";
      teamAPlayers := seq(ROSTER_SIZE, _ => "");
      teamBPlayers := seq(ROSTER_SIZE, _ => "");
    }

    method SetTeamAName(value: string)
      modifies this
      ensures teamAName == value
      ensures teamBName == old(teamBName) && teamAPlayers == old(teamAPlayers) && teamBPlayers == old(teamBPlayers)
    {
      teamAName := value;
    }

    method SetTeamBName(value: string)
      modifies this
      ensures teamBName == value
      ensures teamAName == old(teamAName) && teamAPlayers == old(teamAPlayers) && teamBPlayers == old(teamBPlayers)
    {
      teamBName := value;
    }

    /** The `onChange` of slot `idx` of team A: copy the list, overwrite that
        one slot, store the copy. */
    method EditTeamAPlayer(idx: nat, value: string)
      requires idx < |teamAPlayers|
      modifies this
      ensures |teamAPlayers| == |old(teamAPlayers)| && teamAPlayers[idx] == value
      ensures forall i :: 0 <= i < |teamAPlayers| && i != idx ==> teamAPlayers[i] == old(teamAPlayers)[i]
      ensures teamAName == old(teamAName) && teamBName == old(teamBName) && teamBPlayers == old(teamBPlayers)
    {
      var players := teamAPlayers;
      var newPlayers := new string[|players|](i requires 0 <= i < |players| => players[i]);
      newPlayers[idx] := value;
      teamAPlayers := newPlayers[..];
    }

    /** The `onChange` of slot `idx` of team B. */
    method EditTeamBPlayer(idx: nat, value: string)
      requires idx < |teamBPlayers|
      modifies this
      ensures |teamBPlayers| == |old(teamBPlayers)| && teamBPlayers[idx] == value
      ensures forall i :: 0 <= i < |teamBPlayers| && i != idx ==> teamBPlayers[i] == old(teamBPlayers)[i]
      ensures teamAName == old(teamAName) && teamBName == old(teamBName) && teamAPlayers == old(teamAPlayers)
    {
      var players := teamBPlayers;
      var newPlayers := new string[|players|](i requires 0 <= i < |players| => players[i]);
      newPlayers[idx] := value;
      teamBPlayers := newPlayers[..];
    }

    /** `isValid`, which enables the "Start Match" button: every slot of both
        rosters holds a character other than whitespace. */
    function IsValid(): (valid: bool)
      reads this
      ensures valid <==>
        && (forall i :: 0 <= i < |teamAPlayers| ==> HasVisible(teamAPlayers[i]))
        && (forall i :: 0 <= i < |teamBPlayers| ==> HasVisible(teamBPlayers[i]))
    {
      BlankIffNoVisible();
      AllNamed(teamAPlayers) && AllNamed(teamBPlayers)
    }

    /** `handleSubmit`: what reaches `onComplete`, if anything; the form
        itself does not change. */
    method HandleSubmit() returns (submitted: Option<Submission>)
      ensures submitted == Submit(teamAName, teamBName, teamAPlayers, teamBPlayers)
      ensures |teamAPlayers| == ROSTER_SIZE && |teamBPlayers| == ROSTER_SIZE ==> (submitted.Some? <==> IsValid())
    {
      submitted := Submit(teamAName, teamBName, teamAPlayers, teamBPlayers);
      if |teamAPlayers| == ROSTER_SIZE && |teamBPlayers| == ROSTER_SIZE {
        ValidIffSubmits(teamAName, teamBName, teamAPlayers, teamBPlayers);
      }
    }
  }
}
