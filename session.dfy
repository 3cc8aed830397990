/// The GUI's session state (SorteoManager in GUI_sorteo.py): the groups, free
/// slots and assignments of the draw in progress, the pot being drawn, the
/// status flags and the event log, which keeps only the latest fifty messages.
module Session {
  import opened DrawTypes
  import opened ConfederationRule
  import opened Lookahead
  import opened PotDraw
  import opened LaterPots

  /** The log keeps at most this many messages. */
  const MaxLogs: nat := 50

  /** The log after one message: appended, and the oldest one dropped once there are more than fifty. */
  function Appended(logs: seq<string>, message: string): seq<string>
  {
    var longer := logs + [message];
    if |longer| > MaxLogs then longer[1..] else longer
  }

  /**
   * Logging ends the log with the message and keeps what was there before it,
   * less the oldest message when the log already held fifty or more; the log
   * never grows past fifty once it has reached that size.
   */
  lemma AppendedKeeps(logs: seq<string>, message: string)
    ensures var r := Appended(logs, message);
      && |r| == (if |logs| < MaxLogs then |logs| + 1 else |logs|)
      && r != [] && r[|r| - 1] == message
      && r[..|r| - 1] == if |logs| < MaxLogs then logs else logs[1..]
  {
  }

  /** The latest messages of a history, at most fifty of them: what the log should show. */
  function Latest(history: seq<string>): (w: seq<string>)
    ensures |w| == Min(|history|, MaxLogs)
    ensures forall i :: 0 <= i < |w| ==> w[i] == history[|history| - |w| + i]
  {
    history[|history| - Min(|history|, MaxLogs)..]
  }

  /** Logging one message into a log that shows the latest messages of a history shows the latest of the longer history. */
  lemma LogWindow(history: seq<string>, message: string)
    ensures Appended(Latest(history), message) == Latest(history + [message])
  {
    var h := history + [message];
    if |history| >= MaxLogs {
      assert Latest(history) + [message] == h[|h| - MaxLogs - 1..];
    } else {
      assert Latest(history) + [message] == h;
    }
  }

  /** The log after a run of messages, logged one by one. */
  function LogAll(logs: seq<string>, messages: seq<string>): seq<string>
    decreases |messages|
  {
    if messages == [] then logs else LogAll(Appended(logs, messages[0]), messages[1..])
  }

  /** However many messages are logged, from any history, the log holds exactly the latest fifty (or all, if fewer). */
  lemma {:induction false} LogAllWindow(history: seq<string>, messages: seq<string>)
    ensures LogAll(Latest(history), messages) == Latest(history + messages)
    decreases |messages|
  {
    if messages != [] {
      var m, more := messages[0], messages[1..];
      var longer := history + [m];
      assert longer + more == history + messages;
      LogWindow(history, m);
      LogAllWindow(longer, more);
    }
  }

  /** The name of a slot, group letter then number, as "C3". */
  function SlotName(s: Slot): (name: string)
    requires s.group < NumGroups && 1 <= s.pos <= SlotsPerGroup
    ensures |name| == 2 && name[0] == GroupLetters[s.group] && name[1] as int - '0' as int == s.pos
  {
    [GroupLetters[s.group], ('0' as int + s.pos) as char]
  }

  /** The message logged when no group passes the tests for a team. */
  function NoGroupMessage(team: Team): string
  {
    "ERROR CRÍTICO: No se encontró grupo para " + team
  }

  /** The message logged when a team is placed. */
  function PlacedMessage(g: nat, s: Slot): string
    requires g < NumGroups && s.group < NumGroups && 1 <= s.pos <= SlotsPerGroup
  {
    "-> Asignado a Grupo " + [GroupLetters[g]] + " (Slot " + SlotName(s) + ")"
  }

  /** A free slot of group g, in a state whose slots are accounted for, is one of g1..g4. */
  lemma FreeSlotIsOfGroup(d: Draw, g: nat, s: Slot)
    requires SlotsAccounted(d) && g < NumGroups && s in d.slots[g]
    ensures s.group == g && 1 <= s.pos <= SlotsPerGroup
  {
    assert SlotsOfGroup(d, g);
    assert s in multiset(d.slots[g]);
    AllSlotsOnce(g, s);
  }

  class SorteoManager {
    var groups: seq<char>
    var groupTeams: seq<seq<Entry>>
    var freeSlots: seq<seq<Slot>>
    var assignments: map<Team, Assignment>
    var currentPot: Option<nat>
    var processing: bool
    var logs: seq<string>
    var finished: bool
    var currentTeam: Option<Team>
    /** Every message ever logged since the last reset, oldest first. */
    ghost var history: seq<string>

    /** The draw state held by the session. */
    function Snapshot(): Draw
      reads this
    {
      Draw(groupTeams, freeSlots, assignments)
    }

    /** The session invariant: twelve groups whose slots are accounted for, and a log showing the latest messages. */
    ghost predicate Valid()
      reads this
    {
      |groupTeams| == NumGroups && |freeSlots| == NumGroups
      && SlotsAccounted(Snapshot()) && logs == Latest(history)
    }

    /** The state reset leaves: no team placed, all slots free, pot 1 next, nothing logged. */
    ghost predicate AtStart()
      reads this
    {
      groups == GroupLetters && Snapshot() == Initial()
      && currentPot == Some(1) && !processing && logs == [] && !finished && currentTeam == None
      && history == []
    }

    constructor()
      ensures AtStart() && Valid() && Consistent(Snapshot())
    {
      new;
      Reset();
    }

    /** reset: back to the initial values for a new draw. */
    method Reset()
      modifies this
      ensures AtStart() && Valid() && Consistent(Snapshot()) && RuleHolds(groupTeams)
    {
      groups := GroupLetters;
      groupTeams := FreshGroups(NumGroups);
      freeSlots := FreshSlots(NumGroups);
      assignments := map[];
      currentPot := Some(1);
      processing := false;
      logs := [];
      finished := false;
      currentTeam := None;
      history := [];
      InitialConsistent();
    }

    /** log: append the message, dropping the oldest once more than fifty are kept. */
    method Log(message: string)
      modifies this
      ensures logs == Appended(old(logs), message) && history == old(history) + [message]
      ensures Snapshot() == old(Snapshot()) && groups == old(groups) && currentPot == old(currentPot)
      ensures processing == old(processing) && finished == old(finished) && currentTeam == old(currentTeam)
      ensures old(Valid()) ==> Valid()
    {
      logs := logs + [message];
      if |logs| > MaxLogs {
        logs := logs[1..];
      }
      history := history + [message];
      LogWindow(old(history), message);
    }

    /**
     * The assignment of a placement: append the team with its slot to group g,
     * remove the slot from g's free list, record (group, slot, confederation).
     */
    method Seat(team: Team, c: Conf, g: nat, s: Slot)
      modifies this
      requires Valid() && g < NumGroups && s in freeSlots[g]
      ensures Valid() && Snapshot() == Record(old(Snapshot()), team, c, g, s)
      ensures groups == old(groups) && currentPot == old(currentPot) && processing == old(processing)
      ensures finished == old(finished) && currentTeam == old(currentTeam) && logs == old(logs) && history == old(history)
      ensures old(Consistent(Snapshot())) && team !in old(assignments) ==> Consistent(Snapshot())
      ensures old(RuleHolds(groupTeams)) && Admits(old(groupTeams)[g], c) ==> RuleHolds(groupTeams)
    {
      var d := Snapshot();
      var e := Entry(team, Some(s), c);
      freeSlots := freeSlots[g := RemoveFirst(freeSlots[g], s)];
      groupTeams := groupTeams[g := groupTeams[g] + [e]];
      assignments := assignments[team := Assignment(g, s, c)];
      RecordKeepsSlots(d, team, c, g, s);
      if Consistent(d) && team !in d.assignments {
        RecordKeepsConsistent(d, team, c, g, s);
      }
      if RuleHolds(d.groups) && Admits(d.groups[g], c) {
        AdmittedKeepsRule(d.groups, g, e);
      }
    }

    /**
     * The placement step of run_bombo_n for a drawn team of pot n, rest being
     * the pot left: search its group with the backtracking lookahead; with no
     * group, log the critical error and stop; otherwise take a random free slot
     * of the group, append the team, record its assignment and log the placement.
     */
    method PlaceDrawnTeam(n: nat, team: Team, rest: seq<Team>, table: map<Team, Conf>) returns (r: Result<Placement>)
      modifies this
      requires Valid() && team in table && AllInTable(rest, table)
      ensures Valid()
      ensures groups == old(groups) && currentPot == old(currentPot) && processing == old(processing)
      ensures finished == old(finished) && currentTeam == old(currentTeam)
      ensures r.Err? ==> r.error == NoValidGroup(team) || r.error.NoFreeSlot?
      ensures r.Err? && r.error.NoValidGroup? <==> NoneQualifies(Backtracking, old(groupTeams), team, rest, n, table)
      ensures n <= SlotsPerGroup ==> !(r.Err? && r.error.NoFreeSlot?)
      ensures r.Err? ==> Snapshot() == old(Snapshot())
      ensures r.Err? && r.error.NoValidGroup? ==> history == old(history) + [NoGroupMessage(team)]
      ensures r.Err? && r.error.NoFreeSlot? ==> history == old(history)
      ensures r.Ok? ==>
                FirstQualifying(Backtracking, old(groupTeams), team, rest, n, table, r.value.group)
                && r.value.slot in old(freeSlots)[r.value.group]
                && r.value.slot.group == r.value.group && 1 <= r.value.slot.pos <= SlotsPerGroup
                && Snapshot() == Record(old(Snapshot()), team, table[team], r.value.group, r.value.slot)
                && history == old(history) + [PlacedMessage(r.value.group, r.value.slot)]
      ensures r.Ok? && old(Consistent(Snapshot())) && team !in old(assignments) ==> Consistent(Snapshot())
      ensures r.Ok? && old(RuleHolds(groupTeams)) ==> RuleHolds(groupTeams)
    {
      var d := Snapshot();
      r := PickPlacement(Backtracking, n, team, rest, d, table);
      if r.Err? {
        if r.error.NoValidGroup? {
          Log(NoGroupMessage(team));
        }
        return;
      }
      var g, s := r.value.group, r.value.slot;
      FreeSlotIsOfGroup(d, g, s);
      assert Open(d.groups, g, table[team], n);
      Seat(team, table[team], g, s);
      Log(PlacedMessage(g, s));
    }
  }
}
