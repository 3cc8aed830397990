/// Pots 2 to 4: sortear_bombo_n, the three pot loops of simular_sorteo.py and
/// the placement step of the GUI. A drawn team goes to the first group, in
/// order A..L, that has room in this pot, that the confederation rule admits it
/// to and that the lookahead approves; it then gets a free slot of that group.
module LaterPots {
  import opened DrawTypes
  import opened ConfederationRule
  import opened Lookahead
  import opened PotDraw

  // ---------------------------------------------------------------------
  // The group search
  // ---------------------------------------------------------------------

  /** The verdict of the lookahead the search calls, on the groups with team simulated in group g. */
  ghost predicate Foresees(strategy: Strategy, gs: seq<seq<Entry>>, g: nat, team: Team, rest: seq<Team>, cap: int, table: map<Team, Conf>)
    requires g < |gs| && team in table && AllInTable(rest, table)
  {
    match strategy
    case Backtracking => Completable(rest, Simulate(gs, g, team, table), cap, table)
    case Greedy => EachHasRoom(rest, Simulate(gs, g, team, table), cap, table)
  }

  /** Group g passes the three tests: fewer than cap teams, the rule admits the team, the lookahead approves. */
  ghost predicate Qualifies(strategy: Strategy, gs: seq<seq<Entry>>, g: nat, team: Team, rest: seq<Team>, cap: int, table: map<Team, Conf>)
    requires g < |gs| && team in table && AllInTable(rest, table)
  {
    Open(gs, g, table[team], cap) && Foresees(strategy, gs, g, team, rest, cap, table)
  }

  /** g is the first group, in order A..L, that passes the three tests. */
  ghost predicate FirstQualifying(strategy: Strategy, gs: seq<seq<Entry>>, team: Team, rest: seq<Team>, cap: int, table: map<Team, Conf>, g: nat)
    requires team in table && AllInTable(rest, table)
  {
    g < |gs| && Qualifies(strategy, gs, g, team, rest, cap, table)
    && forall h :: 0 <= h < g ==> !Qualifies(strategy, gs, h, team, rest, cap, table)
  }

  /** No group passes the three tests: the ValueError case. */
  ghost predicate NoneQualifies(strategy: Strategy, gs: seq<seq<Entry>>, team: Team, rest: seq<Team>, cap: int, table: map<Team, Conf>)
    requires team in table && AllInTable(rest, table)
  {
    forall h :: 0 <= h < |gs| ==> !Qualifies(strategy, gs, h, team, rest, cap, table)
  }

  /**
   * The group loop of sortear_bombo_n: scan the groups in order, skip a group
   * with cap teams or more, skip it when the rule rejects the team, skip it
   * when the lookahead reports a dead end, and stop at the first that passes.
   */
  method FindGroup(strategy: Strategy, team: Team, rest: seq<Team>, gs: seq<seq<Entry>>, cap: int, table: map<Team, Conf>)
    returns (found: Option<nat>)
    requires team in table && AllInTable(rest, table)
    ensures found.Some? ==> FirstQualifying(strategy, gs, team, rest, cap, table, found.value)
    ensures found.None? <==> NoneQualifies(strategy, gs, team, rest, cap, table)
  {
    var g := 0;
    while g < |gs|
      invariant g <= |gs|
      invariant forall h :: 0 <= h < g ==> !Qualifies(strategy, gs, h, team, rest, cap, table)
    {
      if |gs[g]| < cap && Admits(gs[g], table[team]) {
        var ok;
        if strategy == Backtracking {
          ok := Lookahead.Lookahead(g, team, rest, gs, cap, table);
        } else {
          ok := GreedyLookahead(g, team, rest, gs, cap, table);
        }
        if ok {
          assert Qualifies(strategy, gs, g, team, rest, cap, table);
          return Some(g);
        }
      }
      g := g + 1;
    }
    return None;
  }

  /** Every group the backtracking search accepts, the greedy check accepts too. */
  lemma BacktrackingQualifiesGreedy(gs: seq<seq<Entry>>, g: nat, team: Team, rest: seq<Team>, cap: int, table: map<Team, Conf>)
    requires g < |gs| && team in table && AllInTable(rest, table)
    requires Qualifies(Backtracking, gs, g, team, rest, cap, table)
    ensures Qualifies(Greedy, gs, g, team, rest, cap, table)
  {
    BacktrackingImpliesGreedy(rest, Simulate(gs, g, team, table), cap, table);
  }

  /** Over the same state, the greedy script never picks a later group than the backtracking search. */
  lemma GreedyNoLater(gs: seq<seq<Entry>>, team: Team, rest: seq<Team>, cap: int, table: map<Team, Conf>, b: nat, q: nat)
    requires team in table && AllInTable(rest, table)
    requires FirstQualifying(Backtracking, gs, team, rest, cap, table, b)
    requires FirstQualifying(Greedy, gs, team, rest, cap, table, q)
    ensures q <= b
  {
    BacktrackingQualifiesGreedy(gs, b, team, rest, cap, table);
  }

  /** When the greedy script finds no group, neither does the backtracking search. */
  lemma GreedyStuckBacktrackingStuck(gs: seq<seq<Entry>>, team: Team, rest: seq<Team>, cap: int, table: map<Team, Conf>)
    requires team in table && AllInTable(rest, table)
    requires NoneQualifies(Greedy, gs, team, rest, cap, table)
    ensures NoneQualifies(Backtracking, gs, team, rest, cap, table)
  {
    forall h | 0 <= h < |gs| ensures !Qualifies(Backtracking, gs, h, team, rest, cap, table) {
      if Qualifies(Backtracking, gs, h, team, rest, cap, table) {
        BacktrackingQualifiesGreedy(gs, h, team, rest, cap, table);
      }
    }
  }

  /** A group that passes the cap test in a pot of at most four still has a free slot. */
  lemma QualifyingGroupHasSlot(strategy: Strategy, d: Draw, g: nat, team: Team, rest: seq<Team>, cap: int, table: map<Team, Conf>)
    requires SlotsAccounted(d) && cap <= SlotsPerGroup && g < NumGroups && team in table && AllInTable(rest, table)
    requires Qualifies(strategy, d.groups, g, team, rest, cap, table)
    ensures d.slots[g] != []
  {
    FreeSlotCount(d, g);
  }

  // ---------------------------------------------------------------------
  // Placing one drawn team
  // ---------------------------------------------------------------------

  /**
   * The group search followed by random.choice of a free slot of the group
   * found. No group is the ValueError naming the team; an empty free list is
   * the IndexError of random.choice.
   */
  method PickPlacement(strategy: Strategy, n: nat, team: Team, rest: seq<Team>, d: Draw, table: map<Team, Conf>)
    returns (r: Result<Placement>)
    requires |d.groups| == NumGroups && |d.slots| == NumGroups && team in table && AllInTable(rest, table)
    ensures r.Ok? ==> FirstQualifying(strategy, d.groups, team, rest, n, table, r.value.group)
                      && r.value.slot in d.slots[r.value.group]
    ensures r.Err? ==> r.error == NoValidGroup(team) || r.error.NoFreeSlot?
    ensures r.Err? && r.error.NoValidGroup? <==> NoneQualifies(strategy, d.groups, team, rest, n, table)
    ensures r.Err? && r.error.NoFreeSlot? ==>
              FirstQualifying(strategy, d.groups, team, rest, n, table, r.error.group) && d.slots[r.error.group] == []
    ensures SlotsAccounted(d) && n <= SlotsPerGroup ==> !(r.Err? && r.error.NoFreeSlot?)
  {
    var found := FindGroup(strategy, team, rest, d.groups, n, table);
    if found.None? {
      return Err(NoValidGroup(team));
    }
    var g := found.value;
    if SlotsAccounted(d) && n <= SlotsPerGroup {
      QualifyingGroupHasSlot(strategy, d, g, team, rest, n, table);
    }
    if d.slots[g] == [] {
      return Err(NoFreeSlot(g));
    }
    assert d.slots[g][0] in d.slots[g];
    var s :| s in d.slots[g];
    return Ok(Placement(g, s));
  }

  /**
   * One drawn team of a pot of number n: search its group, choose its slot and
   * record it (append to the group, remove the slot, set the assignment).
   */
  method PlaceTeam(strategy: Strategy, n: nat, team: Team, rest: seq<Team>, d: Draw, table: map<Team, Conf>)
    returns (r: Result<Draw>)
    requires |d.groups| == NumGroups && |d.slots| == NumGroups && team in table && AllInTable(rest, table)
    ensures r.Err? ==> r.error == NoValidGroup(team) || r.error.NoFreeSlot?
    ensures r.Err? && r.error.NoValidGroup? <==> NoneQualifies(strategy, d.groups, team, rest, n, table)
    ensures SlotsAccounted(d) && n <= SlotsPerGroup ==> !(r.Err? && r.error.NoFreeSlot?)
    ensures r.Ok? ==> team in r.value.assignments
                      && var a := r.value.assignments[team];
                      FirstQualifying(strategy, d.groups, team, rest, n, table, a.group)
                      && a.slot in d.slots[a.group]
                      && r.value == Record(d, team, table[team], a.group, a.slot)
  {
    var p := PickPlacement(strategy, n, team, rest, d, table);
    if p.Err? {
      return Err(p.error);
    }
    r := Ok(Record(d, team, table[team], p.value.group, p.value.slot));
  }

  // ---------------------------------------------------------------------
  // One pot
  // ---------------------------------------------------------------------

  /** A group's list grew only by appending teams of the pot, and if it grew it holds at most n teams. */
  ghost predicate GroupExtends(before: seq<Entry>, after: seq<Entry>, n: nat, pot: seq<Team>)
  {
    before <= after && (after == before || |after| <= n)
    && forall i :: |before| <= i < |after| ==> after[i].code in Members(pot)
  }

  /** Every group of d grew from the same group of d0 as GroupExtends says. */
  ghost predicate Extends(d0: Draw, d: Draw, n: nat, pot: seq<Team>)
  {
    |d.groups| == |d0.groups| && forall g :: 0 <= g < |d0.groups| ==> GroupExtends(d0.groups[g], d.groups[g], n, pot)
  }

  /** The pot side of a pot's draw: rest is the pot without the teams drawn so far. */
  ghost predicate PotLeftOver(pot: seq<Team>, rest: seq<Team>, drawn: set<Team>, table: map<Team, Conf>)
  {
    AllInTable(rest, table) && Members(rest) == Members(pot) - drawn && drawn <= Members(pot)
  }

  /** The group side of a pot's draw: what the placements of the teams in drawn did to the state d0. */
  ghost predicate StateGrown(d0: Draw, d: Draw, n: nat, pot: seq<Team>, drawn: set<Team>)
  {
    |d.groups| == NumGroups && |d.slots| == NumGroups
    && d.assignments.Keys == d0.assignments.Keys + drawn
    && Extends(d0, d, n, pot)
    && Total(d.groups) == Total(d0.groups) + |drawn|
    && StateKept(d0, d, pot)
  }

  /** The invariants of the draw state that a pot's placements keep. */
  ghost predicate StateKept(d0: Draw, d: Draw, pot: seq<Team>)
  {
    (RuleHolds(d0.groups) ==> RuleHolds(d.groups))
    && (SlotsAccounted(d0) ==> SlotsAccounted(d))
    && (Consistent(d0) && Members(pot) !! d0.assignments.Keys ==> Consistent(d))
  }

  /** What holds of a pot's draw after the teams in drawn have been placed, rest being the pot left. */
  ghost predicate PotProgress(d0: Draw, d: Draw, n: nat, pot: seq<Team>, rest: seq<Team>, drawn: set<Team>, table: map<Team, Conf>)
  {
    PotLeftOver(pot, rest, drawn, table) && StateGrown(d0, d, n, pot, drawn)
  }

  lemma PotProgressStarts(d0: Draw, n: nat, pot: seq<Team>, table: map<Team, Conf>)
    requires |d0.groups| == NumGroups && |d0.slots| == NumGroups && AllInTable(pot, table)
    ensures PotProgress(d0, d0, n, pot, pot, {}, table)
  {
  }

  /** The groups after one placement: group g grows by one entry, the others stay. */
  lemma PlacementExtends(d0: Draw, d: Draw, n: nat, pot: seq<Team>, t: Team, c: Conf, g: nat, s: Slot)
    requires Extends(d0, d, n, pot) && |d.groups| == NumGroups && |d.slots| == NumGroups
    requires g < NumGroups && s in d.slots[g] && |d.groups[g]| < n && t in Members(pot)
    ensures Extends(d0, Record(d, t, c, g, s), n, pot)
  {
    var r := Record(d, t, c, g, s);
    forall h | 0 <= h < |d0.groups| ensures GroupExtends(d0.groups[h], r.groups[h], n, pot) {
      assert GroupExtends(d0.groups[h], d.groups[h], n, pot);
      if h == g {
        assert r.groups[g] == d.groups[g] + [Entry(t, Some(s), c)];
      }
    }
  }

  /** A drawn team leaves the pot and joins the drawn set. */
  lemma PotLeftOverDraws(pot: seq<Team>, rest: seq<Team>, drawn: set<Team>, table: map<Team, Conf>, t: Team)
    requires PotLeftOver(pot, rest, drawn, table) && t in rest
    ensures t in Members(pot) && t !in drawn && |drawn + {t}| == |drawn| + 1
    ensures PotLeftOver(pot, Without(rest, t), drawn + {t}, table)
  {
    assert t in Members(rest);
    WithoutMembers(rest, t);
    WithoutInTable(rest, t, table);
  }

  /** Placing a team in a group that admits it keeps the invariants of the state; consistency needs the team unplaced. */
  lemma StateKeptPlacing(d0: Draw, d: Draw, pot: seq<Team>, t: Team, c: Conf, g: nat, s: Slot)
    requires StateKept(d0, d, pot) && |d.groups| == NumGroups && |d.slots| == NumGroups
    requires g < NumGroups && s in d.slots[g] && Admits(d.groups[g], c)
    requires Consistent(d0) && Members(pot) !! d0.assignments.Keys ==> t !in d.assignments
    ensures StateKept(d0, Record(d, t, c, g, s), pot)
  {
    if RuleHolds(d0.groups) {
      AdmittedKeepsRule(d.groups, g, Entry(t, Some(s), c));
    }
    if SlotsAccounted(d0) {
      RecordKeepsSlots(d, t, c, g, s);
    }
    if Consistent(d0) && Members(pot) !! d0.assignments.Keys {
      RecordKeepsConsistent(d, t, c, g, s);
    }
  }

  /** One placement adds its team to the keys of the assignment map. */
  lemma KeysPlacing(d0: Draw, d: Draw, drawn: set<Team>, t: Team, c: Conf, g: nat, s: Slot)
    requires g < |d.groups| && g < |d.slots| && s in d.slots[g]
    requires d.assignments.Keys == d0.assignments.Keys + drawn && t !in drawn
    ensures Record(d, t, c, g, s).assignments.Keys == d0.assignments.Keys + (drawn + {t})
    ensures |drawn + {t}| == |drawn| + 1
  {
  }

  lemma StateGrownPlacing(strategy: Strategy, d0: Draw, d: Draw, n: nat, pot: seq<Team>, drawn: set<Team>,
                          table: map<Team, Conf>, t: Team, rest: seq<Team>, g: nat, s: Slot)
    requires StateGrown(d0, d, n, pot, drawn)
    requires t in Members(pot) && t !in drawn && t in table && AllInTable(rest, table)
    requires FirstQualifying(strategy, d.groups, t, rest, n, table, g) && s in d.slots[g]
    ensures StateGrown(d0, Record(d, t, table[t], g, s), n, pot, drawn + {t})
  {
    assert Open(d.groups, g, table[t], n);
    PlacementExtends(d0, d, n, pot, t, table[t], g, s);
    KeysPlacing(d0, d, drawn, t, table[t], g, s);
    TotalPlaced(d.groups, g, Entry(t, Some(s), table[t]));
    StateKeptPlacing(d0, d, pot, t, table[t], g, s);
  }

  lemma PotProgressSteps(strategy: Strategy, d0: Draw, d: Draw, n: nat, pot: seq<Team>, rest: seq<Team>, drawn: set<Team>,
                         table: map<Team, Conf>, t: Team, g: nat, s: Slot)
    requires PotProgress(d0, d, n, pot, rest, drawn, table) && t in rest && t in table
    requires AllInTable(Without(rest, t), table)
    requires FirstQualifying(strategy, d.groups, t, Without(rest, t), n, table, g) && s in d.slots[g]
    ensures |drawn + {t}| == |drawn| + 1
    ensures PotProgress(d0, Record(d, t, table[t], g, s), n, pot, Without(rest, t), drawn + {t}, table)
  {
    PotLeftOverDraws(pot, rest, drawn, table, t);
    StateGrownPlacing(strategy, d0, d, n, pot, drawn, table, t, Without(rest, t), g, s);
  }

  /** At the end of the loop the pot is empty or twelve teams are drawn: min(12, pot size) teams in all. */
  lemma PotProgressEnds(d0: Draw, d: Draw, n: nat, pot: seq<Team>, rest: seq<Team>, drawn: set<Team>, table: map<Team, Conf>)
    requires PotProgress(d0, d, n, pot, rest, drawn, table)
    requires rest == [] || |drawn| == NumGroups
    requires |drawn| <= NumGroups
    ensures |drawn| == Min(NumGroups, |Members(pot)|)
    ensures |Members(pot)| <= NumGroups ==> Members(pot) <= d.assignments.Keys
  {
    SubsetCard(drawn, Members(pot));
    if rest == [] {
      assert Members(rest) == {};
      assert Members(pot) == drawn;
    } else if |Members(pot)| <= NumGroups {
      SameCardSubset(drawn, Members(pot));
    }
  }

  lemma SameCardSubset<T>(a: set<T>, b: set<T>)
    requires a <= b && |b| <= |a|
    ensures a == b
  {
    assert |b - a| == |b| - |a|;
  }

  // ---------------------------------------------------------------------
  // No dead end with the backtracking lookahead
  // ---------------------------------------------------------------------

  lemma WithoutConcat(a: seq<Team>, b: seq<Team>, t: Team)
    ensures Without(a + b, t) == Without(a, t) + Without(b, t)
    decreases |a|
  {
    if a != [] {
      var ab := a + b;
      assert ab[0] == a[0] && ab[1..] == a[1..] + b;
      WithoutConcat(a[1..], b, t);
      var head := if a[0] == t then [] else [a[0]];
      calc {
        Without(ab, t);
        head + Without(a[1..] + b, t);
        head + (Without(a[1..], t) + Without(b, t));
        (head + Without(a[1..], t)) + Without(b, t);
        Without(a, t) + Without(b, t);
      }
    } else {
      assert a + b == b;
    }
  }

  /** Removing every copy of t from the remaining teams at index j is removing t from the list with that one entry cut out. */
  lemma WithoutCut(rest: seq<Team>, t: Team, j: nat)
    requires j < |rest| && rest[j] == t
    ensures Without(rest[..j] + rest[j + 1..], t) == Without(rest, t)
  {
    assert rest == rest[..j] + ([t] + rest[j + 1..]);
    WithoutConcat(rest[..j], [t] + rest[j + 1..], t);
    WithoutConcat([t], rest[j + 1..], t);
    WithoutConcat(rest[..j], rest[j + 1..], t);
  }

  /** Teams that can all be placed can still be placed with some of them taken away. */
  lemma {:induction false} CompletableWithout(xs: seq<Team>, gs: seq<seq<Entry>>, cap: int, table: map<Team, Conf>, t: Team)
    requires AllInTable(xs, table) && Completable(xs, gs, cap, table)
    ensures AllInTable(Without(xs, t), table) && Completable(Without(xs, t), gs, cap, table)
    decreases |xs|
  {
    WithoutInTable(xs, t, table);
    if xs != [] {
      var g :| 0 <= g < |gs| && PlaceableIn(xs, gs, g, cap, table);
      var e := Pending(xs[0], table);
      CompletableWithout(xs[1..], Placed(gs, g, e), cap, table, t);
      if xs[0] == t {
        BelowPlaced(gs, g, e);
        CompletableBelow(Without(xs[1..], t), gs, Placed(gs, g, e), cap, table);
        assert [] + Without(xs[1..], t) == Without(xs[1..], t);
        assert Without(xs, t) == Without(xs[1..], t);
      } else {
        var w := Without(xs, t);
        assert w[0] == xs[0] && w[1..] == Without(xs[1..], t);
        assert PlaceableIn(w, gs, g, cap, table);
        assert Completable(w, gs, cap, table);
      }
    } else {
      assert Without(xs, t) == [];
    }
  }

  /** While the teams left can all be placed, the backtracking search finds a group for any of them. */
  lemma BacktrackingFinds(gs: seq<seq<Entry>>, rest: seq<Team>, t: Team, cap: int, table: map<Team, Conf>)
    requires AllInTable(rest, table) && t in rest && Completable(rest, gs, cap, table)
    ensures AllInTable(Without(rest, t), table)
    ensures !NoneQualifies(Backtracking, gs, t, Without(rest, t), cap, table)
  {
    var j :| 0 <= j < |rest| && rest[j] == t;
    var cut := rest[..j] + rest[j + 1..];
    MovedInTable(rest, table, j);
    MoveToFront(rest, gs, cap, table, j);
    var moved := [t] + cut;
    assert Completable(moved, gs, cap, table);
    assert moved[0] == t && moved[1..] == cut;
    var g :| 0 <= g < |gs| && PlaceableIn(moved, gs, g, cap, table);
    CompletableWithout(cut, Simulate(gs, g, t, table), cap, table, t);
    WithoutCut(rest, t, j);
    assert Qualifies(Backtracking, gs, g, t, Without(rest, t), cap, table);
  }

  /** After a backtracking placement the teams left can still all be placed. */
  lemma BacktrackingKeepsCompletable(d: Draw, rest: seq<Team>, t: Team, cap: int, table: map<Team, Conf>, g: nat, s: Slot)
    requires t in table && AllInTable(rest, table)
    requires FirstQualifying(Backtracking, d.groups, t, rest, cap, table, g) && g < |d.slots| && s in d.slots[g]
    ensures Completable(rest, Record(d, t, table[t], g, s).groups, cap, table)
  {
    var sim := Simulate(d.groups, g, t, table);
    assert Completable(rest, sim, cap, table);
    assert Below(d.groups, d.groups);
    PlacedBelow(d.groups, d.groups, g, Entry(t, Some(s), table[t]), Pending(t, table));
    CompletableBelow(rest, Record(d, t, table[t], g, s).groups, sim, cap, table);
  }

  /** What a successful pot draw promises of the state it returns, from the state it started from. */
  ghost predicate PotDrawn(d0: Draw, d: Draw, n: nat, pot: seq<Team>)
  {
    |d.groups| == NumGroups && |d.slots| == NumGroups && Extends(d0, d, n, pot)
    && d0.assignments.Keys <= d.assignments.Keys <= d0.assignments.Keys + Members(pot)
    && (|Members(pot)| <= NumGroups ==> Members(pot) <= d.assignments.Keys)
    && Total(d.groups) == Total(d0.groups) + Min(NumGroups, |Members(pot)|)
    && (RuleHolds(d0.groups) ==> RuleHolds(d.groups))
    && (SlotsAccounted(d0) ==> SlotsAccounted(d))
    && (Consistent(d0) && Members(pot) !! d0.assignments.Keys ==> Consistent(d))
  }

  // ---------------------------------------------------------------------
  // The course of a pot's draw
  // ---------------------------------------------------------------------

  /**
   * Drawing t from rest leaves left, and the placement goes to the first
   * qualifying group g, into its free slot s, giving next.
   */
  ghost predicate StepBy(strategy: Strategy, n: nat, d: Draw, rest: seq<Team>, next: Draw, left: seq<Team>,
                         table: map<Team, Conf>, t: Team, g: nat, s: Slot)
  {
    t in rest && t in table && left == Without(rest, t) && AllInTable(left, table)
    && g < |d.groups| && g < |d.slots|
    && FirstQualifying(strategy, d.groups, t, left, n, table, g)
    && s in d.slots[g] && next == Record(d, t, table[t], g, s)
  }

  /** One turn of a pot's loop that places its drawn team. */
  ghost predicate DrawStep(strategy: Strategy, n: nat, d: Draw, rest: seq<Team>, next: Draw, left: seq<Team>, table: map<Team, Conf>)
  {
    exists t, g, s :: StepBy(strategy, n, d, rest, next, left, table, t, g, s)
  }

  /** Team t, drawn from rest, finds no group that passes the three tests in state d: the ValueError. */
  ghost predicate Stuck(strategy: Strategy, n: nat, d: Draw, rest: seq<Team>, t: Team, table: map<Team, Conf>)
  {
    t in rest && t in table && AllInTable(Without(rest, t), table)
    && NoneQualifies(strategy, d.groups, t, Without(rest, t), n, table)
  }

  /** The states and pots left of a pot's draw so far: trace[k + 1] comes from trace[k] by one placement. */
  ghost predicate Traced(strategy: Strategy, n: nat, d0: Draw, pot: seq<Team>, trace: seq<Draw>, pots: seq<seq<Team>>,
                         table: map<Team, Conf>)
  {
    1 <= |trace| == |pots| <= NumGroups + 1 && trace[0] == d0 && pots[0] == pot
    && forall k :: 0 <= k < |trace| - 1 ==> DrawStep(strategy, n, trace[k], pots[k], trace[k + 1], pots[k + 1], table)
  }

  /** The course and outcome of one pot's draw. */
  datatype PotRun = PotRun(result: Result<Draw>, trace: seq<Draw>, pots: seq<seq<Team>>)

  /**
   * How a pot's draw went: a chain of placements from d0; on success the last
   * state, reached when the pot ran dry or after twelve placements; on the
   * ValueError the team drawn last was stuck in the last state.
   */
  ghost predicate PotOutcome(strategy: Strategy, n: nat, pot: seq<Team>, d0: Draw, run: PotRun, table: map<Team, Conf>)
  {
    Traced(strategy, n, d0, pot, run.trace, run.pots, table)
    && var last, left := run.trace[|run.trace| - 1], run.pots[|run.pots| - 1];
    (run.result.Ok? ==> run.result.value == last && (left == [] || |run.trace| == NumGroups + 1))
    && (run.result.Err? ==> |run.trace| <= NumGroups && left != [])
    && (run.result.Err? && run.result.error.NoValidGroup? ==> Stuck(strategy, n, last, left, run.result.error.team, table))
  }

  lemma TracedStarts(strategy: Strategy, n: nat, d0: Draw, pot: seq<Team>, table: map<Team, Conf>)
    ensures Traced(strategy, n, d0, pot, [d0], [pot], table)
  {
  }

  lemma TracedGrows(strategy: Strategy, n: nat, d0: Draw, pot: seq<Team>, trace: seq<Draw>, pots: seq<seq<Team>>,
                    next: Draw, left: seq<Team>, table: map<Team, Conf>)
    requires Traced(strategy, n, d0, pot, trace, pots, table) && |trace| <= NumGroups
    requires DrawStep(strategy, n, trace[|trace| - 1], pots[|pots| - 1], next, left, table)
    ensures Traced(strategy, n, d0, pot, trace + [next], pots + [left], table)
  {
    var t2, p2 := trace + [next], pots + [left];
    forall k | 0 <= k < |t2| - 1 ensures DrawStep(strategy, n, t2[k], p2[k], t2[k + 1], p2[k + 1], table) {
      if k < |trace| - 1 {
        assert t2[k] == trace[k] && t2[k + 1] == trace[k + 1] && p2[k] == pots[k] && p2[k + 1] == pots[k + 1];
      }
    }
  }

  lemma OutcomeOnError(strategy: Strategy, n: nat, pot: seq<Team>, d0: Draw, trace: seq<Draw>, pots: seq<seq<Team>>,
                        e: DrawError, table: map<Team, Conf>)
    requires Traced(strategy, n, d0, pot, trace, pots, table) && |trace| <= NumGroups && pots[|pots| - 1] != []
    requires e.NoValidGroup? ==> Stuck(strategy, n, trace[|trace| - 1], pots[|pots| - 1], e.team, table)
    ensures PotOutcome(strategy, n, pot, d0, PotRun(Err(e), trace, pots), table)
  {
  }

  lemma OutcomeOnSuccess(strategy: Strategy, n: nat, pot: seq<Team>, d0: Draw, trace: seq<Draw>, pots: seq<seq<Team>>,
                         table: map<Team, Conf>)
    requires Traced(strategy, n, d0, pot, trace, pots, table)
    requires pots[|pots| - 1] == [] || |trace| == NumGroups + 1
    ensures PotOutcome(strategy, n, pot, d0, PotRun(Ok(trace[|trace| - 1]), trace, pots), table)
  {
  }

  /**
   * The state of a pot's loop after |drawn| placements: the pot invariant, the
   * backtracking no-dead-end invariant, and the trace of the states so far.
   */
  ghost predicate PotState(strategy: Strategy, n: nat, d0: Draw, pot: seq<Team>, d: Draw, rest: seq<Team>, drawn: set<Team>,
                           trace: seq<Draw>, pots: seq<seq<Team>>, table: map<Team, Conf>)
  {
    AllInTable(pot, table) && PotProgress(d0, d, n, pot, rest, drawn, table)
    && (strategy == Backtracking && Completable(pot, d0.groups, n, table) ==> Completable(rest, d.groups, n, table))
    && Traced(strategy, n, d0, pot, trace, pots, table)
    && |trace| == |drawn| + 1 && trace[|trace| - 1] == d && pots[|pots| - 1] == rest
  }

  lemma PotStateStarts(strategy: Strategy, n: nat, d0: Draw, pot: seq<Team>, table: map<Team, Conf>)
    requires |d0.groups| == NumGroups && |d0.slots| == NumGroups && AllInTable(pot, table)
    ensures PotState(strategy, n, d0, pot, d0, pot, {}, [d0], [pot], table)
  {
    PotProgressStarts(d0, n, pot, table);
    TracedStarts(strategy, n, d0, pot, table);
  }

  lemma PotStateSteps(strategy: Strategy, n: nat, d0: Draw, pot: seq<Team>, d: Draw, rest: seq<Team>, drawn: set<Team>,
                      trace: seq<Draw>, pots: seq<seq<Team>>, next: Draw, left: seq<Team>, now: set<Team>, table: map<Team, Conf>)
    requires PotState(strategy, n, d0, pot, d, rest, drawn, trace, pots, table) && |drawn| < NumGroups
    requires |now| == |drawn| + 1 && PotProgress(d0, next, n, pot, left, now, table)
    requires strategy == Backtracking && Completable(rest, d.groups, n, table) ==> Completable(left, next.groups, n, table)
    requires DrawStep(strategy, n, d, rest, next, left, table)
    ensures PotState(strategy, n, d0, pot, next, left, now, trace + [next], pots + [left], table)
  {
    TracedGrows(strategy, n, d0, pot, trace, pots, next, left, table);
  }

  lemma PotStateEnds(strategy: Strategy, n: nat, d0: Draw, pot: seq<Team>, d: Draw, rest: seq<Team>, drawn: set<Team>,
                     trace: seq<Draw>, pots: seq<seq<Team>>, table: map<Team, Conf>)
    requires PotState(strategy, n, d0, pot, d, rest, drawn, trace, pots, table)
    requires rest == [] || |drawn| == NumGroups
    requires |drawn| <= NumGroups
    ensures PotDrawn(d0, d, n, pot)
    ensures PotOutcome(strategy, n, pot, d0, PotRun(Ok(d), trace, pots), table)
  {
    PotProgressEnds(d0, d, n, pot, rest, drawn, table);
    OutcomeOnSuccess(strategy, n, pot, d0, trace, pots, table);
  }

  /**
   * One turn of a pot's loop: draw a team from what is left of the pot, take
   * it out and place it.
   */
  method DrawNext(strategy: Strategy, n: nat, ghost pot: seq<Team>, ghost d0: Draw, d: Draw, rest: seq<Team>,
                  ghost drawn: set<Team>, table: map<Team, Conf>)
    returns (r: Result<Draw>, left: seq<Team>, ghost now: set<Team>)
    requires rest != [] && PotProgress(d0, d, n, pot, rest, drawn, table)
    ensures r.Ok? ==> |now| == |drawn| + 1 && PotProgress(d0, r.value, n, pot, left, now, table)
    ensures r.Ok? && strategy == Backtracking && Completable(rest, d.groups, n, table) ==> Completable(left, r.value.groups, n, table)
    ensures r.Err? ==> (r.error.NoValidGroup? && r.error.team in Members(pot)) || r.error.NoFreeSlot?
    ensures SlotsAccounted(d0) && n <= SlotsPerGroup ==> !(r.Err? && r.error.NoFreeSlot?)
    ensures strategy == Backtracking && Completable(rest, d.groups, n, table) ==> !(r.Err? && r.error.NoValidGroup?)
    ensures r.Ok? ==> DrawStep(strategy, n, d, rest, r.value, left, table)
    ensures r.Err? && r.error.NoValidGroup? ==> Stuck(strategy, n, d, rest, r.error.team, table)
  {
    assert rest[0] in rest;
    var t :| t in rest;
    MemberInTable(rest, t, table);
    left := Without(rest, t);
    WithoutInTable(rest, t, table);
    if strategy == Backtracking && Completable(rest, d.groups, n, table) {
      BacktrackingFinds(d.groups, rest, t, n, table);
    }
    r := PlaceTeam(strategy, n, t, left, d, table);
    if r.Err? {
      assert t in Members(rest);
      return r, left, drawn;
    }
    var a := r.value.assignments[t];
    assert StepBy(strategy, n, d, rest, r.value, left, table, t, a.group, a.slot);
    PotProgressSteps(strategy, d0, d, n, pot, rest, drawn, table, t, a.group, a.slot);
    if strategy == Backtracking {
      BacktrackingKeepsCompletable(d, left, t, n, table, a.group, a.slot);
    }
    now := drawn + {t};
  }

  /**
   * sortear_bombo_n (and each pot loop of the script): at most twelve times,
   * stop if the pot is empty, draw a team, take it out of the pot and place it.
   */
  method DrawPot(strategy: Strategy, n: nat, pot: seq<Team>, d0: Draw, table: map<Team, Conf>)
    returns (r: Result<Draw>, ghost run: PotRun)
    requires |d0.groups| == NumGroups && |d0.slots| == NumGroups && AllInTable(pot, table)
    ensures run.result == r && PotOutcome(strategy, n, pot, d0, run, table)
    ensures r.Ok? ==> PotDrawn(d0, r.value, n, pot)
    ensures r.Err? ==> (r.error.NoValidGroup? && r.error.team in Members(pot)) || r.error.NoFreeSlot?
    ensures SlotsAccounted(d0) && n <= SlotsPerGroup ==> !(r.Err? && r.error.NoFreeSlot?)
    ensures strategy == Backtracking && Completable(pot, d0.groups, n, table) ==> !(r.Err? && r.error.NoValidGroup?)
  {
    var d := d0;
    var rest := pot;
    ghost var drawn: set<Team> := {};
    ghost var trace, pots := [d0], [pot];
    PotStateStarts(strategy, n, d0, pot, table);
    var i := 0;
    while i < NumGroups
      invariant i <= NumGroups && |drawn| == i
      invariant PotState(strategy, n, d0, pot, d, rest, drawn, trace, pots, table)
    {
      if rest == [] {
        break;
      }
      var placed, left, now := DrawNext(strategy, n, pot, d0, d, rest, drawn, table);
      if placed.Err? {
        OutcomeOnError(strategy, n, pot, d0, trace, pots, placed.error, table);
        r := Err(placed.error);
        run := PotRun(r, trace, pots);
        return;
      }
      PotStateSteps(strategy, n, d0, pot, d, rest, drawn, trace, pots, placed.value, left, now, table);
      d, rest, drawn := placed.value, left, now;
      trace, pots := trace + [d], pots + [rest];
      i := i + 1;
    }
    PotStateEnds(strategy, n, d0, pot, d, rest, drawn, trace, pots, table);
    r := Ok(d);
    run := PotRun(r, trace, pots);
  }

  // ---------------------------------------------------------------------
  // The whole draw
  // ---------------------------------------------------------------------

  /** The teams of pots 2 to 4 differ from each other, from pot 1 and from the hosts. */
  ghost predicate PotsDisjoint(p1: seq<Team>, p2: seq<Team>, p3: seq<Team>, p4: seq<Team>)
  {
    Members(p2) !! Members(p1) + Hosts
    && Members(p3) !! Members(p1) + Hosts + Members(p2)
    && Members(p4) !! Members(p1) + Hosts + Members(p2) + Members(p3)
  }

  /** The host of a host group: MEX for A, CAN for B, USA for D. */
  function HostOf(g: nat): Team
    requires IsHostGroup(g)
  {
    if g == 0 then "MEX" else if g == 1 then "CAN" else "USA"
  }

  /** Group g opens with its pot-1 team in slot g1: its host for A, B and D, a seed of pot 1 for the others. */
  ghost predicate HeadOf(d: Draw, g: nat, p1: seq<Team>, table: map<Team, Conf>)
    requires g < |d.groups|
  {
    |d.groups[g]| >= 1
    && var e := d.groups[g][0];
    e.slot == Some(Slot(g, 1)) && e.code in table && e.conf == table[e.code]
    && (if IsHostGroup(g) then e.code == HostOf(g) else e.code in Members(p1) - Hosts)
  }

  ghost predicate Heads(d: Draw, p1: seq<Team>, table: map<Team, Conf>)
  {
    |d.groups| == NumGroups && forall g :: 0 <= g < NumGroups ==> HeadOf(d, g, p1, table)
  }

  /** Every group holds exactly k teams. */
  ghost predicate Layer(d: Draw, k: nat)
  {
    |d.groups| == NumGroups && forall g :: 0 <= g < NumGroups ==> |d.groups[g]| == k
  }

  /** No group holds more than k teams. */
  ghost predicate AtMost(d: Draw, k: nat)
  {
    |d.groups| == NumGroups && forall g :: 0 <= g < NumGroups ==> |d.groups[g]| <= k
  }

  /** After pot 1 every group opens with its host or seed and holds that team alone. */
  lemma PotOneHeads(d: Draw, p1: seq<Team>, table: map<Team, Conf>)
    requires PotOneDone(d, p1, table)
    ensures Heads(d, p1, table) && Layer(d, 1)
  {
    forall g | 0 <= g < NumGroups ensures HeadOf(d, g, p1, table) && |d.groups[g]| == 1 {
      assert SeedOf(d, g, p1, table);
    }
  }

  /** A pot's draw only appends: the entries a group held before keep their places. */
  lemma PrefixKept(d0: Draw, d: Draw, n: nat, pot: seq<Team>, g: nat, i: nat)
    requires Extends(d0, d, n, pot) && g < |d0.groups| && i < |d0.groups[g]|
    ensures i < |d.groups[g]| && d.groups[g][i] == d0.groups[g][i]
  {
    assert GroupExtends(d0.groups[g], d.groups[g], n, pot);
  }

  lemma HeadsKept(d0: Draw, d: Draw, n: nat, pot: seq<Team>, p1: seq<Team>, table: map<Team, Conf>)
    requires Heads(d0, p1, table) && Extends(d0, d, n, pot)
    ensures Heads(d, p1, table)
  {
    forall g | 0 <= g < NumGroups ensures HeadOf(d, g, p1, table) {
      assert HeadOf(d0, g, p1, table);
      PrefixKept(d0, d, n, pot, g, 0);
    }
  }

  /** Groups of at most n - 1 teams, grown by a pot of number n, hold at most n. */
  lemma AtMostGrows(d0: Draw, d: Draw, n: nat, pot: seq<Team>)
    requires 1 <= n && AtMost(d0, n - 1) && Extends(d0, d, n, pot)
    ensures AtMost(d, n)
  {
    forall g | 0 <= g < NumGroups ensures |d.groups[g]| <= n {
      assert GroupExtends(d0.groups[g], d.groups[g], n, pot);
    }
  }

  /**
   * Pigeonhole: when every group holds n - 1 teams and a pot of twelve or more
   * teams is drawn in full, every group ends with n teams, the n-th from that pot.
   */
  lemma FullPotFillsLayer(d0: Draw, d: Draw, n: nat, pot: seq<Team>)
    requires 1 <= n && Layer(d0, n - 1) && PotDrawn(d0, d, n, pot) && |Members(pot)| >= NumGroups
    ensures Layer(d, n)
    ensures forall g :: 0 <= g < NumGroups ==> d.groups[g][n - 1].code in Members(pot)
  {
    TotalUniform(d0.groups, n - 1);
    AtMostGrows(d0, d, n, pot);
    TotalFull(d.groups, n);
    forall g | 0 <= g < NumGroups ensures d.groups[g][n - 1].code in Members(pot) {
      assert GroupExtends(d0.groups[g], d.groups[g], n, pot);
    }
  }

  /** What every successful draw promises: the rule, the slot bookkeeping, the pot-1 heads, at most four teams a group. */
  ghost predicate DrawSound(d: Draw, p1: seq<Team>, p2: seq<Team>, p3: seq<Team>, p4: seq<Team>, table: map<Team, Conf>)
  {
    RuleHolds(d.groups) && SlotsAccounted(d) && Heads(d, p1, table) && AtMost(d, SlotsPerGroup)
    && d.assignments.Keys <= Hosts + Members(p1) + Members(p2) + Members(p3) + Members(p4)
  }

  /** A complete draw: every group holds four teams, its k-th team drawn from pot k. */
  ghost predicate FullDraw(d: Draw, p1: seq<Team>, p2: seq<Team>, p3: seq<Team>, p4: seq<Team>, table: map<Team, Conf>)
  {
    Layer(d, SlotsPerGroup) && Heads(d, p1, table)
    && forall g :: 0 <= g < NumGroups ==>
         d.groups[g][1].code in Members(p2) && d.groups[g][2].code in Members(p3) && d.groups[g][3].code in Members(p4)
  }

  lemma ChainSound(d1: Draw, d2: Draw, d3: Draw, d4: Draw, p1: seq<Team>, p2: seq<Team>, p3: seq<Team>, p4: seq<Team>, table: map<Team, Conf>)
    requires PotOneDone(d1, p1, table) && PotDrawn(d1, d2, 2, p2) && PotDrawn(d2, d3, 3, p3) && PotDrawn(d3, d4, 4, p4)
    ensures DrawSound(d4, p1, p2, p3, p4, table)
  {
    PotOneHeads(d1, p1, table);
    HeadsKept(d1, d2, 2, p2, p1, table);
    HeadsKept(d2, d3, 3, p3, p1, table);
    HeadsKept(d3, d4, 4, p4, p1, table);
    AtMostGrows(d1, d2, 2, p2);
    AtMostGrows(d2, d3, 3, p3);
    AtMostGrows(d3, d4, 4, p4);
  }

  lemma ChainConsistent(d1: Draw, d2: Draw, d3: Draw, d4: Draw, p1: seq<Team>, p2: seq<Team>, p3: seq<Team>, p4: seq<Team>, table: map<Team, Conf>)
    requires PotOneDone(d1, p1, table) && PotDrawn(d1, d2, 2, p2) && PotDrawn(d2, d3, 3, p3) && PotDrawn(d3, d4, 4, p4)
    requires PotsDisjoint(p1, p2, p3, p4)
    ensures Consistent(d4)
  {
    assert Members(p2) !! d1.assignments.Keys;
    assert Members(p3) !! d2.assignments.Keys;
    assert Members(p4) !! d3.assignments.Keys;
  }

  lemma ChainFull(d1: Draw, d2: Draw, d3: Draw, d4: Draw, p1: seq<Team>, p2: seq<Team>, p3: seq<Team>, p4: seq<Team>, table: map<Team, Conf>)
    requires PotOneDone(d1, p1, table) && PotDrawn(d1, d2, 2, p2) && PotDrawn(d2, d3, 3, p3) && PotDrawn(d3, d4, 4, p4)
    requires |Members(p2)| >= NumGroups && |Members(p3)| >= NumGroups && |Members(p4)| >= NumGroups
    ensures FullDraw(d4, p1, p2, p3, p4, table)
  {
    PotOneHeads(d1, p1, table);
    FullPotFillsLayer(d1, d2, 2, p2);
    FullPotFillsLayer(d2, d3, 3, p3);
    FullPotFillsLayer(d3, d4, 4, p4);
    HeadsKept(d1, d2, 2, p2, p1, table);
    HeadsKept(d2, d3, 3, p3, p1, table);
    HeadsKept(d3, d4, 4, p4, p1, table);
    forall g | 0 <= g < NumGroups
      ensures d4.groups[g][1].code in Members(p2) && d4.groups[g][2].code in Members(p3)
    {
      PrefixKept(d2, d3, 3, p3, g, 1);
      PrefixKept(d3, d4, 4, p4, g, 1);
      PrefixKept(d3, d4, 4, p4, g, 2);
    }
  }

  /**
   * Pots 2, 3 and 4 of the script, each drawn with the chosen lookahead on the
   * state the previous pot left; the first error stops the draw.
   */
  method DrawLaterPots(strategy: Strategy, d1: Draw, p2: seq<Team>, p3: seq<Team>, p4: seq<Team>, table: map<Team, Conf>)
    returns (r: Result<Draw>, ghost run2: PotRun, ghost run3: PotRun, ghost run4: PotRun)
    requires |d1.groups| == NumGroups && |d1.slots| == NumGroups && SlotsAccounted(d1)
    requires AllInTable(p2, table) && AllInTable(p3, table) && AllInTable(p4, table)
    ensures PotOutcome(strategy, 2, p2, d1, run2, table)
    ensures run2.result.Ok? ==> PotOutcome(strategy, 3, p3, run2.result.value, run3, table)
    ensures run2.result.Ok? && run3.result.Ok? ==> PotOutcome(strategy, 4, p4, run3.result.value, run4, table)
    ensures r == if run2.result.Err? then run2.result else if run3.result.Err? then run3.result else run4.result
    ensures r.Ok? ==> PotDrawn(d1, run2.result.value, 2, p2) && PotDrawn(run2.result.value, run3.result.value, 3, p3)
                      && PotDrawn(run3.result.value, r.value, 4, p4)
    ensures r.Err? ==> r.error.NoValidGroup? && r.error.team in Members(p2) + Members(p3) + Members(p4)
  {
    run3 := PotRun(Ok(d1), [], []);
    run4 := run3;
    var two;
    two, run2 := DrawPot(strategy, 2, p2, d1, table);
    if two.Err? {
      return two, run2, run3, run4;
    }
    var three;
    three, run3 := DrawPot(strategy, 3, p3, two.value, table);
    if three.Err? {
      return three, run2, run3, run4;
    }
    r, run4 := DrawPot(strategy, 4, p4, three.value, table);
  }

  /**
   * The whole draw of the script simular_sorteo.py: pot 1, then pots 2, 3
   * and 4 with the chosen lookahead, each on the state the previous pot left.
   * The first error (an exception in the script) stops the draw. The ghost
   * results give the state after pot 1 and the course of pots 2 to 4.
   */
  method RunDraw(strategy: Strategy, p1: seq<Team>, p2: seq<Team>, p3: seq<Team>, p4: seq<Team>, table: map<Team, Conf>)
    returns (r: Result<Draw>, ghost d1: Draw, ghost run2: PotRun, ghost run3: PotRun, ghost run4: PotRun)
    requires "MEX" in table && "CAN" in table && "USA" in table
    requires AllInTable(p1, table) && AllInTable(p2, table) && AllInTable(p3, table) && AllInTable(p4, table)
    ensures r.Err? ==> r.error == EmptyPot || (r.error.NoValidGroup? && r.error.team in Members(p2) + Members(p3) + Members(p4))
    ensures r.Err? && r.error == EmptyPot <==> |Members(p1) - Hosts| < NumGroups - 3
    ensures r.Ok? ==> DrawSound(r.value, p1, p2, p3, p4, table)
    ensures r.Ok? && PotsDisjoint(p1, p2, p3, p4) ==> Consistent(r.value)
    ensures r.Ok? && |Members(p2)| >= NumGroups && |Members(p3)| >= NumGroups && |Members(p4)| >= NumGroups
            ==> FullDraw(r.value, p1, p2, p3, p4, table)
    ensures r != Err(EmptyPot) ==> PotOneDone(d1, p1, table) && PotOutcome(strategy, 2, p2, d1, run2, table)
    ensures r != Err(EmptyPot) && run2.result.Ok? ==> PotOutcome(strategy, 3, p3, run2.result.value, run3, table)
    ensures r != Err(EmptyPot) && run2.result.Ok? && run3.result.Ok? ==> PotOutcome(strategy, 4, p4, run3.result.value, run4, table)
    ensures r != Err(EmptyPot) ==>
              r == if run2.result.Err? then run2.result else if run3.result.Err? then run3.result else run4.result
  {
    d1 := Initial();
    run2 := PotRun(Ok(d1), [], []);
    run3, run4 := run2, run2;
    var one := DrawPotOne(p1, table);
    if one.Err? {
      r := Err(one.error);
      return;
    }
    var first := one.value;
    d1 := first;
    r, run2, run3, run4 := DrawLaterPots(strategy, first, p2, p3, p4, table);
    if r.Ok? {
      ghost var d2, d3 := run2.result.value, run3.result.value;
      ChainSound(d1, d2, d3, r.value, p1, p2, p3, p4, table);
      if PotsDisjoint(p1, p2, p3, p4) {
        ChainConsistent(d1, d2, d3, r.value, p1, p2, p3, p4, table);
      }
      if |Members(p2)| >= NumGroups && |Members(p3)| >= NumGroups && |Members(p4)| >= NumGroups {
        ChainFull(d1, d2, d3, r.value, p1, p2, p3, p4, table);
      }
    }
  }
}
