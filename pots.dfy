/// The pot procedures of the draw: pot 1 (hosts and seeds, sortear_bombo_1 and
/// the first part of the simular_sorteo.py script) and pots 2 to 4
/// (sortear_bombo_n and the three pot loops of the script), over an explicit
/// draw state. Random draws are nondeterministic choices from the current lists.
module PotDraw {
  import opened DrawTypes
  import opened ConfederationRule
  import opened Lookahead

  /**
   * The draw state: the team list of each group (grupos_dict), the free slots
   * of each group (bombos_slots) and the assignment map (asignaciones_sorteo).
   * Index g of the two sequences is group g of A..L.
   */
  datatype Draw = Draw(groups: seq<seq<Entry>>, slots: seq<seq<Slot>>, assignments: map<Team, Assignment>)

  datatype DrawError =
    | NoValidGroup(team: Team)   // the ValueError naming the drawn team
    | EmptyPot                   // sampling a team from an exhausted pot
    | NoFreeSlot(group: nat)     // choosing a slot from an empty free list

  datatype Result<T> = Ok(value: T) | Err(error: DrawError)

  /** The group and slot a drawn team receives. */
  datatype Placement = Placement(group: nat, slot: Slot)

  /** Which lookahead the group search calls. */
  datatype Strategy = Backtracking | Greedy

  /** The three hosts, whose seats are fixed: MEX in A1, CAN in B1, USA in D1. */
  const Hosts: set<Team> := {"MEX", "CAN", "USA"}

  /** Groups A, B and D receive a host in pot 1. */
  predicate IsHostGroup(g: nat)
  {
    g == 0 || g == 1 || g == 3
  }

  /** The three host codes are different strings. */
  lemma HostsDistinct()
    ensures "MEX" != "CAN" && "MEX" != "USA" && "CAN" != "USA"
  {
    assert "MEX"[0] != "CAN"[0] && "MEX"[0] != "USA"[0] && "CAN"[0] != "USA"[0];
  }

  function Min(a: int, b: int): int
  {
    if a <= b then a else b
  }

  // ---------------------------------------------------------------------
  // List operations of the source
  // ---------------------------------------------------------------------

  /** list.remove: the list without the first occurrence of x. */
  function RemoveFirst(xs: seq<Slot>, x: Slot): (r: seq<Slot>)
    requires x in xs
    ensures multiset(r) == multiset(xs) - multiset{x}
  {
    assert xs == [xs[0]] + xs[1..];
    if xs[0] == x then xs[1..]
    else [xs[0]] + RemoveFirst(xs[1..], x)
  }

  /** The pot with every row of team t filtered out (codigo != t). */
  function Without(ts: seq<Team>, t: Team): (r: seq<Team>)
    ensures forall x :: x in r <==> x in ts && x != t
  {
    if ts == [] then []
    else (if ts[0] == t then [] else [ts[0]]) + Without(ts[1..], t)
  }

  lemma WithoutInTable(ts: seq<Team>, t: Team, table: map<Team, Conf>)
    requires AllInTable(ts, table)
    ensures AllInTable(Without(ts, t), table)
  {
    var r := Without(ts, t);
    forall i | 0 <= i < |r| ensures r[i] in table {
      assert r[i] in r;
      var j :| 0 <= j < |ts| && ts[j] == r[i];
    }
  }

  lemma WithoutMembers(ts: seq<Team>, t: Team)
    ensures Members(Without(ts, t)) == Members(ts) - {t}
  {
  }

  // ---------------------------------------------------------------------
  // The state invariant
  // ---------------------------------------------------------------------

  function SlotOf(e: Entry): multiset<Slot>
  {
    match e.slot
    case Some(s) => multiset{s}
    case None => multiset{}
  }

  /** The slots recorded in a group's entries. */
  function UsedSlots(grp: seq<Entry>): multiset<Slot>
  {
    if grp == [] then multiset{} else UsedSlots(grp[..|grp| - 1]) + SlotOf(grp[|grp| - 1])
  }

  lemma UsedSlotsAppend(grp: seq<Entry>, e: Entry)
    ensures UsedSlots(grp + [e]) == UsedSlots(grp) + SlotOf(e)
  {
    assert (grp + [e])[..|grp|] == grp;
  }

  /**
   * Twelve groups, every entry holds a slot, and in each group the slots of
   * its entries and its free slots together are exactly g1..g4.
   */
  ghost predicate SlotsAccounted(d: Draw)
  {
    |d.groups| == NumGroups && |d.slots| == NumGroups
    && (forall g :: 0 <= g < NumGroups ==> SlotsOfGroup(d, g))
  }

  ghost predicate SlotsOfGroup(d: Draw, g: nat)
  {
    g < |d.groups| && g < |d.slots| && GroupAccounted(d.groups[g], d.slots[g], g)
  }

  /**
   * Every entry of the group holds a slot, and the slots of its entries and
   * its free slots are together exactly g1..g4.
   */
  ghost predicate GroupAccounted(grp: seq<Entry>, free: seq<Slot>, g: nat)
  {
    (forall i :: 0 <= i < |grp| ==> grp[i].slot.Some?)
    && UsedSlots(grp) + multiset(free) == multiset(AllSlots(g))
  }

  /** The entry e of group g is recorded with the same group, slot and confederation in the assignment map. */
  ghost predicate Recorded(d: Draw, g: nat, e: Entry)
  {
    e.slot.Some? && e.code in d.assignments && d.assignments[e.code] == Assignment(g, e.slot.value, e.conf)
  }

  /** The assignment of t appears as an entry of its group. */
  ghost predicate Seated(d: Draw, t: Team)
  {
    t in d.assignments
    && var a := d.assignments[t];
    a.group < |d.groups| && Entry(t, Some(a.slot), a.conf) in d.groups[a.group]
  }

  /** Every entry of group g is recorded in the assignment map. */
  ghost predicate EntriesRecorded(d: Draw, g: nat)
  {
    g < |d.groups| && forall i :: 0 <= i < |d.groups[g]| ==> Recorded(d, g, d.groups[g][i])
  }

  /** The group lists and the assignment map describe the same placements. */
  ghost predicate AssignmentsAgree(d: Draw)
  {
    (forall g :: 0 <= g < |d.groups| ==> EntriesRecorded(d, g))
    && (forall t {:trigger Seated(d, t)} :: t in d.assignments ==> Seated(d, t))
  }

  ghost predicate Consistent(d: Draw)
  {
    SlotsAccounted(d) && AssignmentsAgree(d)
  }

  /** n empty team lists, one per group. */
  function FreshGroups(n: nat): (gs: seq<seq<Entry>>)
    ensures |gs| == n && forall g :: 0 <= g < n ==> gs[g] == []
  {
    if n == 0 then [] else FreshGroups(n - 1) + [[]]
  }

  /** The free-slot lists of n groups before any placement: g1..g4 for every group g. */
  function FreshSlots(n: nat): (ss: seq<seq<Slot>>)
    ensures |ss| == n && forall g :: 0 <= g < n ==> ss[g] == AllSlots(g)
  {
    if n == 0 then [] else FreshSlots(n - 1) + [AllSlots(n - 1)]
  }

  /** reset / the skeleton of sortear_bombo_1: empty groups, all four slots free, no assignment. */
  function Initial(): (d: Draw)
    ensures |d.groups| == NumGroups && |d.slots| == NumGroups && d.assignments == map[]
    ensures forall g :: 0 <= g < NumGroups ==> d.groups[g] == [] && d.slots[g] == AllSlots(g)
  {
    Draw(FreshGroups(NumGroups), FreshSlots(NumGroups), map[])
  }

  lemma InitialConsistent()
    ensures Consistent(Initial()) && RuleHolds(Initial().groups) && Initial().assignments.Keys == {}
    ensures forall g :: 0 <= g < NumGroups ==> Untouched(Initial(), g)
  {
    var d := Initial();
    forall g | 0 <= g < NumGroups ensures Untouched(d, g) {
    }
    EmptyConsistent(d);
  }

  /** A state with every group untouched and no assignment is consistent and obeys the rule. */
  lemma EmptyConsistent(d: Draw)
    requires |d.groups| == NumGroups && |d.slots| == NumGroups && d.assignments == map[]
    requires forall g :: 0 <= g < NumGroups ==> Untouched(d, g)
    ensures Consistent(d) && RuleHolds(d.groups)
  {
    forall g | 0 <= g < NumGroups ensures SlotsOfGroup(d, g) && EntriesRecorded(d, g) && Legal(d.groups[g]) {
      UntouchedAccounted(d, g);
    }
  }

  lemma UntouchedAccounted(d: Draw, g: nat)
    requires Untouched(d, g)
    ensures SlotsOfGroup(d, g) && EntriesRecorded(d, g) && Legal(d.groups[g])
  {
    assert Confs(d.groups[g]) == [];
  }

  /**
   * The state update of one placement: append the team to group g with slot s,
   * remove s from the group's free slots, record the assignment.
   */
  function Record(d: Draw, team: Team, c: Conf, g: nat, s: Slot): Draw
    requires g < |d.groups| && g < |d.slots| && s in d.slots[g]
  {
    Draw(Placed(d.groups, g, Entry(team, Some(s), c)),
         d.slots[g := RemoveFirst(d.slots[g], s)],
         d.assignments[team := Assignment(g, s, c)])
  }

  /**
   * A placement changes group g only, by one entry at its end; takes exactly
   * one copy of slot s out of g's free slots; and adds or overwrites the
   * team's assignment, leaving every other team's as it was.
   */
  lemma RecordPlaces(d: Draw, team: Team, c: Conf, g: nat, s: Slot)
    requires g < |d.groups| && g < |d.slots| && s in d.slots[g]
    ensures var r := Record(d, team, c, g, s);
      && |r.groups| == |d.groups| && r.groups[g] == d.groups[g] + [Entry(team, Some(s), c)]
      && |r.slots| == |d.slots| && multiset(r.slots[g]) == multiset(d.slots[g]) - multiset{s}
      && (forall h :: 0 <= h < |d.groups| && h != g ==> r.groups[h] == d.groups[h])
      && (forall h :: 0 <= h < |d.slots| && h != g ==> r.slots[h] == d.slots[h])
      && r.assignments.Keys == d.assignments.Keys + {team} && r.assignments[team] == Assignment(g, s, c)
      && (forall t :: t in d.assignments && t != team ==> r.assignments[t] == d.assignments[t])
  {
  }

  /** A placement takes its slot out of the free list and into the group: no slot is ever used twice. */
  lemma RecordKeepsSlots(d: Draw, team: Team, c: Conf, g: nat, s: Slot)
    requires SlotsAccounted(d) && g < NumGroups && s in d.slots[g]
    ensures SlotsAccounted(Record(d, team, c, g, s))
  {
    var r := Record(d, team, c, g, s);
    var e := Entry(team, Some(s), c);
    assert r.groups == d.groups[g := d.groups[g] + [e]];
    assert r.slots == d.slots[g := RemoveFirst(d.slots[g], s)];
    forall h | 0 <= h < NumGroups ensures SlotsOfGroup(r, h) {
      assert SlotsOfGroup(d, h);
      if h == g {
        RecordSlotsOfGroup(d.groups[g], d.slots[g], e, s, g);
      } else {
        assert r.groups[h] == d.groups[h] && r.slots[h] == d.slots[h];
      }
    }
  }

  lemma RecordSlotsOfGroup(grp: seq<Entry>, free: seq<Slot>, e: Entry, s: Slot, g: nat)
    requires GroupAccounted(grp, free, g) && s in free && e.slot == Some(s)
    ensures GroupAccounted(grp + [e], RemoveFirst(free, s), g)
  {
    UsedSlotsMove(grp, free, e, s, multiset(AllSlots(g)));
    SlottedAppend(grp, e);
  }

  lemma SlottedAppend(grp: seq<Entry>, e: Entry)
    requires (forall i :: 0 <= i < |grp| ==> grp[i].slot.Some?) && e.slot.Some?
    ensures forall i :: 0 <= i < |grp + [e]| ==> (grp + [e])[i].slot.Some?
  {
    assert forall i :: 0 <= i < |grp| ==> (grp + [e])[i] == grp[i];
  }

  lemma UsedSlotsMove(grp: seq<Entry>, free: seq<Slot>, e: Entry, s: Slot, all: multiset<Slot>)
    requires UsedSlots(grp) + multiset(free) == all && s in free && e.slot == Some(s)
    ensures UsedSlots(grp + [e]) + multiset(RemoveFirst(free, s)) == all
  {
    UsedSlotsAppend(grp, e);
    SwapSlot(UsedSlots(grp), free, s, all);
  }

  /** Moving slot s from the free list to the used slots keeps their union. */
  lemma SwapSlot(used: multiset<Slot>, free: seq<Slot>, s: Slot, all: multiset<Slot>)
    requires used + multiset(free) == all && s in free
    ensures used + multiset{s} + multiset(RemoveFirst(free, s)) == all
  {
    assert s in multiset(free);
  }

  /** Placing a team that has no assignment yet keeps the group lists and the assignment map in agreement. */
  lemma RecordKeepsAgreement(d: Draw, team: Team, c: Conf, g: nat, s: Slot)
    requires AssignmentsAgree(d) && g < |d.groups| && g < |d.slots| && s in d.slots[g]
    requires team !in d.assignments
    ensures AssignmentsAgree(Record(d, team, c, g, s))
  {
    var r := Record(d, team, c, g, s);
    var e := Entry(team, Some(s), c);
    assert r.groups[g] == d.groups[g] + [e];
    forall h | 0 <= h < |r.groups| ensures EntriesRecorded(r, h) {
      assert EntriesRecorded(d, h);
      forall i | 0 <= i < |r.groups[h]| ensures Recorded(r, h, r.groups[h][i]) {
        if h != g || i < |d.groups[g]| {
          assert r.groups[h][i] == d.groups[h][i];
          assert Recorded(d, h, d.groups[h][i]);
        }
      }
    }
    forall t | t in r.assignments ensures Seated(r, t) {
      if t != team {
        assert Seated(d, t);
        var a := d.assignments[t];
        assert r.assignments[t] == a;
        assert a.group != g ==> r.groups[a.group] == d.groups[a.group];
      }
    }
  }

  lemma RecordKeepsConsistent(d: Draw, team: Team, c: Conf, g: nat, s: Slot)
    requires Consistent(d) && g < NumGroups && s in d.slots[g] && team !in d.assignments
    ensures Consistent(Record(d, team, c, g, s))
  {
    RecordKeepsSlots(d, team, c, g, s);
    RecordKeepsAgreement(d, team, c, g, s);
  }

  lemma {:induction false} UsedSlotsSize(grp: seq<Entry>)
    requires forall i :: 0 <= i < |grp| ==> grp[i].slot.Some?
    ensures |UsedSlots(grp)| == |grp|
  {
    if grp != [] {
      UsedSlotsSize(grp[..|grp| - 1]);
    }
  }

  /** A group's free slots and its teams always add up to four. */
  lemma FreeSlotCount(d: Draw, g: nat)
    requires SlotsAccounted(d) && g < NumGroups
    ensures |d.slots[g]| + |d.groups[g]| == SlotsPerGroup
  {
    assert SlotsOfGroup(d, g);
    UsedSlotsSize(d.groups[g]);
    assert |multiset(AllSlots(g))| == 4;
  }

  lemma {:induction false} UsedSlotsHas(grp: seq<Entry>, i: int)
    requires 0 <= i < |grp| && grp[i].slot.Some?
    ensures grp[i].slot.value in UsedSlots(grp)
  {
    var p := grp[..|grp| - 1];
    if i < |grp| - 1 {
      assert p[i] == grp[i];
      UsedSlotsHas(p, i);
    }
  }

  lemma {:induction false} UsedSlotsTwice(grp: seq<Entry>, i: int, j: int, s: Slot)
    requires 0 <= i < j < |grp| && grp[i].slot == Some(s) && grp[j].slot == Some(s)
    ensures UsedSlots(grp)[s] >= 2
  {
    var p := grp[..|grp| - 1];
    assert p[i] == grp[i];
    if j == |grp| - 1 {
      UsedSlotsHas(p, i);
    } else {
      assert p[j] == grp[j];
      UsedSlotsTwice(p, i, j, s);
    }
  }

  /** Each of g1..g4 occurs once among a group's four slots, and no other slot occurs. */
  lemma AllSlotsOnce(g: nat, s: Slot)
    ensures multiset(AllSlots(g))[s] == (if s.group == g && 1 <= s.pos <= 4 then 1 else 0)
  {
    assert multiset(AllSlots(g)) == multiset{Slot(g, 1), Slot(g, 2), Slot(g, 3), Slot(g, 4)};
  }

  lemma {:induction false} UsedOnce(grp: seq<Entry>, free: seq<Slot>, all: multiset<Slot>, i: int)
    requires UsedSlots(grp) + multiset(free) == all
    requires 0 <= i < |grp| && grp[i].slot.Some? && all[grp[i].slot.value] <= 1
    ensures forall j :: 0 <= j < |grp| && j != i ==> grp[j].slot != grp[i].slot
  {
    var s := grp[i].slot.value;
    forall j | 0 <= j < |grp| && j != i ensures grp[j].slot != grp[i].slot {
      if grp[j].slot == grp[i].slot {
        if i < j { UsedSlotsTwice(grp, i, j, s); } else { UsedSlotsTwice(grp, j, i, s); }
        assert false;
      }
    }
  }

  lemma SlotInGroup(d: Draw, g: nat, i: int)
    requires SlotsAccounted(d) && g < NumGroups && 0 <= i < |d.groups[g]|
    ensures d.groups[g][i].slot.Some? && d.groups[g][i].slot.value.group == g
    ensures forall j :: 0 <= j < |d.groups[g]| && j != i ==> d.groups[g][j].slot != d.groups[g][i].slot
  {
    var grp := d.groups[g];
    assert SlotsOfGroup(d, g);
    var s := grp[i].slot.value;
    UsedSlotsHas(grp, i);
    AllSlotsOnce(g, s);
    UsedOnce(grp, d.slots[g], multiset(AllSlots(g)), i);
  }

  /** In a consistent state no team and no slot appears in two entries. */
  lemma NoTeamOrSlotTwice(d: Draw, g1: nat, i1: int, g2: nat, i2: int)
    requires Consistent(d)
    requires g1 < NumGroups && 0 <= i1 < |d.groups[g1]| && g2 < NumGroups && 0 <= i2 < |d.groups[g2]|
    requires d.groups[g1][i1].code == d.groups[g2][i2].code || d.groups[g1][i1].slot == d.groups[g2][i2].slot
    ensures g1 == g2 && i1 == i2
  {
    var e1, e2 := d.groups[g1][i1], d.groups[g2][i2];
    assert EntriesRecorded(d, g1) && EntriesRecorded(d, g2);
    assert Recorded(d, g1, e1) && Recorded(d, g2, e2);
    SlotInGroup(d, g1, i1);
    SlotInGroup(d, g2, i2);
  }

  // ---------------------------------------------------------------------
  // Counting teams
  // ---------------------------------------------------------------------

  /** The number of teams in all groups. */
  function Total(gs: seq<seq<Entry>>): nat
  {
    if gs == [] then 0 else Total(gs[..|gs| - 1]) + |gs[|gs| - 1]|
  }

  lemma {:induction false} TotalPlaced(gs: seq<seq<Entry>>, g: nat, e: Entry)
    requires g < |gs|
    ensures Total(Placed(gs, g, e)) == Total(gs) + 1
  {
    var p := Placed(gs, g, e);
    if g == |gs| - 1 {
      assert p[..|gs| - 1] == gs[..|gs| - 1];
    } else {
      assert p[..|gs| - 1] == Placed(gs[..|gs| - 1], g, e);
      TotalPlaced(gs[..|gs| - 1], g, e);
    }
  }

  lemma {:induction false} TotalUniform(gs: seq<seq<Entry>>, k: nat)
    requires forall g :: 0 <= g < |gs| ==> |gs[g]| == k
    ensures Total(gs) == |gs| * k
  {
    if gs != [] {
      TotalUniform(gs[..|gs| - 1], k);
    }
  }

  /** Pigeonhole: groups of at most n teams that hold |gs| * n teams in all are all full. */
  lemma {:induction false} TotalFull(gs: seq<seq<Entry>>, n: int)
    requires forall g :: 0 <= g < |gs| ==> |gs[g]| <= n
    ensures Total(gs) <= |gs| * n
    ensures Total(gs) == |gs| * n ==> forall g :: 0 <= g < |gs| ==> |gs[g]| == n
  {
    if gs != [] {
      var p := gs[..|gs| - 1];
      TotalFull(p, n);
      assert |gs| * n == |p| * n + n;
      if Total(gs) == |gs| * n {
        forall g | 0 <= g < |gs| ensures |gs[g]| == n {
          if g < |p| {
            assert gs[g] == p[g];
          }
        }
      }
    }
  }

  // ---------------------------------------------------------------------
  // Pot 1: hosts and seeds
  // ---------------------------------------------------------------------

  lemma MemberInTable(ts: seq<Team>, t: Team, table: map<Team, Conf>)
    requires AllInTable(ts, table) && t in ts
    ensures t in table
  {
    var i :| 0 <= i < |ts| && ts[i] == t;
  }

  /** A group of at most one team is within every confederation limit. */
  lemma SmallGroupLegal(grp: seq<Entry>)
    requires |grp| <= 1
    ensures Legal(grp)
  {
    forall c ensures Count(grp, c) <= Limit(c) {
      assert |multiset(Confs(grp))| <= 1;
    }
  }

  /** Group g holds exactly team t, in slot g1, with its confederation, and g2, g3, g4 are free. */
  ghost predicate SeatedFirst(d: Draw, g: nat, t: Team, table: map<Team, Conf>)
    requires g < |d.groups| && g < |d.slots|
  {
    t in table
    && d.groups[g] == [Entry(t, Some(Slot(g, 1)), table[t])]
    && d.slots[g] == [Slot(g, 2), Slot(g, 3), Slot(g, 4)]
  }

  /** The fixed host seats: MEX in A1, CAN in B1, USA in D1. */
  ghost predicate HostsSeated(d: Draw, table: map<Team, Conf>)
    requires |d.groups| == NumGroups && |d.slots| == NumGroups
  {
    SeatedFirst(d, 0, "MEX", table) && SeatedFirst(d, 1, "CAN", table) && SeatedFirst(d, 3, "USA", table)
  }

  /** Group g is a host group, or holds one seed of the pot, seated in g1. */
  ghost predicate SeedOf(d: Draw, g: nat, pot: seq<Team>, table: map<Team, Conf>)
  {
    IsHostGroup(g)
    || (g < |d.groups| && g < |d.slots| && |d.groups[g]| == 1 && d.groups[g][0].code in Members(pot) - Hosts
        && SeatedFirst(d, g, d.groups[g][0].code, table))
  }

  /** The state sortear_bombo_1 returns: hosts seated, one seed of the pot in slot g1 of every other group. */
  ghost predicate PotOneDone(d: Draw, pot: seq<Team>, table: map<Team, Conf>)
  {
    Consistent(d) && RuleHolds(d.groups) && HostsSeated(d, table)
    && (forall g :: 0 <= g < NumGroups ==> SeedOf(d, g, pot, table))
    && d.assignments.Keys <= Members(pot) + Hosts
  }

  /** The number of non-host groups among the first i. */
  function SeedGroupsBefore(i: nat): nat
  {
    if i <= 2 then 0 else if i <= 4 then 1 else i - 3
  }

  /**
   * Seat team t in slot g1 of the untouched group g: the state afterwards is
   * consistent, g holds t alone in g1 with g2..g4 free, every other group is
   * as it was and t is the only new key of the assignment map.
   */
  method SeatOne(d: Draw, t: Team, g: nat, table: map<Team, Conf>) returns (r: Draw)
    requires Consistent(d) && g < NumGroups && t in table && t !in d.assignments && Untouched(d, g)
    ensures Consistent(r) && SeatedFirst(r, g, t, table)
    ensures forall h :: 0 <= h < NumGroups && h != g ==> r.groups[h] == d.groups[h] && r.slots[h] == d.slots[h]
    ensures r.assignments.Keys == d.assignments.Keys + {t}
  {
    assert Slot(g, 1) in d.slots[g];
    RecordKeepsConsistent(d, t, table[t], g, Slot(g, 1));
    r := Record(d, t, table[t], g, Slot(g, 1));
  }

  /** Group g is still empty with all four slots free. */
  ghost predicate Untouched(d: Draw, g: nat)
  {
    g < |d.groups| && g < |d.slots| && d.groups[g] == [] && d.slots[g] == AllSlots(g)
  }

  /**
   * The host seats of sortear_bombo_1: MEX in A1, CAN in B1 and USA in D1 are
   * recorded, and those three slots are taken from the free lists.
   */
  method SeatHosts(d0: Draw, table: map<Team, Conf>) returns (d: Draw)
    requires "MEX" in table && "CAN" in table && "USA" in table
    requires Consistent(d0) && d0.assignments.Keys == {}
    requires forall g :: 0 <= g < NumGroups ==> Untouched(d0, g)
    ensures Consistent(d) && HostsSeated(d, table) && d.assignments.Keys == Hosts
    ensures forall g :: 0 <= g < NumGroups ==> SeedPending(d, g)
  {
    HostsDistinct();
    assert Untouched(d0, 0);
    var d1 := SeatOne(d0, "MEX", 0, table);
    assert Untouched(d0, 1);
    var d2 := SeatOne(d1, "CAN", 1, table);
    assert Untouched(d0, 3);
    d := SeatOne(d2, "USA", 3, table);
    forall g | 0 <= g < NumGroups ensures SeedPending(d, g) {
      assert Untouched(d0, g);
    }
  }

  /** Group g is a host group, or is already seeded from the drawn teams. */
  ghost predicate SeedDone(d: Draw, g: nat, seeds: set<Team>, table: map<Team, Conf>)
  {
    IsHostGroup(g)
    || (g < |d.groups| && g < |d.slots| && |d.groups[g]| == 1 && d.groups[g][0].code in seeds
        && SeatedFirst(d, g, d.groups[g][0].code, table))
  }

  /** Group g is a host group, or is still empty with all four slots free. */
  ghost predicate SeedPending(d: Draw, g: nat)
  {
    IsHostGroup(g) || Untouched(d, g)
  }

  /** The pot side of the seed draw before group i: the pot left is pot 1 without the hosts and the seeds drawn, one per non-host group so far. */
  ghost predicate PotLeft(rest: seq<Team>, seeds: set<Team>, pot: seq<Team>, i: nat)
  {
    Members(rest) == Members(pot) - Hosts - seeds
    && seeds <= Members(pot) - Hosts && |seeds| == SeedGroupsBefore(i)
  }

  /** The group side of the seed draw before group i: hosts seated, groups before i seeded, the rest untouched. */
  ghost predicate GroupsSeeded(d: Draw, seeds: set<Team>, i: nat, table: map<Team, Conf>)
  {
    Consistent(d) && HostsSeated(d, table) && d.assignments.Keys == Hosts + seeds
    && (forall g :: 0 <= g < i ==> SeedDone(d, g, seeds, table))
    && (forall g :: i <= g < NumGroups ==> SeedPending(d, g))
  }

  lemma PotLeftStarts(pot: seq<Team>)
    ensures PotLeft(Without(Without(Without(pot, "MEX"), "CAN"), "USA"), {}, pot, 0)
  {
    WithoutMembers(pot, "MEX");
    WithoutMembers(Without(pot, "MEX"), "CAN");
    WithoutMembers(Without(Without(pot, "MEX"), "CAN"), "USA");
  }

  lemma PotLeftDraws(rest: seq<Team>, seeds: set<Team>, pot: seq<Team>, i: nat, t: Team)
    requires PotLeft(rest, seeds, pot, i) && i < NumGroups && !IsHostGroup(i) && t in rest
    ensures t in Members(pot) && t !in Hosts + seeds
    ensures PotLeft(Without(rest, t), seeds + {t}, pot, i + 1)
  {
    assert t in Members(rest);
    WithoutMembers(rest, t);
  }

  /** The pot runs dry before a non-host group only when it holds fewer than nine teams besides the hosts. */
  lemma PotLeftDry(seeds: set<Team>, pot: seq<Team>, i: nat)
    requires PotLeft([], seeds, pot, i) && i < NumGroups && !IsHostGroup(i)
    ensures |Members(pot) - Hosts| < NumGroups - 3
  {
    var left := Members(pot) - Hosts;
    assert Members([]) == {};
    assert left - seeds == {};
    assert left == seeds;
  }

  lemma PotLeftFull(rest: seq<Team>, seeds: set<Team>, pot: seq<Team>)
    requires PotLeft(rest, seeds, pot, NumGroups)
    ensures |Members(pot) - Hosts| >= NumGroups - 3
  {
    SubsetCard(seeds, Members(pot) - Hosts);
  }

  lemma GroupsSeededStarts(d: Draw, table: map<Team, Conf>)
    requires Consistent(d) && HostsSeated(d, table) && d.assignments.Keys == Hosts
    requires forall g :: 0 <= g < NumGroups ==> SeedPending(d, g)
    ensures GroupsSeeded(d, {}, 0, table)
  {
  }

  lemma GroupsSeededSkips(d: Draw, seeds: set<Team>, i: nat, table: map<Team, Conf>)
    requires GroupsSeeded(d, seeds, i, table) && i < NumGroups && IsHostGroup(i)
    ensures GroupsSeeded(d, seeds, i + 1, table)
  {
    assert SeedDone(d, i, seeds, table);
  }

  lemma GroupsSeededSeats(d: Draw, r: Draw, seeds: set<Team>, i: nat, t: Team, table: map<Team, Conf>)
    requires GroupsSeeded(d, seeds, i, table) && i < NumGroups && !IsHostGroup(i)
    requires t in table && t !in Hosts + seeds
    requires Consistent(r) && SeatedFirst(r, i, t, table)
    requires forall h :: 0 <= h < NumGroups && h != i ==> r.groups[h] == d.groups[h] && r.slots[h] == d.slots[h]
    requires r.assignments.Keys == d.assignments.Keys + {t}
    ensures GroupsSeeded(r, seeds + {t}, i + 1, table)
  {
    SeatingKeepsHosts(d, r, i, table);
    forall g | 0 <= g < i + 1 ensures SeedDone(r, g, seeds + {t}, table) {
      if g < i {
        assert SeedDone(d, g, seeds, table);
      }
    }
    forall g | i + 1 <= g < NumGroups ensures SeedPending(r, g) {
      assert SeedPending(d, g);
    }
  }

  lemma SeatingKeepsHosts(d: Draw, r: Draw, i: nat, table: map<Team, Conf>)
    requires |d.groups| == NumGroups && |d.slots| == NumGroups && |r.groups| == NumGroups && |r.slots| == NumGroups
    requires HostsSeated(d, table) && !IsHostGroup(i)
    requires forall h :: 0 <= h < NumGroups && h != i ==> r.groups[h] == d.groups[h] && r.slots[h] == d.slots[h]
    ensures HostsSeated(r, table)
  {
    assert r.groups[0] == d.groups[0] && r.slots[0] == d.slots[0];
    assert r.groups[1] == d.groups[1] && r.slots[1] == d.slots[1];
    assert r.groups[3] == d.groups[3] && r.slots[3] == d.slots[3];
  }

  lemma GroupsSeededEnds(d: Draw, seeds: set<Team>, pot: seq<Team>, table: map<Team, Conf>)
    requires GroupsSeeded(d, seeds, NumGroups, table) && seeds <= Members(pot) - Hosts
    ensures PotOneDone(d, pot, table)
  {
    forall g | 0 <= g < NumGroups ensures Legal(d.groups[g]) && SeedOf(d, g, pot, table) {
      assert SeedDone(d, g, seeds, table);
      SmallGroupLegal(d.groups[g]);
    }
  }

  /**
   * One pass of sortear_bombo_1's loop over groups: a host group is skipped;
   * any other group gets a team drawn from what is left of the pot, seated in
   * g1 and taken out of the pot. ok is false exactly when the pot is empty.
   */
  method SeedGroup(d: Draw, rest: seq<Team>, ghost seeds: set<Team>, pot: seq<Team>, i: nat, table: map<Team, Conf>)
    returns (ok: bool, next: Draw, left: seq<Team>, ghost drawn: set<Team>)
    requires i < NumGroups && AllInTable(pot, table)
    requires GroupsSeeded(d, seeds, i, table) && PotLeft(rest, seeds, pot, i)
    ensures ok <==> IsHostGroup(i) || rest != []
    ensures ok ==> GroupsSeeded(next, drawn, i + 1, table) && PotLeft(left, drawn, pot, i + 1)
    ensures !ok ==> |Members(pot) - Hosts| < NumGroups - 3
  {
    if IsHostGroup(i) {
      GroupsSeededSkips(d, seeds, i, table);
      return true, d, rest, seeds;
    }
    if rest == [] {
      PotLeftDry(seeds, pot, i);
      return false, d, rest, seeds;
    }
    assert rest[0] in rest;
    var t :| t in rest;
    PotLeftDraws(rest, seeds, pot, i, t);
    MemberInTable(pot, t, table);
    assert SeedPending(d, i);
    next := SeatOne(d, t, i, table);
    GroupsSeededSeats(d, next, seeds, i, t, table);
    ok, left, drawn := true, Without(rest, t), seeds + {t};
  }

  /**
   * sortear_bombo_1: seat the hosts, then, for every other group in order
   * A..L, draw a team from pot 1 without the hosts, take it out of the pot and
   * seat it in slot g1. Drawing from an empty pot is an error.
   */
  method DrawPotOne(pot: seq<Team>, table: map<Team, Conf>) returns (r: Result<Draw>)
    requires "MEX" in table && "CAN" in table && "USA" in table
    requires AllInTable(pot, table)
    ensures r.Err? <==> |Members(pot) - Hosts| < NumGroups - 3
    ensures r.Err? ==> r.error == EmptyPot
    ensures r.Ok? ==> PotOneDone(r.value, pot, table)
  {
    var blank := Initial();
    InitialConsistent();
    var d := SeatHosts(blank, table);
    var rest := Without(Without(Without(pot, "MEX"), "CAN"), "USA");
    GroupsSeededStarts(d, table);
    PotLeftStarts(pot);
    ghost var seeds: set<Team> := {};
    var i := 0;
    while i < NumGroups
      invariant 0 <= i <= NumGroups
      invariant GroupsSeeded(d, seeds, i, table) && PotLeft(rest, seeds, pot, i)
    {
      var ok;
      ok, d, rest, seeds := SeedGroup(d, rest, seeds, pot, i, table);
      if !ok {
        return Err(EmptyPot);
      }
      i := i + 1;
    }
    PotLeftFull(rest, seeds, pot);
    GroupsSeededEnds(d, seeds, pot, table);
    return Ok(d);
  }

  lemma SubsetCard<T>(a: set<T>, b: set<T>)
    requires a <= b
    ensures |a| <= |b|
  {
    assert b == a + (b - a);
  }
}
