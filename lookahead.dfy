/// The lookahead that keeps the draw away from dead ends, in its two forms:
/// the backtracking search of simular_sorteo_func.py and the greedy one-ply
/// check of simular_sorteo.py. Both first simulate the candidate placement on
/// a copy of the groups; they differ in what they check afterwards.
module Lookahead {
  import opened DrawTypes
  import opened ConfederationRule

  /** Group g can take one more team of confederation c in a pot whose groups may hold cap teams. */
  predicate Open(gs: seq<seq<Entry>>, g: nat, c: Conf, cap: int)
    requires g < |gs|
  {
    |gs[g]| < cap && Admits(gs[g], c)
  }

  /** The groups with e appended to group g. */
  function Placed(gs: seq<seq<Entry>>, g: nat, e: Entry): seq<seq<Entry>>
    requires g < |gs|
  {
    gs[g := gs[g] + [e]]
  }

  /** The simulated entry of a team: its code and confederation, no slot. */
  function Pending(team: Team, table: map<Team, Conf>): Entry
    requires team in table
  {
    Entry(team, None, table[team])
  }

  /** The state both lookaheads check: the candidate appended to the target group of a copy. */
  function Simulate(gs: seq<seq<Entry>>, target: nat, team: Team, table: map<Team, Conf>): (r: seq<seq<Entry>>)
    requires target < |gs| && team in table
    ensures |r| == |gs| && r[target] == gs[target] + [Entry(team, None, table[team])]
    ensures forall g :: 0 <= g < |gs| && g != target ==> r[g] == gs[g]
  {
    Placed(gs, target, Pending(team, table))
  }

  /**
   * The remaining teams, taken in order, can each be put into a group that is
   * open for it at its turn (the meaning of asignar_restantes returning True).
   */
  ghost predicate Completable(rest: seq<Team>, gs: seq<seq<Entry>>, cap: int, table: map<Team, Conf>)
    requires AllInTable(rest, table)
    decreases |rest|, 1
  {
    rest == [] || exists g :: 0 <= g < |gs| && PlaceableIn(rest, gs, g, cap, table)
  }

  /** The first remaining team can go to group g, and the others can be placed after it. */
  ghost predicate PlaceableIn(rest: seq<Team>, gs: seq<seq<Entry>>, g: nat, cap: int, table: map<Team, Conf>)
    requires AllInTable(rest, table) && rest != [] && g < |gs|
    decreases |rest|, 0
  {
    Open(gs, g, table[rest[0]], cap) && Completable(rest[1..], Placed(gs, g, Pending(rest[0], table)), cap, table)
  }

  /**
   * A complete placement given outright: choice[k] is the group of the k-th
   * remaining team, and each group is open for its team when that team's turn comes.
   */
  ghost predicate ValidChoice(rest: seq<Team>, gs: seq<seq<Entry>>, cap: int, table: map<Team, Conf>, choice: seq<nat>)
    requires AllInTable(rest, table)
    decreases |rest|
  {
    |choice| == |rest| &&
    (rest == [] ||
     (choice[0] < |gs| && Open(gs, choice[0], table[rest[0]], cap)
      && ValidChoice(rest[1..], Placed(gs, choice[0], Pending(rest[0], table)), cap, table, choice[1..])))
  }

  /** A successful search yields a complete placement. */
  lemma {:induction false} CompletableHasChoice(rest: seq<Team>, gs: seq<seq<Entry>>, cap: int, table: map<Team, Conf>)
    requires AllInTable(rest, table)
    requires Completable(rest, gs, cap, table)
    ensures exists choice :: ValidChoice(rest, gs, cap, table, choice)
    decreases |rest|
  {
    if rest == [] {
      assert ValidChoice(rest, gs, cap, table, []);
    } else {
      var g :| 0 <= g < |gs| && PlaceableIn(rest, gs, g, cap, table);
      var next := Placed(gs, g, Pending(rest[0], table));
      CompletableHasChoice(rest[1..], next, cap, table);
      var tail :| ValidChoice(rest[1..], next, cap, table, tail);
      assert ([g] + tail)[1..] == tail;
      assert ValidChoice(rest, gs, cap, table, [g] + tail);
    }
  }

  /** A complete placement is found by the search. */
  lemma {:induction false} ChoiceMakesCompletable(rest: seq<Team>, gs: seq<seq<Entry>>, cap: int, table: map<Team, Conf>, choice: seq<nat>)
    requires AllInTable(rest, table)
    requires ValidChoice(rest, gs, cap, table, choice)
    ensures Completable(rest, gs, cap, table)
    decreases |rest|
  {
    if rest != [] {
      var g := choice[0];
      ChoiceMakesCompletable(rest[1..], Placed(gs, g, Pending(rest[0], table)), cap, table, choice[1..]);
      assert PlaceableIn(rest, gs, g, cap, table);
    }
  }

  /** The search succeeds exactly when a complete placement of the remaining teams exists. */
  lemma CompletableIffChoice(rest: seq<Team>, gs: seq<seq<Entry>>, cap: int, table: map<Team, Conf>)
    requires AllInTable(rest, table)
    ensures Completable(rest, gs, cap, table) <==> exists choice :: ValidChoice(rest, gs, cap, table, choice)
  {
    if Completable(rest, gs, cap, table) {
      CompletableHasChoice(rest, gs, cap, table);
    }
    if exists choice :: ValidChoice(rest, gs, cap, table, choice) {
      var choice :| ValidChoice(rest, gs, cap, table, choice);
      ChoiceMakesCompletable(rest, gs, cap, table, choice);
    }
  }

  /**
   * asignar_restantes: the recursive search over the simulated groups `sim`.
   * For the first remaining team it tries every group in order, appending the
   * team and recursing, and pops the team again when the recursion fails.
   */
  method AssignRemaining(rest: seq<Team>, sim: array<seq<Entry>>, cap: int, table: map<Team, Conf>) returns (ok: bool)
    requires AllInTable(rest, table)
    modifies sim
    ensures ok <==> Completable(rest, old(sim[..]), cap, table)
    ensures !ok ==> sim[..] == old(sim[..])
    decreases |rest|
  {
    if rest == [] {
      return true;
    }
    var team := rest[0];
    var c := table[team];
    ghost var start := sim[..];
    var g := 0;
    while g < sim.Length
      invariant 0 <= g <= sim.Length
      invariant sim[..] == start
      invariant forall j :: 0 <= j < g ==> !PlaceableIn(rest, start, j, cap, table)
    {
      if |sim[g]| >= cap {
        g := g + 1;
        continue;
      }
      if !Admits(sim[g], c) {
        g := g + 1;
        continue;
      }
      // temporary assignment
      sim[g] := sim[g] + [Entry(team, None, c)];
      assert sim[..] == Placed(start, g, Pending(team, table));
      var found := AssignRemaining(rest[1..], sim, cap, table);
      if found {
        assert PlaceableIn(rest, start, g, cap, table);
        return true;
      }
      // undo the assignment
      sim[g] := sim[g][..|sim[g]| - 1];
      assert sim[..] == start;
      g := g + 1;
    }
    return false;
  }

  /**
   * lookahead of simular_sorteo_func.py: copy the groups, append the candidate
   * to the target group of the copy, and search for a placement of all
   * remaining teams. The caller's groups are a value and stay as they were.
   */
  method Lookahead(target: nat, team: Team, rest: seq<Team>, groups: seq<seq<Entry>>, cap: int, table: map<Team, Conf>)
    returns (ok: bool)
    requires target < |groups| && team in table && AllInTable(rest, table)
    ensures ok <==> Completable(rest, Simulate(groups, target, team, table), cap, table)
    ensures rest == [] ==> ok
  {
    var sim := new seq<Entry>[|groups|](i requires 0 <= i < |groups| => groups[i]);
    sim[target] := sim[target] + [Entry(team, None, table[team])];
    assert sim[..] == Simulate(groups, target, team, table);
    ok := AssignRemaining(rest, sim, cap, table);
  }

  /** Some group is open for a team of confederation c. */
  ghost predicate HasRoom(gs: seq<seq<Entry>>, c: Conf, cap: int)
  {
    exists g :: 0 <= g < |gs| && Open(gs, g, c, cap)
  }

  /** Each remaining team, on its own, has an open group in the one state gs. */
  ghost predicate EachHasRoom(rest: seq<Team>, gs: seq<seq<Entry>>, cap: int, table: map<Team, Conf>)
    requires AllInTable(rest, table)
  {
    forall k :: 0 <= k < |rest| ==> HasRoom(gs, table[rest[k]], cap)
  }

  /**
   * lookahead of simular_sorteo.py: append the candidate to the target group
   * of a copy, then check each remaining team separately against that one
   * simulated state, which is never updated team by team.
   */
  method GreedyLookahead(target: nat, team: Team, rest: seq<Team>, groups: seq<seq<Entry>>, cap: int, table: map<Team, Conf>)
    returns (ok: bool)
    requires target < |groups| && team in table && AllInTable(rest, table)
    ensures ok <==> EachHasRoom(rest, Simulate(groups, target, team, table), cap, table)
    ensures rest == [] ==> ok
  {
    var sim := groups[target := groups[target] + [Entry(team, None, table[team])]];
    var k := 0;
    while k < |rest|
      invariant 0 <= k <= |rest|
      invariant forall j :: 0 <= j < k ==> HasRoom(sim, table[rest[j]], cap)
    {
      var c := table[rest[k]];
      var viable := false;
      var g := 0;
      while g < |sim|
        invariant 0 <= g <= |sim|
        invariant !viable
        invariant forall j :: 0 <= j < g ==> !Open(sim, j, c, cap)
      {
        if |sim[g]| >= cap {
          g := g + 1;
          continue;
        }
        if Admits(sim[g], c) {
          assert Open(sim, g, c, cap);
          viable := true;
          break;
        }
        g := g + 1;
      }
      if !viable {
        return false;
      }
      k := k + 1;
    }
    return true;
  }

  /** A group open after a placement was already open before it: groups only fill up. */
  lemma OpenBeforePlacement(gs: seq<seq<Entry>>, g: nat, e: Entry, h: nat, c: Conf, cap: int)
    requires g < |gs| && h < |gs|
    requires Open(Placed(gs, g, e), h, c, cap)
    ensures Open(gs, h, c, cap)
  {
    if h == g && !Admits(gs[g], c) {
      RejectionPersists(gs[g], [e], c);
    }
  }

  /**
   * Backtracking success implies greedy success: if all remaining teams can be
   * placed one after another, each of them has an open group in the starting state.
   */
  lemma {:induction false} BacktrackingImpliesGreedy(rest: seq<Team>, gs: seq<seq<Entry>>, cap: int, table: map<Team, Conf>)
    requires AllInTable(rest, table)
    requires Completable(rest, gs, cap, table)
    ensures EachHasRoom(rest, gs, cap, table)
    decreases |rest|
  {
    if rest != [] {
      var e := Pending(rest[0], table);
      var g :| 0 <= g < |gs| && PlaceableIn(rest, gs, g, cap, table);
      var next := Placed(gs, g, e);
      BacktrackingImpliesGreedy(rest[1..], next, cap, table);
      forall k | 0 <= k < |rest| ensures HasRoom(gs, table[rest[k]], cap) {
        if k > 0 {
          assert rest[1..][k - 1] == rest[k];
          assert HasRoom(next, table[rest[k]], cap);
          var h :| 0 <= h < |next| && Open(next, h, table[rest[k]], cap);
          OpenBeforePlacement(gs, g, e, h, table[rest[k]], cap);
        }
      }
    }
  }

  /**
   * A state in the middle of pot 2 (two teams per group): groups A to I are
   * full, J holds a team of confederation x, and K and L each hold a UEFA team.
   * Both lookaheads read only group sizes and confederations, so the filler
   * entries share one code and hold no slot: this is a state of the lookahead,
   * not one the draw itself reaches.
   */
  function DeadEndState(x: Conf): (gs: seq<seq<Entry>>)
    ensures |gs| == NumGroups
  {
    seq(NumGroups, g => if g < 9 then [Entry("F", None, UEFA), Entry("F", None, UEFA)]
                        else if g == 9 then [Entry("X", None, x)] else [Entry("U", None, UEFA)])
  }

  /** In DeadEndState(x), once groups K and L are full, no group is open for x. */
  lemma DeadEndClosed(gs: seq<seq<Entry>>, x: Conf)
    requires x != UEFA && |gs| == NumGroups
    requires forall g :: 0 <= g < 10 ==> gs[g] == DeadEndState(x)[g]
    requires |gs[10]| == 2 && |gs[11]| == 2
    ensures forall g :: 0 <= g < |gs| ==> !Open(gs, g, x, 2)
  {
    CountOne(Entry("X", None, x), x);
  }

  /**
   * The converse fails: in the pot-2 state DeadEndState(x), a non-UEFA
   * candidate put in group L leaves two teams of confederation x. The greedy
   * check passes, because K is open for each of them on its own, but no
   * placement of both exists: the first one to go to K closes the only open
   * group for the second.
   */
  lemma GreedyPassesDeadEnd(table: map<Team, Conf>, candidate: Team, first: Team, second: Team)
    requires candidate in table && first in table && second in table
    requires table[candidate] != UEFA && table[first] == table[second] != UEFA
    ensures var gs := DeadEndState(table[first]);
            var sim := Simulate(gs, 11, candidate, table);
            Open(gs, 11, table[candidate], 2)
            && EachHasRoom([first, second], sim, 2, table) && !Completable([first, second], sim, 2, table)
  {
    var x := table[first];
    var rest := [first, second];
    var gs := DeadEndState(x);
    var sim := Simulate(gs, 11, candidate, table);
    CountOne(Entry("U", None, UEFA), table[candidate]);
    assert Open(gs, 11, table[candidate], 2);
    assert Open(sim, 10, x, 2) by {
      CountOne(Entry("U", None, UEFA), x);
    }
    assert EachHasRoom(rest, sim, 2, table) by {
      assert HasRoom(sim, table[rest[0]], 2) && HasRoom(sim, table[rest[1]], 2);
    }
    DeadEndClosed(Placed(sim, 10, Pending(first, table)), x);
    forall g | 0 <= g < |sim| ensures !PlaceableIn(rest, sim, g, 2, table) {
      if g == 10 {
        var after := Placed(sim, 10, Pending(first, table));
        assert rest[1..] == [second];
        assert !PlaceableIn(rest[1..], after, 0, 2, table);
        assert !Completable(rest[1..], after, 2, table);
      } else if g != 11 {
        assert sim[g] == gs[g];
        CountOne(Entry("X", None, x), x);
      }
    }
  }

  // ---------------------------------------------------------------------
  // What the backtracking search depends on
  // ---------------------------------------------------------------------

  /** Group a holds no more teams than b, and no more of any confederation. */
  ghost predicate GroupBelow(a: seq<Entry>, b: seq<Entry>)
  {
    |a| <= |b| && forall c :: Count(a, c) <= Count(b, c)
  }

  /** Every group of gs1 is below the same group of gs2. */
  ghost predicate Below(gs1: seq<seq<Entry>>, gs2: seq<seq<Entry>>)
  {
    |gs1| == |gs2| && forall g :: 0 <= g < |gs1| ==> GroupBelow(gs1[g], gs2[g])
  }

  lemma CountOne(e: Entry, c: Conf)
    ensures Count([e], c) == if e.conf == c then 1 else 0
  {
    assert Confs([e]) == [e.conf];
  }

  /** A group open in the fuller groups is open in the emptier ones. */
  lemma OpenBelow(gs1: seq<seq<Entry>>, gs2: seq<seq<Entry>>, h: nat, c: Conf, cap: int)
    requires Below(gs1, gs2) && h < |gs1| && Open(gs2, h, c, cap)
    ensures Open(gs1, h, c, cap)
  {
    assert GroupBelow(gs1[h], gs2[h]);
  }

  /** Appending teams of one confederation to the same group keeps one state below the other. */
  lemma PlacedBelow(gs1: seq<seq<Entry>>, gs2: seq<seq<Entry>>, g: nat, e1: Entry, e2: Entry)
    requires Below(gs1, gs2) && g < |gs1| && e1.conf == e2.conf
    ensures Below(Placed(gs1, g, e1), Placed(gs2, g, e2))
  {
    var p1, p2 := Placed(gs1, g, e1), Placed(gs2, g, e2);
    forall h | 0 <= h < |p1| ensures GroupBelow(p1[h], p2[h]) {
      assert GroupBelow(gs1[h], gs2[h]);
      if h == g {
        forall c ensures Count(p1[h], c) <= Count(p2[h], c) {
          CountConcat(gs1[g], [e1], c);
          CountConcat(gs2[g], [e2], c);
          CountOne(e1, c);
          CountOne(e2, c);
        }
      }
    }
  }

  /** Placing a team only makes a state fuller. */
  lemma BelowPlaced(gs: seq<seq<Entry>>, g: nat, e: Entry)
    requires g < |gs|
    ensures Below(gs, Placed(gs, g, e))
  {
    var p := Placed(gs, g, e);
    forall h | 0 <= h < |gs| ensures GroupBelow(gs[h], p[h]) {
      if h == g {
        forall c ensures Count(gs[h], c) <= Count(p[h], c) {
          CountConcat(gs[h], [e], c);
        }
      }
    }
  }

  /** Teams that can be placed from the fuller groups can be placed from the emptier ones. */
  lemma {:induction false} CompletableBelow(rest: seq<Team>, gs1: seq<seq<Entry>>, gs2: seq<seq<Entry>>, cap: int, table: map<Team, Conf>)
    requires AllInTable(rest, table) && Below(gs1, gs2) && Completable(rest, gs2, cap, table)
    ensures Completable(rest, gs1, cap, table)
    decreases |rest|
  {
    if rest != [] {
      var g :| 0 <= g < |gs2| && PlaceableIn(rest, gs2, g, cap, table);
      var e := Pending(rest[0], table);
      OpenBelow(gs1, gs2, g, table[rest[0]], cap);
      PlacedBelow(gs1, gs2, g, e, e);
      CompletableBelow(rest[1..], Placed(gs1, g, e), Placed(gs2, g, e), cap, table);
      assert PlaceableIn(rest, gs1, g, cap, table);
    }
  }

  /** Two placements that can be made one after the other can be made in the opposite order. */
  lemma SwapOpen(gs: seq<seq<Entry>>, a: nat, e: Entry, b: nat, f: Entry, cap: int)
    requires a < |gs| && b < |gs|
    requires Open(gs, a, e.conf, cap) && Open(Placed(gs, a, e), b, f.conf, cap)
    ensures Open(gs, b, f.conf, cap) && Open(Placed(gs, b, f), a, e.conf, cap)
  {
    OpenBeforePlacement(gs, a, e, b, f.conf, cap);
    if a == b {
      CountConcat(gs[a], [f], e.conf);
      CountOne(f, e.conf);
      CountConcat(gs[a], [e], f.conf);
      CountOne(e, f.conf);
    }
  }

  /** The two orders of two placements leave groups with the same sizes and confederation counts. */
  lemma SwapBelow(gs: seq<seq<Entry>>, a: nat, e: Entry, b: nat, f: Entry)
    requires a < |gs| && b < |gs|
    ensures Below(Placed(Placed(gs, b, f), a, e), Placed(Placed(gs, a, e), b, f))
    ensures Below(Placed(Placed(gs, a, e), b, f), Placed(Placed(gs, b, f), a, e))
  {
    var p, q := Placed(Placed(gs, b, f), a, e), Placed(Placed(gs, a, e), b, f);
    forall h | 0 <= h < |p| ensures GroupBelow(p[h], q[h]) && GroupBelow(q[h], p[h]) {
      if h == a && h == b {
        forall c ensures Count(p[h], c) == Count(q[h], c) {
          CountConcat(gs[h] + [f], [e], c);
          CountConcat(gs[h], [f], c);
          CountConcat(gs[h] + [e], [f], c);
          CountConcat(gs[h], [e], c);
        }
      } else {
        assert p[h] == q[h];
      }
    }
  }

  /** Placing x then t, with the rest placeable after both, can be done as t then x. */
  lemma SwapFront(gs: seq<seq<Entry>>, x: Team, t: Team, others: seq<Team>, cap: int, table: map<Team, Conf>, g0: nat, g1: nat)
    requires x in table && t in table && AllInTable(others, table) && g0 < |gs| && g1 < |gs|
    requires Open(gs, g0, table[x], cap)
    requires Open(Placed(gs, g0, Pending(x, table)), g1, table[t], cap)
    requires Completable(others, Placed(Placed(gs, g0, Pending(x, table)), g1, Pending(t, table)), cap, table)
    ensures Completable([t] + ([x] + others), gs, cap, table)
  {
    var ex, et := Pending(x, table), Pending(t, table);
    SwapOpen(gs, g0, ex, g1, et, cap);
    var hs := Placed(gs, g1, et);
    assert Below(Placed(hs, g0, ex), Placed(Placed(gs, g0, ex), g1, et)) by {
      SwapBelow(gs, g0, ex, g1, et);
    }
    CompletableBelow(others, Placed(hs, g0, ex), Placed(Placed(gs, g0, ex), g1, et), cap, table);
    var front := [x] + others;
    assert front[0] == x && front[1..] == others;
    assert PlaceableIn(front, hs, g0, cap, table);
    var result := [t] + front;
    assert result[0] == t && result[1..] == front;
    assert PlaceableIn(result, gs, g1, cap, table);
  }

  /** Removing the element at j > 0 keeps the head and removes the element at j - 1 of the tail. */
  lemma DropAt<T>(s: seq<T>, j: nat)
    requires 0 < j < |s|
    ensures s[..j] + s[j + 1..] == [s[0]] + (s[1..][..j - 1] + s[1..][j..])
  {
    assert s[..j] == [s[0]] + s[1..][..j - 1];
    assert s[j + 1..] == s[1..][j..];
  }

  /** Moving a team of the list to its front keeps every team in the table. */
  lemma MovedInTable(rest: seq<Team>, table: map<Team, Conf>, j: nat)
    requires AllInTable(rest, table) && j < |rest|
    ensures AllInTable([rest[j]] + (rest[..j] + rest[j + 1..]), table)
  {
    var m := [rest[j]] + (rest[..j] + rest[j + 1..]);
    forall i | 0 <= i < |m| ensures m[i] in table {
      if i == 0 { assert m[i] == rest[j]; }
      else if i <= j { assert m[i] == rest[i - 1]; }
      else { assert m[i] == rest[i]; }
    }
  }

  /** Whatever team of the remaining list is taken first, the others can still be placed after it. */
  lemma {:induction false} MoveToFront(rest: seq<Team>, gs: seq<seq<Entry>>, cap: int, table: map<Team, Conf>, j: nat)
    requires AllInTable(rest, table) && j < |rest| && Completable(rest, gs, cap, table)
    ensures Completable([rest[j]] + (rest[..j] + rest[j + 1..]), gs, cap, table)
    decreases j
  {
    if j == 0 {
      assert [rest[0]] + (rest[..0] + rest[1..]) == rest;
    } else {
      var x, t, ys := rest[0], rest[j], rest[1..];
      var g0 :| 0 <= g0 < |gs| && PlaceableIn(rest, gs, g0, cap, table);
      var gs1 := Placed(gs, g0, Pending(x, table));
      assert ys[j - 1] == t;
      MoveToFront(ys, gs1, cap, table, j - 1);
      var others := ys[..j - 1] + ys[j..];
      var tFirst := [t] + others;
      MovedInTable(ys, table, j - 1);
      assert Completable(tFirst, gs1, cap, table);
      assert tFirst[0] == t && tFirst[1..] == others;
      var g1 :| 0 <= g1 < |gs1| && PlaceableIn(tFirst, gs1, g1, cap, table);
      SwapFront(gs, x, t, others, cap, table, g0, g1);
      DropAt(rest, j);
      assert [t] + (rest[..j] + rest[j + 1..]) == [t] + ([x] + others);
    }
  }
}
