/// The confederation rule (checker_validez_grupo): a group holds at most one
/// team of each confederation, except UEFA, which may have two.
module ConfederationRule {
  import opened DrawTypes

  /** The confederations of a group's entries, in list order. */
  function Confs(grp: seq<Entry>): (cs: seq<Conf>)
    ensures |cs| == |grp|
    ensures forall i :: 0 <= i < |grp| ==> cs[i] == grp[i].conf
  {
    seq(|grp|, i requires 0 <= i < |grp| => grp[i].conf)
  }

  /** How many teams of confederation c the group holds. */
  function Count(grp: seq<Entry>, c: Conf): nat
  {
    multiset(Confs(grp))[c]
  }

  /** How many teams of confederation c one group may hold. */
  function Limit(c: Conf): nat
  {
    if c == UEFA then 2 else 1
  }

  /** A value count: each confederation that occurs in cs, mapped to its number of occurrences. */
  function ValueCounts(cs: seq<Conf>): (m: map<Conf, nat>)
    ensures forall c :: c in m <==> c in cs
    ensures forall c :: c in m ==> m[c] == multiset(cs)[c]
  {
    if cs == [] then map[]
    else
      var rest := ValueCounts(cs[1..]);
      assert cs == [cs[0]] + cs[1..];
      rest[cs[0] := (if cs[0] in rest then rest[cs[0]] else 0) + 1]
  }

  /**
   * checker_validez_grupo: may a team of confederation c join a group whose
   * list is grp? A non-UEFA team only if no team of its confederation is
   * there; a UEFA team only while fewer than two UEFA teams are there.
   */
  function Admits(grp: seq<Entry>, c: Conf): (ok: bool)
    ensures ok <==> Count(grp, c) < Limit(c)
  {
    var counts := ValueCounts(Confs(grp));
    if c != UEFA then c !in counts
    else (if UEFA in counts then counts[UEFA] else 0) < 2
  }

  /** The non-UEFA case, phrased over the group's entries: rejected exactly when a team of c is present. */
  lemma NonUefaRule(grp: seq<Entry>, c: Conf)
    requires c != UEFA
    ensures Admits(grp, c) <==> forall i :: 0 <= i < |grp| ==> grp[i].conf != c
  {
    if !Admits(grp, c) {
      assert c in multiset(Confs(grp));
      var i :| 0 <= i < |grp| && Confs(grp)[i] == c;
      assert grp[i].conf == c;
    }
  }

  lemma CountConcat(grp: seq<Entry>, more: seq<Entry>, c: Conf)
    ensures Count(grp + more, c) == Count(grp, c) + Count(more, c)
  {
    assert Confs(grp + more) == Confs(grp) + Confs(more);
  }

  /** Monotonicity: a team the rule rejects for a group stays rejected however many teams join the group. */
  lemma RejectionPersists(grp: seq<Entry>, more: seq<Entry>, c: Conf)
    requires !Admits(grp, c)
    ensures !Admits(grp + more, c)
  {
    CountConcat(grp, more, c);
  }

  /** Every confederation within its limit in this group. */
  ghost predicate Legal(grp: seq<Entry>)
  {
    forall c :: Count(grp, c) <= Limit(c)
  }

  /** Every group within the confederation limits. */
  ghost predicate RuleHolds(gs: seq<seq<Entry>>)
  {
    forall g :: 0 <= g < |gs| ==> Legal(gs[g])
  }

  /** Adding a team the rule admits keeps a legal group legal. */
  lemma AdmittedKeepsLegal(grp: seq<Entry>, e: Entry)
    requires Legal(grp) && Admits(grp, e.conf)
    ensures Legal(grp + [e])
  {
    forall c ensures Count(grp + [e], c) <= Limit(c) {
      CountConcat(grp, [e], c);
      assert Confs([e]) == [e.conf];
    }
  }

  /** Placing an admitted team in group g keeps every group legal. */
  lemma AdmittedKeepsRule(gs: seq<seq<Entry>>, g: nat, e: Entry)
    requires g < |gs| && RuleHolds(gs) && Admits(gs[g], e.conf)
    ensures RuleHolds(gs[g := gs[g] + [e]])
  {
    AdmittedKeepsLegal(gs[g], e);
  }
}
