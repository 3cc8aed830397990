/// Values shared by the group-draw engine: team codes, confederations,
/// slots, the entries kept in a group's team list and the records kept in
/// the assignment map.
module DrawTypes {

  /** A team's three-letter code, such as "MEX". */
  type Team = string

  /** The confederations a qualified team belongs to; UEFA is the one allowed twice per group. */
  datatype Conf = UEFA | CONMEBOL | CONCACAF | AFC | CAF | OFC

  /** Twelve groups; a group is named by its position in the order A..L (0 is A, 11 is L). */
  const NumGroups: nat := 12

  /** The group letters, in the order the draw scans them. */
  const GroupLetters: seq<char> := "ABCDEFGHIJKL"

  /** Every group has four slots, numbered 1 to 4. */
  const SlotsPerGroup: nat := 4

  /** Slot `pos` of group `group`, which the source writes as letter and number ("A1"). */
  datatype Slot = Slot(group: nat, pos: nat)

  datatype Option<T> = None | Some(value: T)

  /** One team in a group's list: code, slot (None for a simulated placement) and confederation. */
  datatype Entry = Entry(code: Team, slot: Option<Slot>, conf: Conf)

  /** A team's record in the assignment map: group, slot and confederation. */
  datatype Assignment = Assignment(group: nat, slot: Slot, conf: Conf)

  /** The four slots of group g, in order g1, g2, g3, g4. */
  function AllSlots(g: nat): seq<Slot>
  {
    [Slot(g, 1), Slot(g, 2), Slot(g, 3), Slot(g, 4)]
  }

  /** The team codes of a list, as a set. */
  function Members(ts: seq<Team>): set<Team>
  {
    set t | t in ts
  }

  /** Every team of the list has a row in the team table (the source's lookup fails otherwise). */
  predicate AllInTable(ts: seq<Team>, table: map<Team, Conf>)
  {
    forall i :: 0 <= i < |ts| ==> ts[i] in table
  }
}
