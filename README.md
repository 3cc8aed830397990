# WC_2026 group draw, modelled in Dafny

This project models the group-draw engine of WC_2026, a simulator of the draw
for a 48-team tournament:
- there are 12 groups (A..L) of four slots each (`A1`..`L4`);
- teams come in four pots;
- the hosts have fixed seats: MEX in A1, CAN in B1, USA in D1.

The model covers:

- **The confederation rule** (`checker_validez_grupo`, module `ConfederationRule`). A non-UEFA team may join a group only if no team of its confederation is already there. A UEFA team may join while the group holds fewer than two UEFA teams.
- **The two lookaheads** (module `Lookahead`). Each simulates the candidate in the target group on a copy of the groups.
  - The backtracking search of `simular_sorteo_func.py` then tries to place every remaining team of the pot, undoing each failed try.
  - The greedy check of `simular_sorteo.py` only asks whether each remaining team, on its own, still has an open group.
- **Pot 1** (module `PotDraw`): the hosts are seated, and then one seed goes into slot 1 of each other group.
- **Pots 2 to 4** (module `LaterPots`):
  - draw a team;
  - scan the groups A..L for the first one with fewer than n teams that passes the rule and the lookahead;
  - draw one of its free slots and record the placement.
  - `DrawPot` is `sortear_bombo_n`. With a strategy parameter, it is also each of the three pot loops of the script `simular_sorteo.py`.
  - `RunDraw` is the script's whole run: pot 1, then pots 2, 3 and 4.
- **The GUI session state** (`SorteoManager`, module `Session`):
  - `reset`;
  - the 50-message log;
  - the placement step of `run_bombo_n`.

State is modelled as follows.
- **The draw state.** `Draw` holds three parts:
  - the team list of each group (`grupos_dict`);
  - the free slots of each group (`bombos_slots`);
  - the assignment map (`asignaciones_sorteo`).
- **Groups.** A group is its index 0..11. A slot is `Slot(group, position)`, printed as `C3`.
- **Team lookups.** The team table (the `df_bombos` lookup of a team's confederation) is a parameter, `map<Team, Conf>`.
- **Random draws.** The draws (`.sample(1)` and `random.choice`) are nondeterministic choices (`:|`) from the current list. Every contract holds whatever team or slot is drawn.

Pot and script procedures in the Python code mutate the dictionaries they are given. Their models return the new `Draw` value, and the caller rebinds it. The GUI's `SorteoManager` is a class whose methods update its fields in place.

The main results are:
- **Both lookaheads are specified exactly.**
  - `Lookahead.Lookahead` returns true iff the remaining teams, in order, can each be put in an open group (`Completable`). The backtracking search is therefore sound and complete.
  - `GreedyLookahead` returns true iff each remaining team has an open group in the one simulated state.
- **How the two lookaheads relate.**
  - Backtracking success implies greedy success (`BacktrackingImpliesGreedy`).
  - The converse fails: `GreedyPassesDeadEnd` gives a concrete pot-2 state of twelve groups that the greedy check passes but from which no completion exists. The state is built only for its group sizes and confederations, which are all the lookaheads read: its filler entries repeat one code and hold no slot, so it is not a state the draw itself reaches.
- **No dead end under backtracking.** Whichever team is drawn first, a pot that can be completed from its starting state is never stranded by the backtracking search. `DrawPot` never raises the no-valid-group error in that case. The proof goes through order independence (`MoveToFront`) and monotonicity (`CompletableBelow`).
- **Invariants of every successful draw.**
  - Every group keeps the confederation rule.
  - No slot is used twice, and every slot is either free or held by exactly one team of its group (`SlotsAccounted`).
  - For pots that share no team (`PotsDisjoint`), the group lists and the assignment map agree (`Consistent`).
  - The hosts and seeds head their groups.
  - With full pots, every group ends with four teams, its k-th team drawn from pot k.
- **The GUI log.** It always shows exactly the latest 50 messages of the session's history.

## Model

| member | source | states |
|---|---|---|
| ConfederationRule.Admits | 02_scripts/simular_sorteo_func.py:10-37 | a team of confederation c is accepted iff the group holds fewer than Limit(c) teams of c: none for a non-UEFA confederation, fewer than two for UEFA |
| ConfederationRule.ValueCounts | 02_scripts/simular_sorteo_func.py:18-21 | the value count holds exactly the confederations present, each mapped to its number of occurrences |
| ConfederationRule.NonUefaRule | 02_scripts/simular_sorteo_func.py:25-29 | a non-UEFA team is accepted iff no entry of the group has its confederation |
| ConfederationRule.RejectionPersists | 02_scripts/simular_sorteo.py:18-35 | the rule is monotone: a team rejected for a group stays rejected after any teams join it |
| ConfederationRule.AdmittedKeepsLegal | 02_scripts/simular_sorteo_func.py:25-37 | appending an admitted team to a group within the limits keeps it within the limits |
| ConfederationRule.AdmittedKeepsRule | 02_scripts/simular_sorteo_func.py:167-191 | placing an admitted team keeps every group within the confederation limits |
| Lookahead.Simulate | 02_scripts/simular_sorteo_func.py:42-44 | the copy has the same groups except the target one, which gains the candidate, with no slot and its confederation, at its end |
| Lookahead.AssignRemaining | 02_scripts/simular_sorteo_func.py:47-66 | the recursive push/pop search over the copied groups returns true iff the remaining teams are Completable from the groups it received, and on failure leaves them unchanged |
| Lookahead.Lookahead | 02_scripts/simular_sorteo_func.py:40-68 | true iff the remaining teams are Completable once the candidate is simulated in the target group; true for no remaining teams; the caller's groups are passed by value and never changed |
| Lookahead.CompletableHasChoice | 02_scripts/simular_sorteo_func.py:47-66 | soundness: if the search succeeds, an explicit group for each remaining team exists, each open at its turn |
| Lookahead.ChoiceMakesCompletable | 02_scripts/simular_sorteo_func.py:47-66 | completeness: any explicit valid choice of groups makes the search succeed |
| Lookahead.CompletableIffChoice | 02_scripts/simular_sorteo_func.py:47-66 | the search succeeds iff a complete valid placement of the remaining teams exists |
| Lookahead.GreedyLookahead | 02_scripts/simular_sorteo.py:40-87 | true iff every remaining team has, on its own, an open group in the one simulated state (candidate placed), never updated team by team; true for no remaining teams |
| Lookahead.OpenBeforePlacement | 02_scripts/simular_sorteo.py:18-35 | a group open for a team after a placement was open before it (capacity and rule are monotone) |
| Lookahead.BacktrackingImpliesGreedy | 02_scripts/simular_sorteo.py:63-87 | whenever the backtracking search succeeds, the greedy check succeeds on the same state |
| Lookahead.GreedyPassesDeadEnd | 02_scripts/simular_sorteo.py:63-87 | the converse fails: in a pot-2 state of twelve groups (nine full, one holding a team of confederation x, two holding a UEFA team), a non-UEFA candidate admitted to the last group leaves two remaining teams of x that pass the greedy check, yet no completion exists |
| Lookahead.OpenBelow | 02_scripts/simular_sorteo_func.py:54-58 | a group open for a team in a fuller state is open in an emptier one |
| Lookahead.PlacedBelow | 02_scripts/simular_sorteo_func.py:61 | appending teams of one confederation to the same group keeps one state no fuller than the other |
| Lookahead.BelowPlaced | 02_scripts/simular_sorteo_func.py:61 | placing a team only makes the state fuller |
| Lookahead.CompletableBelow | 02_scripts/simular_sorteo_func.py:47-66 | teams that can all be placed from a fuller state can be placed from an emptier one |
| Lookahead.SwapOpen | 02_scripts/simular_sorteo_func.py:54-58 | two placements possible one after the other are possible in the opposite order |
| Lookahead.SwapBelow | 02_scripts/simular_sorteo_func.py:61 | the two orders of two placements give groups of equal size and confederation counts: each state is below the other |
| Lookahead.SwapFront | 02_scripts/simular_sorteo_func.py:47-66 | if x then t can be placed with the rest completable, then t then x can be too |
| Lookahead.MoveToFront | 02_scripts/simular_sorteo_func.py:47-66 | the order of the remaining teams does not matter: if they can all be placed, they can be placed with any one of them taken first |
| PotDraw.RemoveFirst | 02_scripts/simular_sorteo_func.py:197-198 | removing a drawn slot from a free list takes out exactly one occurrence of it |
| PotDraw.Without | 02_scripts/simular_sorteo_func.py:162-163 | the pot after a draw holds exactly the other teams of the pot |
| PotDraw.WithoutMembers | 02_scripts/simular_sorteo_func.py:162-163 | the drawn team leaves the pot's set of teams and nothing else does |
| PotDraw.FreshGroups | 02_scripts/GUI_sorteo.py:79 | twelve empty team lists |
| PotDraw.FreshSlots | 02_scripts/GUI_sorteo.py:81 | group g starts with free slots g1, g2, g3, g4 |
| PotDraw.Initial | 02_scripts/simular_sorteo_func.py:72-78 | twelve empty groups, group g with free slots g1..g4, and no assignment |
| PotDraw.InitialConsistent | 02_scripts/simular_sorteo_func.py:72-78 | the empty skeleton has every slot free, no assignment, and keeps the rule |
| PotDraw.RecordPlaces | 02_scripts/simular_sorteo_func.py:196-212 | a placement appends the team with its slot and confederation to group g alone, takes one copy of the slot out of g's free slots and leaves the other groups' slots alone, and records (g, slot, confederation) for the team, keeping every other team's assignment |
| PotDraw.RecordKeepsSlots | 02_scripts/simular_sorteo_func.py:197-206 | recording a placement with a slot of the group's free list keeps every slot either free or held, exactly once |
| PotDraw.RecordKeepsConsistent | 02_scripts/simular_sorteo_func.py:196-212 | recording a new team keeps the group lists and assignment map in agreement |
| PotDraw.FreeSlotCount | 02_scripts/simular_sorteo_func.py:197-206 | in an accounted state a group's free slots and teams add up to four |
| PotDraw.SlotInGroup | 02_scripts/simular_sorteo_func.py:197-206 | every team of a group sits in a slot of that group, and no two teams of it share a slot |
| PotDraw.NoTeamOrSlotTwice | 02_scripts/simular_sorteo_func.py:196-212 | in a consistent state no team and no slot appears twice across all groups |
| PotDraw.TotalPlaced | 02_scripts/simular_sorteo_func.py:202-206 | a placement adds exactly one team to the draw |
| PotDraw.SeatOne | 02_scripts/simular_sorteo_func.py:120-129 | a team seated in an untouched group holds slot 1 alone, slots 2..4 stay free, no other group changes, and the state stays consistent |
| PotDraw.SeatHosts | 02_scripts/simular_sorteo_func.py:81-100 | MEX is in A1, CAN in B1 and USA in D1, those slots are gone, only the hosts are assigned, and the other groups are untouched |
| PotDraw.PotLeftDraws | 02_scripts/simular_sorteo_func.py:113-118 | a seed drawn from pot 1 is a pot-1 team, not a host and not drawn before, and leaves the pot |
| PotDraw.SeedGroup | 02_scripts/simular_sorteo_func.py:110-131 | a host group is skipped; otherwise a seed is drawn into slot 1 of the group, and it fails exactly when the pot is empty |
| PotDraw.DrawPotOne | 02_scripts/simular_sorteo_func.py:70-142 | fails (empty pot) iff pot 1 has fewer than nine non-host teams; otherwise the hosts are seated and every other group holds one distinct seed of pot 1 in slot 1 with three free slots, in a consistent state that keeps the rule |
| LaterPots.FindGroup | 02_scripts/simular_sorteo_func.py:167-191 | finds the first group in order A..L with fewer than n teams that passes the rule and the lookahead; none iff no group does |
| LaterPots.BacktrackingQualifiesGreedy | 02_scripts/simular_sorteo.py:181-205 | a group the backtracking search accepts passes the greedy script's tests too |
| LaterPots.GreedyNoLater | 02_scripts/simular_sorteo.py:181-205 | on the same state the greedy script never picks a later group than the backtracking search |
| LaterPots.GreedyStuckBacktrackingStuck | 02_scripts/simular_sorteo.py:207-208 | when the greedy script finds no group, neither does the backtracking search |
| LaterPots.QualifyingGroupHasSlot | 02_scripts/simular_sorteo_func.py:170-197 | a group with fewer than n <= 4 teams has a free slot to draw |
| LaterPots.PickPlacement | 02_scripts/simular_sorteo_func.py:165-198 | the group is the first qualifying one and the slot one of its free slots; the no-valid-group error names the team and happens iff no group qualifies; an empty free list cannot happen in an accounted state |
| LaterPots.PlaceTeam | 02_scripts/simular_sorteo_func.py:165-212 | as PickPlacement, and the new state appends the team to that group, removes the slot and records (group, slot, confederation) |
| LaterPots.PotProgressSteps | 02_scripts/simular_sorteo_func.py:161-212 | each placement draws a new team out of the pot, grows one group by it and keeps the rule, the slot accounting and consistency |
| LaterPots.PotProgressEnds | 02_scripts/simular_sorteo_func.py:157-159 | when the loop stops, min(12, pot size) teams are drawn, and a pot of at most 12 is drawn entirely |
| LaterPots.CompletableWithout | 02_scripts/simular_sorteo_func.py:178-185 | teams that can all be placed can still be placed with some of them taken away |
| LaterPots.BacktrackingFinds | 02_scripts/simular_sorteo_func.py:177-194 | while the teams left can all be placed, the backtracking search finds a group for whichever team is drawn |
| LaterPots.BacktrackingKeepsCompletable | 02_scripts/simular_sorteo_func.py:196-206 | after the recorded placement, the teams left can still all be placed |
| LaterPots.DrawNext | 02_scripts/simular_sorteo_func.py:161-214 | one draw-and-place turn: on success a team of the pot is drawn, taken out, and recorded in the first qualifying group with one of its free slots (DrawStep); the no-valid-group error means the drawn team has no qualifying group in the current state (Stuck); the invariant advances; with backtracking a completable pot stays completable and never errors |
| LaterPots.DrawPot | 02_scripts/simular_sorteo_func.py:145-216 | at most twelve placements from pot n. Groups only grow by pot-n teams and stay within n teams. Every drawn team is assigned, and min(12, pot size) teams are added. The rule, slot accounting and consistency are kept. Errors name a pot team. The ghost run traces the states: each comes from the one before by a DrawStep; a success is the last state, reached when the pot ran dry or after twelve placements; the no-valid-group error is Stuck in the last state. With backtracking, a pot completable from the start never hits the no-valid-group error |
| LaterPots.PotOneHeads | 02_scripts/simular_sorteo.py:129-162 | after pot 1 every group holds exactly its host or seed, in slot 1 |
| LaterPots.HeadsKept | 02_scripts/simular_sorteo.py:216-220 | later pots only append, so each group's host or seed stays at its head |
| LaterPots.FullPotFillsLayer | 02_scripts/simular_sorteo.py:171-228 | a pot of at least 12 teams drawn onto groups of n-1 teams gives every group n teams, the n-th from that pot |
| LaterPots.ChainSound | 02_scripts/simular_sorteo.py:90-365 | after the four pots the rule holds, slots are accounted, hosts and seeds head their groups, no group exceeds four teams, and only pot teams are assigned |
| LaterPots.ChainConsistent | 02_scripts/simular_sorteo.py:165-365 | with pots that share no team, group lists and assignments agree after the whole draw |
| LaterPots.ChainFull | 02_scripts/simular_sorteo.py:165-365 | with pots of at least 12 teams, every group ends with four teams, its k-th team from pot k |
| LaterPots.DrawLaterPots | 02_scripts/simular_sorteo.py:165-365 | pots 2, 3 and 4 in turn, each traced as in DrawPot from the state the previous one left; the result is the first pot's error or the last state; every error is a no-valid-group error for a team of those pots |
| LaterPots.RunDraw | 02_scripts/simular_sorteo.py:90-365 | the whole script: the empty-pot error iff pot 1 lacks nine non-host seeds; otherwise pot 1 is done as DrawPotOne states, and pots 2 to 4 follow as traced runs, the first error ending the draw; a no-valid-group error names a team of pots 2 to 4 and is Stuck in the state reached; a success is sound, consistent for disjoint pots and complete for full pots |
| Session.Latest | 02_scripts/GUI_sorteo.py:89-93 | the window holds min(|history|, 50) messages, the newest ones of the history, in order |
| Session.AppendedKeeps | 02_scripts/GUI_sorteo.py:89-93 | logging ends the log with the message, keeps the earlier messages in order, and drops only the oldest once the log already held fifty |
| Session.LogWindow | 02_scripts/GUI_sorteo.py:89-93 | logging one message into the window of a history gives the window of the longer history |
| Session.LogAllWindow | 02_scripts/GUI_sorteo.py:89-93 | after any run of messages the log holds exactly the latest 50 of the whole history |
| Session.SlotName | 02_scripts/GUI_sorteo.py:81 | a slot's name is its group letter followed by its number |
| Session.FreeSlotIsOfGroup | 02_scripts/GUI_sorteo.py:426 | a free slot drawn from group g's list is one of g1..g4 |
| Session.SorteoManager.constructor | 02_scripts/GUI_sorteo.py:73-74 | a new session is in the reset state |
| Session.SorteoManager.Reset | 02_scripts/GUI_sorteo.py:76-87 | whatever the prior state: groups A..L, empty team lists, free slots g1..g4, no assignments, pot 1, not processing, not finished, no current team, empty log; the state is consistent and keeps the rule |
| Session.SorteoManager.Log | 02_scripts/GUI_sorteo.py:89-93 | appends the message as the newest entry, drops the oldest beyond 50, keeps the window invariant and changes nothing else |
| Session.SorteoManager.Seat | 02_scripts/GUI_sorteo.py:427-437 | the session's draw state becomes exactly the Record of the placement, every other field and the log stay; slot accounting is kept, and so are consistency for a new team and the rule for an admitted one |
| Session.SorteoManager.PlaceDrawnTeam | 02_scripts/GUI_sorteo.py:398-439 | the group is the first with fewer than n teams passing the rule and the backtracking lookahead. The team is appended there with a slot taken from that group's free list, and the same (group, slot, confederation) is recorded in the assignments; the placement is logged. The logged texts are `PlacedMessage` and, when no group qualifies, `NoGroupMessage`, the GUI's own texts. If no group qualifies, the critical error is logged and the state is unchanged. Slot accounting, consistency and the rule are kept |

## Left out

- The NiceGUI page, cards, banners, highlight effects and flag table are presentation only.
- asyncio pacing, pause and step control, and `ui.notify` are left out: they exist for animation, not for the draw.
- `fast_draw` is left out: it fills groups without the rule or the lookahead, so it is not a second engine.
- `simular_bombos.py`, which loads and prepares the pots, is not part of this model. The pots and the team table are inputs.
- `print` and `verbose` output and the final tabulation of `simular_sorteo.py` (lines 367-392) are output formatting and are left out.
- Random sampling is not modelled as a generator. Each draw is an arbitrary choice from the current list, so every contract holds for every possible draw.
- The lookup `df_bombos.loc[...].iloc[0]` fails for a team missing from the table. The model requires every team to be in the table instead, as every caller in the source guarantees.
- The GUI's `run_bombo_n` loop around the placement step is left out: the team draw, the "Sorteando equipo" message and the `current_team` and `current_bombo` updates. Only the placement step of lines 398-439 is modelled.
- LaterPots.DrawPot: on an error the Python procedure leaves its dictionaries with the placements made before the exception. The model returns only the error, because the exception ends the run anyway.
- PotDraw.DrawPotOne: `grupos_dict` is built from the assignment map after the seeding loop. The model appends each seat to its group as it is made. The resulting lists are the same, since each group receives exactly one team in pot 1.
- LaterPots.DrawPot: the no-dead-end guarantee is stated for a pot that can be completed from its starting state. Whether the whole draw (pots 2 to 4 together) is always completable depends on the pot contents and is not stated.
- Lookahead.Lookahead: Python's copies of the per-group lists are modelled by passing the groups by value. The search itself works on a fresh array, so the caller's groups cannot change.

- The GUI's `start_simulation` (GUI_sorteo.py:450-481) is not part of this model. When `run_bombo_n` finds no group for a team, it logs the critical error and returns (GUI_sorteo.py:417-420). `start_simulation` then goes on with the next pot, and at the end logs "--- SORTEO FINALIZADO ---", reports success and sets `finished` (GUI_sorteo.py:467-471). `RunDraw` models the script, where the error is an exception that ends the run.
- LaterPots.DrawPot: the empty-free-list error is only shown impossible from a state whose slots are accounted for. In other states it is not tied to the state that raised it.

Which lookahead each path uses follows the code. `GUI_sorteo.py` imports the backtracking `lookahead` of `simular_sorteo_func.py`, so `PlaceDrawnTeam` uses the backtracking search. `simular_sorteo.py` defines and uses the greedy one, and `RunDraw` takes the strategy as a parameter. Under the rule and capacity test of the code, the greedy check never rejects a group that the backtracking search accepts (`BacktrackingQualifiesGreedy`). It can accept a group that leaves the rest of the pot without a completion (`GreedyPassesDeadEnd`).
