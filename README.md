# Elite Planet Wars bot: a Dafny model

This project models the turn logic of the elite Planet Wars bot (`src/BotElite.js`). It also models the policy of one message type, HostileDistance (`src/messages/MessageHostileDistance.js`).

Each turn the bot walks over the planets it owns. Every planet that passes the gate gets one tactic, in a fixed order:

- flee when losing hard;
- claim the ungarrisoned neutral planets listed on turn 1;
- take the preferred start planet;
- reinforce;
- conquer, with delayed "sniping" options considered;
- dump excess ships.

Every move added lowers the RequestActive array of its destination in place.

HostileDistance seeds 0 at every hostile planet. It forwards messages over all links, adding one per hop, and keeps the minimum of what arrives. Here that is modelled as rounds of relaxation over the links. The lemmas prove that the settled value is the smallest hop count from a hostile planet.

Files:

- `wrappers.dfy`: `Option` and `Result`.
- `game.dfy`: planets, links, moves and the galaxy of one turn. The collaborators the bot consults are functions carried by the galaxy: the future simulator, the move score and the two distances.
- `select.dfy`: the selection idioms the source writes with `for … return`, `filter` and `reduce`. These are the first true entry, the first maximum and minimum (a later element wins only when strictly better), the indices of a filter, and `Math.ceil(x/2)`.
- `requests.dfy`: the three loops of `tryAddMove`. Each loop is a method proved against its specification function, with lemmas about the combined effect.
- `tactics.dfy`:
  - `getBetterShipcountForPlanet` and `getNeededExtraShips`;
  - the gate of `getMoves`;
  - `getMoveReinforcement`, `getMoveDump` and `getMoveFlee`;
  - the turn-1 setup of `processData`;
  - the stable sort of the free planets.
- `conquest.dfy`: `getMoveConquest` as a specification function, the method with its loops proved equal to it, and its properties.
- `bot.dfy`: the class `BotElite` with its mutable fields (`requestActive`, `preferredStartPlanet`, `freePlanets`). It holds `ProcessData`, `TryAddMove`, `MoveForPlanet` and `GetMoves`, each proved against a functional description of one planet's step and of the whole round, plus lemmas about that round.
- `hostile_distance.dfy`: the message's seed, default, reduce and per-route rules, and the proof that relaxation settles on the hop distance.

## Model

| member | source | states |
|---|---|---|
| Elite.BotElite.constructor | src/BotElite.js:36-40 | a new bot has no preferred start planet and no free planets |
| Elite.BotElite.ProcessData | src/BotElite.js:42-76 | on turn 1 of a routed galaxy, the free planets become the ungarrisoned neutral planets in planet order, and the preferred start planet is set when one is found; otherwise both lists are unchanged |
| Elite.BotElite.TryAddMove | src/BotElite.js:127-146 | no move: returns false and changes nothing; a move: appended at the end, returns true, and only its destination's request array changes, as `AfterMove` describes |
| Requests.AfterMove | src/BotElite.js:133-144 | the request array after one move, as the three loops leave it; `AfterMoveEffect` states it entry by entry |
| Requests.Decreased | src/BotElite.js:136-137 | the array after the first loop; `LeveledEffect` states its entries |
| Requests.Leveled | src/BotElite.js:139-140 | the array after the level-off loop, stopping at the first entry at or below the cap; `LeveledEffect` states its entries |
| Requests.Trimmed | src/BotElite.js:142-143 | the array after the pop loop; `PoppedAskedNothing` states what it removes |
| Requests.LowerRequests | src/BotElite.js:133-144 | the three loops leave exactly `AfterMove` of the array (untouched when the array is not longer than the arrival turn) |
| Requests.DecreaseRequests | src/BotElite.js:136-137 | the first loop lowers every entry up to and including the arrival turn by the ship count |
| Requests.LevelOff | src/BotElite.js:139-140 | the level-off loop, which re-reads the already lowered arrival entry, leaves `Leveled` |
| Requests.PopRequests | src/BotElite.js:142-143 | the pop loop leaves the longest prefix that keeps index 0 and ends in a positive entry |
| Requests.AfterMoveEffect | src/BotElite.js:133-144 | the array never grows and keeps index 0; it has length 1 or ends positive; entries before the arrival turn drop by exactly the ships; the arrival entry drops by twice the ships when ships > 0; later entries are capped at old[turns] − 3·ships up to the first one at or below the cap, and the rest are unchanged |
| Requests.LeveledEffect | src/BotElite.js:136-140 | the same statement for the array before popping, entry by entry over its whole length |
| Requests.PoppedAskedNothing | src/BotElite.js:142-143 | the result is a prefix of the levelled array, and every popped entry was ≤ 0 |
| Requests.LateMoveLeavesRequests | src/BotElite.js:134 | a move arriving at or past the end of the array leaves it untouched |
| Requests.ApplyMovesAppend | src/BotElite.js:127-146 | adding moves in two batches lowers the requests as adding them all at once does |
| Tactics.Available | src/BotElite.js:198-201 | the garrison plus the delay, less a positive passive reservation; `BetterShipcount` and `EligibleHasShips` state its use |
| Tactics.Eligible | src/BotElite.js:86-92 | the gate: losing hard, or a passive reservation below the garrison and an active request of 0 now; `VisitSpec` and `RoundMovesPassGate` state what it lets through |
| Tactics.BetterShipcount | src/BotElite.js:197-207 | with available = ships + delay − max(reserved, 0): the result is ≤ available when available ≥ 0; in the early game it is min(requested, available); otherwise max(min(requested, available), ⌈available/2⌉), so at least half of what is available |
| Tactics.NeededExtraShips | src/BotElite.js:209-214 | never negative; positive exactly when the passive request at that offset is defined and positive; equal to it when it is defined and non-negative |
| Tactics.EligibleHasShips | src/BotElite.js:84-93 | a planet through the gate that is not losing hard has a non-negative count of ships available |
| Tactics.Reinforcement | src/BotElite.js:218-242 | getMoveReinforcement; its properties are the four `Reinforcement…` lemmas below |
| Tactics.AlliedLinks | src/BotElite.js:220 | a link is kept exactly when it is one of the planet's links and leads to a planet the bot owns |
| Tactics.ReinforcementNoneWhen | src/BotElite.js:218-242 | no reinforcement exactly when no allied link can take a delivery in time and none is under positive local pressure at least as high as the planet's own |
| Tactics.ReinforcementShape | src/BotElite.js:218-242 | a reinforcement goes along an allied link, sized from that planet's request for the arrival turn when deliverable, or else from its positive local pressure, which is at least as high as the planet's own |
| Tactics.ReinforcementPrefersRequests | src/BotElite.js:222-229 | when any allied link can take a delivery, the reinforcement serves a request and is sized from it |
| Tactics.ReinforcementNeverStarves | src/BotElite.js:218-242 | from a planet through the gate and not losing hard, a reinforcement never sends more than is available |
| Tactics.Flee | src/BotElite.js:364-388 | getMoveFlee; `FleeSpec` states when it flees and where |
| Tactics.FleeSpec | src/BotElite.js:364-388 | flees exactly when a hostile fleet lands next turn, always with the whole garrison; goes to a farthest planet when some arrival would fall past turn 500, and otherwise along a link to the neighbour with the least local pressure |
| Tactics.MinLinkTurns | src/BotElite.js:316-318 | the travel time of some link, and no longer than any link |
| Tactics.HostileWithin | src/BotElite.js:321-323 | a planet is listed exactly when it is hostile and closer than the reach; the list is empty exactly when there is no such planet |
| Tactics.Strongest | src/BotElite.js:324-330 | one of the given planets, with at least as many ships as each of them and strictly more than every one listed before it |
| Tactics.ClosestToFront | src/BotElite.js:336-342 | the end of one of the given links, with a hostile distance no larger than any of them and strictly smaller than every one listed before it |
| Tactics.Dump | src/BotElite.js:304-362 | getMoveDump; its properties are `DumpSpec` and the three `DumpTowards…`/`DumpOn…` lemmas |
| Tactics.WinningTarget | src/BotElite.js:319-343 | the winning branch's target; `StrongestHostileTarget` and `FrontTarget` state which planet it is |
| Tactics.PressureTarget | src/BotElite.js:345-357 | the fallback target under the highest global pressure; `DumpTowardsPressure` states when it is used |
| Tactics.DumpSpec | src/BotElite.js:304-362 | no dump under local pressure or while any neighbour is not the bot's on arrival; a dump is an id-0 move from the planet with the garrison sized by `BetterShipcount` and the real travel time |
| Tactics.DumpOnStrongestHostile | src/BotElite.js:319-330 | when winning (hard, or in the late game) with a hostile planet within 3× the shortest link, the dump goes to the hostile planet in reach holding the most ships |
| Tactics.StrongestHostileTarget | src/BotElite.js:321-330 | the winning target, when a hostile planet is in reach, is the hostile planet in reach with the most ships |
| Tactics.DumpTowardsFront | src/BotElite.js:331-343 | when winning with no hostile planet in reach but an allied neighbour, the dump goes to the allied neighbour with the smallest hostile distance |
| Tactics.FrontTarget | src/BotElite.js:333-342 | the winning target without a hostile planet in reach is an allied neighbour with the smallest hostile distance |
| Tactics.DumpTowardsPressure | src/BotElite.js:345-357 | otherwise the dump exists exactly when some neighbour's global pressure is at least the planet's own; it then goes to a neighbour under the highest global pressure |
| Tactics.FreePlanets | src/BotElite.js:71-73 | exactly the neutral planets without ships, in increasing planet order |
| Tactics.MoreFertile | src/BotElite.js:57-63 | exactly the planets of one kind that are more fertile than the given total, in increasing order |
| Tactics.MostFertile | src/BotElite.js:64-69 | one of the given planets, at least as fertile as each of them and strictly more fertile than every one listed before it |
| Tactics.MoreFertileNonEmpty | src/BotElite.js:60 | the filtered list is non-empty exactly when some planet of that kind is more fertile than the total |
| Tactics.PreferredStartAsWritten | src/BotElite.js:57-70 | the turn-1 choice as written, throwing on an empty `reduce`; `PreferredStartAgrees` and `PreferredStartThrows` state when it throws |
| Tactics.PreferredStart | src/BotElite.js:57-70 | the corrected turn-1 choice; `PreferredStartWhen` and `PreferredStartMostFertile` state it |
| Tactics.PreferredStartWhen | src/BotElite.js:60-70 | a start planet is chosen exactly when some hostile planet and some neutral planet are each more fertile than all the bot's planets together |
| Tactics.PreferredStartMostFertile | src/BotElite.js:62-69 | the chosen planet is neutral and more fertile than the bot's planets together; no neutral planet is more fertile, and none before it is as fertile |
| Tactics.MostFertileFirst | src/BotElite.js:64-69 | over planets listed in increasing order, the reduce picks a most fertile one, and no earlier planet is as fertile |
| Tactics.PreferredStartAgrees | src/BotElite.js:60-70 | the as-written choice throws exactly when a hostile planet but no neutral planet is more fertile; wherever it does not throw, the corrected choice agrees with it |
| Tactics.PreferredStartThrows | src/BotElite.js:62-69 | a three-planet galaxy on which the as-written `reduce` throws |
| Tactics.SortByKey | src/BotElite.js:156 | the stable sort of the free planets; `SortByKeySpec` states that it is sorted and a permutation |
| Tactics.SortByKeySpec | src/BotElite.js:156 | the free planets' order is sorted by distance and is a permutation of the list |
| Conquests.Conquest | src/BotElite.js:246-302 | getMoveConquest; `ConquestSpec` states its properties |
| Conquests.LinkOption | src/BotElite.js:251-289 | one link's option; `ImmediateLinkOption` and `OptionsFromLinks` state it |
| Conquests.SnipeOption | src/BotElite.js:270-278 | one inbound fleet's delayed option; `SnipeOptionIsDelayed` states it |
| Conquests.Improve | src/BotElite.js:268-285 | the candidate after the inbound fleets; `ImproveKeepsOrDelays` states it |
| Conquests.SearchInbound | src/BotElite.js:268-285 | the loop over inbound fleets ends on the candidate `Improve` describes |
| Conquests.GetLinkOption | src/BotElite.js:251-289 | one link's contribution equals `LinkOption` |
| Conquests.BestScored | src/BotElite.js:290-297 | the reduce over the options ends on the first option with the highest score |
| Conquests.GetMoveConquest | src/BotElite.js:246-302 | the method with its loops computes exactly `Conquest` |
| Conquests.SnipeOptionIsDelayed | src/BotElite.js:270-278 | every delayed option carries id ≥ 1000000, since its delay is at least one turn |
| Conquests.ImproveKeepsOrDelays | src/BotElite.js:268-285 | the search over inbound fleets keeps the immediate candidate or ends on a delayed one |
| Conquests.ImmediateLinkOption | src/BotElite.js:253-266 | an immediate option goes along its link to a planet not the bot's on arrival, with exactly the sized count, which is at least leading army + 1 + extra |
| Conquests.OptionsFromLinks | src/BotElite.js:251-289 | every option comes from a link to a planet the bot does not own |
| Conquests.ConquestSpec | src/BotElite.js:246-302 | nothing under local pressure; otherwise any move returned is immediate (id 0), leaves the planet along a link to a planet not the bot's on arrival, carries at least leading army + 1 + extra, and scores at least as well as every option |
| Elite.ByDistance | src/BotElite.js:156 | the free planets sorted by distance from the planet, a permutation of the list |
| Elite.Claim | src/BotElite.js:155-163 | the free-planet branch; `ClaimSpec` states it |
| Elite.BotElite.SendClaims | src/BotElite.js:157-161 | the claiming loop appends exactly those moves and lowers the requests by them in order |
| Elite.BotElite.ClaimFreePlanets | src/BotElite.js:155-163 | the free-planet branch appends the claim moves, lowers the requests by them and leaves the sorted list without the claimed planets |
| Elite.ClaimSpec | src/BotElite.js:155-163 | min(ships, free) one-ship moves; the list shrinks by exactly that many; claimed and remaining planets together are the old list; no claimed planet is farther than one left |
| Elite.ClaimNearest | src/BotElite.js:156-162 | after sorting, the first k planets are no farther than the rest |
| Elite.ClaimStep | src/BotElite.js:154-164 | with free planets left and not losing hard, the planet's step is the claim |
| Elite.CaptureStep | src/BotElite.js:165-176 | the preferred start planet is only cleared by taking it with the whole garrison, which outnumbers the defenders projected for arrival |
| Elite.CaptureTaken | src/BotElite.js:165-176 | with nothing to claim and not losing hard, a garrison that outnumbers the preferred planet's projected defenders is sent there whole, nothing else is added, and the preferred planet is cleared |
| Elite.TacticOrder | src/BotElite.js:178-191 | with nothing to claim or capture: the reinforcement if any, else the conquest, else the dump, at most one move |
| Elite.LosingHardFlees | src/BotElite.js:149-153 | a planet losing hard adds exactly the flee move, if there is one, and nothing else; that is one move exactly when a hostile fleet lands next turn, carrying the whole garrison; neither list changes |
| Elite.PlanetStep | src/BotElite.js:148-192 | moveForPlanet; every move leaves the planet for a planet of the galaxy, and `ClaimStep`, `CaptureStep`, `TacticOrder`, `LosingHardFlees` and `StepListsShrink` state the branches |
| Elite.BotElite.MoveForPlanet | src/BotElite.js:148-192 | appends exactly the moves of `PlanetStep`, lowers the requests by them, and leaves the lists it describes |
| Elite.StepListsShrink | src/BotElite.js:148-192 | one planet's step only removes free planets, and clears the preferred start planet or keeps it |
| Elite.Visit | src/BotElite.js:84-96 | one planet's turn in getMoves; `VisitSpec` states it |
| Elite.Round | src/BotElite.js:84-97 | the walk over the planets in order; `RoundLowersRequests`, `RoundMovesPassGate` and `RoundListsShrink` state it |
| Elite.BotElite.VisitPlanet | src/BotElite.js:84-96 | the gate, then the planet's step: the result equals `Visit` |
| Elite.VisitSpec | src/BotElite.js:84-96 | one visit only appends moves from that planet; it adds any only when the bot owns the planet and the whole gate lets it through: losing hard, or its passive reservation leaves ships and its active request for now is 0; it lowers the requests by exactly those moves, only removes free planets, and keeps or clears the preferred planet |
| Elite.VisitKeepsGate | src/BotElite.js:84-96 | after a visit to the next planet, every move so far still comes from a planet visited so far that passed the whole gate on its turn |
| Elite.BotElite.GetMoves | src/BotElite.js:78-99 | nothing before routing; otherwise the output is the round over all planets in planet order, with the requests and lists it leaves |
| Elite.RoundLowersRequests | src/BotElite.js:84-98 | after the round, the requests are the starting requests lowered by every move of the round, in order |
| Elite.RoundMovesPassGate | src/BotElite.js:84-96 | every move of the round leaves a planet the bot owns that passed both halves of the gate on its turn: it is losing hard, or its passive reservation does not cover its garrison and its active request for now, as lowered by the moves of the planets before it, is 0 |
| Elite.RoundListsShrink | src/BotElite.js:84-96 | a round only removes free planets, and keeps the preferred start planet or clears it |
| Select.FirstTrue | src/BotElite.js:222-229 | the first index with a true entry, or none exactly when every entry is false |
| Select.FirstMax | src/BotElite.js:290-297 | an index holding the maximum, strictly above every earlier entry |
| Select.FirstMin | src/BotElite.js:381-387 | an index holding the minimum, strictly below every earlier entry |
| Select.CeilHalf | src/BotElite.js:205 | the least integer at least half of its argument |
| HostileDistance.DefaultValue | src/messages/MessageHostileDistance.js:12-14 | the default value 0, which `Seed` and `ValueIsHopDistance` state |
| HostileDistance.Seed | src/messages/MessageHostileDistance.js:24-33 | a message exactly for a hostile planet, from and to itself, carrying the default value 0 |
| HostileDistance.ReduceMin | src/messages/MessageHostileDistance.js:16-18 | the combined value is one of the arriving values and no larger than any of them |
| HostileDistance.ReduceMinOrderFree | src/messages/MessageHostileDistance.js:16-18 | the minimum does not depend on the order in which the values arrive |
| HostileDistance.MinKnown | src/messages/MessageHostileDistance.js:16-18 | the smaller of two known values, an unknown one losing |
| HostileDistance.MinKnownIsReduceMin | src/messages/MessageHostileDistance.js:16-18 | on two known values, the relaxation's minimum is the message's `reduce` |
| HostileDistance.ArrivalIsForwarded | src/messages/MessageHostileDistance.js:20-22 | after one round, the far end of a link holds a value no larger than the message forwarded along that link carries |
| HostileDistance.ArrivalsSpec | src/messages/MessageHostileDistance.js:8-22 | what arrives at a planet is one more than the value of some in-neighbour, and no more than one more than any |
| HostileDistance.RelaxSound | src/messages/MessageHostileDistance.js:16-22 | a value after one round was already there, or arrived over one link |
| HostileDistance.RelaxKeepsSound | src/messages/MessageHostileDistance.js:8-22 | one round keeps every known value the hop count of a route from a hostile planet, with one more hop allowed |
| HostileDistance.PropagateSound | src/messages/MessageHostileDistance.js:8-33 | every known value after k rounds is the hop count of a route from a hostile planet, of at most k hops |
| HostileDistance.PropagateComplete | src/messages/MessageHostileDistance.js:8-22 | a route of at most k hops is known after k rounds, with a value no larger than its hop count |
| HostileDistance.ExtendRoute | src/messages/MessageHostileDistance.js:8-10 | a route followed by a link is a route |
| HostileDistance.ShortRoute | src/messages/MessageHostileDistance.js:8-10 | every route can be shortened to one no longer than the number of planets |
| HostileDistance.Repeats | src/messages/MessageHostileDistance.js:8-10 | a walk longer than the number of planets visits some planet twice |
| HostileDistance.Propagate | src/messages/MessageHostileDistance.js:8-22 | the values after k rounds; `PropagateSound` and `PropagateComplete` state them |
| HostileDistance.Value | src/messages/MessageHostileDistance.js:8-33 | the settled value of a planet; `ValueIsHopDistance` states it |
| HostileDistance.ValueIsHopDistance | src/messages/MessageHostileDistance.js:8-33 | a planet is reached exactly when a route from a hostile planet leads to it; then its value is the fewest hops of any such route; otherwise it reads the default 0; a hostile planet reads 0 |

## Left out

- I/O: the stdin/stdout loop in `run.js` and the JSON parsing are not modelled.
- The message framework is not modelled: `addMessage`, `processMessages`, route enumeration, the other message types, and the `doMessages` ordering. Its outcome enters as the message values carried by each planet. HostileDistance's propagation is modelled as relaxation rounds over the links, since the framework that forwards messages is not part of this model.
- `Bot`, `StateRouted`, `Future`, `Move` and `Utils` are not part of this model:
  - the future simulator, `Move.getScore`, `getDistance` and `getRealDistance` are functions given with the galaxy;
  - `Bot.processData` becomes the galaxy and RequestActive arrays passed to `ProcessData`.
- Fertility is an integer, not a floating-point sum. `MINMOVEPART = 1/2` with `Math.ceil` is the exact integer ⌈x/2⌉.
- Tactics.Dump, Tactics.Flee: the model requires a planet with at least one link, so a planet without links is not modelled (`Elite.StepReady`). In the source, `reduce` without an initial value throws on an empty link list. `minlinkturns` also stays `Infinity`, which makes every hostile planet "in reach" of a dump.
- Tactics.Flee: requires turn ≤ 500, because a game lasts 500 turns. The branch for arrivals past turn 500 is modelled; only turns after the game has ended are left out.
- Elite.BotElite.GetMoves: the `moves` array that the source pushes into in place is a returned sequence. The output format is reduced to the source, destination and ship count.
- Elite.BotElite.ProcessData: the `reduce` over an empty list of neutral planets, which throws, is replaced by keeping the previous preferred start planet; see Findings.
- Array sorting: `Array.prototype.sort` with the distance comparator is a stable insertion sort on a sequence (`Tactics.SortByKey`), not the engine's in-place algorithm. Only its order is modelled.

## Findings

| source | as written | input that shows it | evidently intended | confidence | as-written member | corrected member |
|---|---|---|---|---|---|---|
| src/BotElite.js:62-69 | when a hostile planet is more fertile than all the bot's planets together, the turn-1 code reduces the more fertile neutral planets with `reduce` and no initial value, which throws a TypeError when that list is empty | three planets: the bot's with fertility 1, a hostile one with fertility 5, a neutral one with fertility 0 | no preferred start planet when no neutral planet is more fertile | not executed | Tactics.PreferredStartThrows | Tactics.PreferredStartMostFertile |
