/**
 * The elite bot itself. It keeps the routed galaxy of the current turn, the RequestActive
 * array of every planet (which adding a move lowers in place), the planet it would rather
 * start from and the ungarrisoned neutral planets still to be claimed. Each turn every
 * planet the bot owns that passes the gate gets one tactic, in a fixed order: flee when
 * losing hard, claim free planets, take the preferred start planet, reinforce, conquer,
 * dump.
 */
module Elite {
  import opened Wrappers
  import opened Game
  import opened Requests
  import opened Tactics
  import opened Conquests

  // ---------------------------------------------------------------- one planet

  /** The preconditions the tactics place on a planet: links to pick from, and a flee before the turn limit. */
  predicate StepReady(g: Galaxy, p: PlanetId)
    requires p < |g.planets|
  {
    |g.planets[p].links| > 0 && (g.planets[p].statusWinning == LosingHard ==> g.turn <= TurnLimit)
  }

  /** The free planets in the order moveForPlanet sorts them: nearest to `p` first, ties kept in order. */
  function ByDistance(g: Galaxy, p: PlanetId, free: seq<PlanetId>): (r: seq<PlanetId>)
    ensures SortedByKey(r, DistanceFrom(g, p)) && multiset(r) == multiset(free) && |r| == |free|
    ensures forall q :: q in r <==> q in free
  {
    SortByKeySpec(free, DistanceFrom(g, p));
    assert |multiset(free)| == |free|;
    assert forall q :: q in SortByKey(free, DistanceFrom(g, p)) <==> q in multiset(free);
    SortByKey(free, DistanceFrom(g, p))
  }

  /** The sort key of the free planets: their distance from `p`. */
  function DistanceFrom(g: Galaxy, p: PlanetId): PlanetId -> int {
    (q: PlanetId) => g.distance(p, q)
  }

  /** One-ship moves from `p` to each of `targets`, in order. */
  function ClaimMoves(g: Galaxy, p: PlanetId, targets: seq<PlanetId>): (r: seq<Move>)
    requires p < |g.planets|
    ensures |r| == |targets|
    ensures forall i :: 0 <= i < |r| ==>
      r[i] == Move(0, p, targets[i], g.planets[p].owner, 1, g.realDistance(p, targets[i]))
    ensures forall m :: m in r ==> m.from == p && m.to in targets
  {
    seq(|targets|, i requires 0 <= i < |targets| =>
      Move(0, p, targets[i], g.planets[p].owner, 1, g.realDistance(p, targets[i])))
  }

  /** Claiming one more target appends its move, and lowers the requests by that move after the earlier ones. */
  lemma ClaimPrefix(g: Galaxy, p: PlanetId, active: seq<seq<int>>, targets: seq<PlanetId>, i: nat)
    requires p < |g.planets| && |active| == |g.planets| && i < |targets|
    requires forall j :: 0 <= j < |targets| ==> targets[j] < |g.planets|
    ensures var before := ClaimMoves(g, p, targets[..i]);
      var m := Move(0, p, targets[i], g.planets[p].owner, 1, g.realDistance(p, targets[i]));
      && (forall x :: x in before ==> x.to < |g.planets|)
      && ClaimMoves(g, p, targets[..i + 1]) == before + [m]
      && ApplyMoves(active, ClaimMoves(g, p, targets[..i + 1])) == ApplyMoves(ApplyMoves(active, before), [m])
  {
    var before := ClaimMoves(g, p, targets[..i]);
    var m := Move(0, p, targets[i], g.planets[p].owner, 1, g.realDistance(p, targets[i]));
    assert forall x :: x in before ==> x.to < |g.planets|;
    assert ClaimMoves(g, p, targets[..i + 1]) == before + [m];
    ApplyMovesAppend(active, before, [m]);
  }

  /** What one planet's turn produces: the moves it adds, and the free planets and preferred start planet it leaves. */
  datatype Step = Step(moves: seq<Move>, free: seq<PlanetId>, preferred: Option<PlanetId>)

  /** Every planet named by the bot's own lists is a planet of the galaxy. */
  predicate ListsInRange(g: Galaxy, free: seq<PlanetId>, preferred: Option<PlanetId>) {
    (forall q :: q in free ==> q < |g.planets|) && (preferred.Some? ==> preferred.value < |g.planets|)
  }

  /** The move that takes the preferred start planet with the whole garrison of `p`. */
  function CaptureMove(g: Galaxy, p: PlanetId, target: PlanetId): Move
    requires p < |g.planets|
  {
    Move(0, p, target, g.planets[p].owner, g.planets[p].ships, g.realDistance(p, target))
  }

  /** The garrison of `p` outnumbers the preferred start planet's projected defenders on arrival. */
  predicate CanCapture(g: Galaxy, p: PlanetId, target: PlanetId)
    requires p < |g.planets|
  {
    g.planets[p].ships > g.future(target, g.realDistance(p, target)).ships
  }

  /** The reinforcement, else the conquest, else the dump of planet `p`. */
  function Fallback(g: Galaxy, active: seq<seq<int>>, p: PlanetId): Option<Move>
    requires g.Valid() && p < |g.planets| && |active| == |g.planets| && |g.planets[p].links| > 0
  {
    var reinforce := Reinforcement(g, active, p);
    if reinforce.Some? then reinforce
    else
      var conquest := Conquest(g, p);
      if conquest.Some? then conquest else Dump(g, p)
  }

  /** Every tactic's move leaves `p` for a planet of the galaxy. */
  lemma TacticsInRange(g: Galaxy, active: seq<seq<int>>, p: PlanetId)
    requires g.Valid() && p < |g.planets| && |active| == |g.planets| && StepReady(g, p)
    ensures var f := Fallback(g, active, p); f.Some? ==> f.value.from == p && f.value.to < |g.planets|
    ensures g.planets[p].statusWinning == LosingHard ==>
      var r := Flee(g, p); r.Some? ==> r.value.from == p && r.value.to < |g.planets|
  {
    var pl := g.planets[p];
    assert pl.InRange(|g.planets|);
    if Reinforcement(g, active, p).Some? {
      ReinforcementShape(g, active, p);
    }
    ConquestSpec(g, p);
    DumpSpec(g, p);
    if pl.statusWinning == LosingHard {
      FleeSpec(g, p);
      if Flee(g, p).Some? && !(exists q :: 0 <= q < |g.planets| && g.turn + g.realDistance(p, q) > TurnLimit) {
        assert forall q :: 0 <= q < |g.planets| ==> g.turn + g.realDistance(p, q) <= TurnLimit;
      }
    }
  }

  /** The free planets nearest to `p` that it claims: one per ship it has, at most all of them. */
  function ClaimCount(g: Galaxy, p: PlanetId, free: seq<PlanetId>): nat
    requires p < |g.planets|
  {
    Min(g.planets[p].ships, |free|)
  }

  /** Claiming the free planets: one-ship moves to the nearest ones, which leave the list. */
  function Claim(g: Galaxy, p: PlanetId, free: seq<PlanetId>, preferred: Option<PlanetId>): (s: Step)
    requires p < |g.planets| && ListsInRange(g, free, preferred)
    ensures forall m :: m in s.moves ==> m.from == p && m.to < |g.planets|
    ensures ListsInRange(g, s.free, s.preferred)
  {
    var sorted := ByDistance(g, p, free);
    var k := ClaimCount(g, p, free);
    assert forall q :: q in sorted[..k] ==> q in sorted;
    assert forall q :: q in sorted[k..] ==> q in sorted;
    Step(ClaimMoves(g, p, sorted[..k]), sorted[k..], preferred)
  }

  /** moveForPlanet as a function of the state it reads. */
  function PlanetStep(g: Galaxy, active: seq<seq<int>>, free: seq<PlanetId>, preferred: Option<PlanetId>, p: PlanetId): (s: Step)
    requires g.Valid() && p < |g.planets| && |active| == |g.planets| && StepReady(g, p)
    requires ListsInRange(g, free, preferred)
    ensures forall m :: m in s.moves ==> m.from == p && m.to < |g.planets|
    ensures ListsInRange(g, s.free, s.preferred)
  {
    var pl := g.planets[p];
    TacticsInRange(g, active, p);
    if pl.statusWinning == LosingHard then Step(OptionMoves(Flee(g, p)), free, preferred)
    else if |free| > 0 then Claim(g, p, free, preferred)
    else if preferred.Some? && CanCapture(g, p, preferred.value) then
      Step([CaptureMove(g, p, preferred.value)], free, None)
    else Step(OptionMoves(Fallback(g, active, p)), free, preferred)
  }

  // ---------------------------------------------------------------- one round

  /** The state getMoves threads through the planets: moves so far, and the bot's lists. */
  datatype Turn = Turn(moves: seq<Move>, active: seq<seq<int>>, free: seq<PlanetId>, preferred: Option<PlanetId>)

  /** Every planet the bot owns meets the tactics' preconditions. */
  predicate RoundReady(g: Galaxy) {
    forall q :: 0 <= q < |g.planets| && g.planets[q].owner == Allied ==> StepReady(g, q)
  }

  predicate TurnInRange(g: Galaxy, t: Turn) {
    |t.active| == |g.planets| && ListsInRange(g, t.free, t.preferred)
  }

  /** One planet's turn in getMoves: a planet the bot owns that the gate lets through takes its step. */
  function Visit(g: Galaxy, t: Turn, q: PlanetId): (r: Turn)
    requires g.Valid() && RoundReady(g) && TurnInRange(g, t) && q < |g.planets|
    ensures TurnInRange(g, r)
  {
    if g.planets[q].owner == Allied && Eligible(g.planets[q], t.active[q]) then
      var s := PlanetStep(g, t.active, t.free, t.preferred, q);
      Turn(t.moves + s.moves, ApplyMoves(t.active, s.moves), s.free, s.preferred)
    else t
  }

  /** getMoves' walk over the first `k` planets, in planet order. */
  function Round(g: Galaxy, t0: Turn, k: nat): (t: Turn)
    requires g.Valid() && RoundReady(g) && TurnInRange(g, t0) && k <= |g.planets|
    ensures TurnInRange(g, t)
  {
    if k == 0 then t0 else Visit(g, Round(g, t0, k - 1), k - 1)
  }

  /** The destinations of the moves, in order. */
  function Targets(moves: seq<Move>): (r: seq<PlanetId>)
    ensures |r| == |moves| && forall i :: 0 <= i < |moves| ==> r[i] == moves[i].to
  {
    seq(|moves|, i requires 0 <= i < |moves| => moves[i].to)
  }

  /** The moves as the game expects them. */
  function Outputs(moves: seq<Move>): (r: seq<OutputMove>)
    ensures |r| == |moves| && forall i :: 0 <= i < |moves| ==> r[i] == ToOutput(moves[i])
  {
    seq(|moves|, i requires 0 <= i < |moves| => ToOutput(moves[i]))
  }

  // ---------------------------------------------------------------- the bot

  class BotElite {
    var state: Galaxy
    var requestActive: seq<seq<int>>
    var preferredStartPlanet: Option<PlanetId>
    var freePlanets: seq<PlanetId>

    ghost predicate Valid()
      reads this
    {
      state.Valid() && |requestActive| == |state.planets| && ListsInRange(state, freePlanets, preferredStartPlanet)
    }

    /** A bot before its first turn: no galaxy yet, no preferred start planet, nothing to claim. */
    constructor ()
      ensures Valid() && !state.routingMade && preferredStartPlanet == None && freePlanets == []
    {
      state := Galaxy(0, false, [], (q: PlanetId, t: nat) => Future(Neutral, 0, 0), (m: Move) => 0,
        (a: PlanetId, b: PlanetId) => 0, (a: PlanetId, b: PlanetId) => 0);
      requestActive := [];
      preferredStartPlanet := None;
      freePlanets := [];
    }

    /**
     * processData: takes the routed galaxy and the planets' RequestActive arrays; on turn 1
     * of a routed galaxy it records the ungarrisoned neutral planets to claim and, if one is
     * found, the preferred start planet.
     */
    method ProcessData(g: Galaxy, active: seq<seq<int>>)
      requires g.Valid() && |active| == |g.planets| && ListsInRange(g, freePlanets, preferredStartPlanet)
      modifies this
      ensures Valid() && state == g && requestActive == active
      ensures g.routingMade && g.turn == 1 ==>
        && freePlanets == FreePlanets(g.planets)
        && preferredStartPlanet == (if PreferredStart(g.planets).Some? then PreferredStart(g.planets) else old(preferredStartPlanet))
      ensures !(g.routingMade && g.turn == 1) ==>
        freePlanets == old(freePlanets) && preferredStartPlanet == old(preferredStartPlanet)
    {
      state := g;
      requestActive := active;
      if !g.routingMade {
        return;
      }
      if g.turn == 1 {
        var preferred := PreferredStart(g.planets);
        if preferred.Some? {
          PreferredStartMostFertile(g.planets);
          preferredStartPlanet := preferred;
        }
        freePlanets := FreePlanets(g.planets);
      }
    }

    /** tryAddMove: appends a move, if there is one, and lowers its destination's requests. */
    method TryAddMove(moves: seq<Move>, move: Option<Move>) returns (moves': seq<Move>, added: bool)
      requires Valid() && (move.Some? ==> move.value.to < |state.planets|)
      modifies this`requestActive
      ensures Valid()
      ensures added == move.Some? && moves' == moves + OptionMoves(move)
      ensures requestActive == ApplyMoves(old(requestActive), OptionMoves(move))
    {
      if move.None? {
        return moves, false;
      }
      var m := move.value;
      moves' := moves + [m];
      var requested := LowerRequests(requestActive[m.to], m.turns, m.ships);
      requestActive := requestActive[m.to := requested];
      assert [m][..0] == [];
      added := true;
    }

    /** The free-planet branch of moveForPlanet: sort by distance, claim the nearest, drop them from the list. */
    method ClaimFreePlanets(moves: seq<Move>, p: PlanetId) returns (moves': seq<Move>)
      requires Valid() && p < |state.planets|
      modifies this`requestActive, this`freePlanets
      ensures Valid()
      ensures var s := Claim(state, p, old(freePlanets), preferredStartPlanet);
        && moves' == moves + s.moves
        && requestActive == ApplyMoves(old(requestActive), s.moves)
        && freePlanets == s.free
    {
      var sorted := ByDistance(state, p, freePlanets);
      var k := ClaimCount(state, p, sorted);
      assert forall q :: q in sorted[..k] ==> q in sorted;
      moves' := SendClaims(moves, p, sorted[..k]);
      assert forall q :: q in sorted[k..] ==> q in sorted;
      freePlanets := sorted[k..];
    }

    /** The loop of the free-planet branch: one ship to each target in turn. */
    method SendClaims(moves: seq<Move>, p: PlanetId, targets: seq<PlanetId>) returns (moves': seq<Move>)
      requires Valid() && p < |state.planets| && forall q :: q in targets ==> q < |state.planets|
      modifies this`requestActive
      ensures Valid()
      ensures moves' == moves + ClaimMoves(state, p, targets)
      ensures requestActive == ApplyMoves(old(requestActive), ClaimMoves(state, p, targets))
    {
      var g := state;
      var pl := g.planets[p];
      ghost var active0 := requestActive;
      assert forall j :: 0 <= j < |targets| ==> targets[j] in targets;
      ghost var sent: seq<Move> := [];
      moves' := moves;
      var i := 0;
      while i < |targets|
        invariant 0 <= i <= |targets|
        invariant Valid() && |active0| == |g.planets|
        invariant sent == ClaimMoves(g, p, targets[..i])
        invariant forall x :: x in sent ==> x.to < |g.planets|
        invariant moves' == moves + sent
        invariant requestActive == ApplyMoves(active0, sent)
      {
        var target := targets[i];
        var m := Move(0, p, target, pl.owner, 1, g.realDistance(p, target));
        ClaimPrefix(g, p, active0, targets, i);
        assert OptionMoves(Some(m)) == [m];
        var added;
        moves', added := TryAddMove(moves', Some(m));
        assert moves' == moves + (sent + [m]);
        sent := sent + [m];
        i := i + 1;
      }
      assert targets[..i] == targets;
    }

    /** moveForPlanet: the tactic of one planet, adding its moves and updating the bot's lists. */
    method MoveForPlanet(moves: seq<Move>, p: PlanetId) returns (moves': seq<Move>)
      requires Valid() && p < |state.planets| && StepReady(state, p)
      modifies this`requestActive, this`freePlanets, this`preferredStartPlanet
      ensures Valid()
      ensures var s := PlanetStep(state, old(requestActive), old(freePlanets), old(preferredStartPlanet), p);
        && moves' == moves + s.moves
        && requestActive == ApplyMoves(old(requestActive), s.moves)
        && freePlanets == s.free && preferredStartPlanet == s.preferred
    {
      var g := state;
      var pl := g.planets[p];
      TacticsInRange(g, requestActive, p);
      var added;
      // losing hard: only the flee move
      if pl.statusWinning == LosingHard {
        moves', added := TryAddMove(moves, Flee(g, p));
        return;
      }
      // one ship to each of the nearest unclaimed neutral planets
      if |freePlanets| > 0 {
        moves' := ClaimFreePlanets(moves, p);
        return;
      }
      // the preferred start planet, while one is set
      if preferredStartPlanet.Some? {
        var target := preferredStartPlanet.value;
        var distance := g.realDistance(p, target);
        var future := g.future(target, distance);
        // whole garrison, when it outnumbers the projected defenders
        if pl.ships > future.ships {
          moves', added := TryAddMove(moves, Some(Move(0, p, target, pl.owner, pl.ships, distance)));
          preferredStartPlanet := None;
          return;
        }
      }
      // first tactic: reinforcement
      moves', added := TryAddMove(moves, Reinforcement(g, requestActive, p));
      if added {
        return;
      }
      // second tactic: conquest
      var conquest := GetMoveConquest(g, p);
      moves', added := TryAddMove(moves, conquest);
      if added {
        return;
      }
      // last tactic: dump
      moves', added := TryAddMove(moves, Dump(g, p));
    }

    /** The body of getMoves' forEach for planet `q`: the gate, then moveForPlanet. */
    method VisitPlanet(moves: seq<Move>, q: PlanetId) returns (moves': seq<Move>)
      requires Valid() && RoundReady(state) && q < |state.planets|
      modifies this`requestActive, this`freePlanets, this`preferredStartPlanet
      ensures Valid()
      ensures Turn(moves', requestActive, freePlanets, preferredStartPlanet)
        == Visit(state, Turn(moves, old(requestActive), old(freePlanets), old(preferredStartPlanet)), q)
    {
      var pl := state.planets[q];
      moves' := moves;
      if pl.owner == Allied && Eligible(pl, requestActive[q]) {
        // through the gate: this planet takes its step
        moves' := MoveForPlanet(moves, q);
      }
    }

    /** getMoves: nothing before routing; otherwise every planet the bot owns through the gate, in planet order. */
    method GetMoves() returns (out: seq<OutputMove>)
      requires Valid() && RoundReady(state)
      modifies this`requestActive, this`freePlanets, this`preferredStartPlanet
      ensures Valid()
      ensures !state.routingMade ==> out == [] && unchanged(this)
      ensures state.routingMade ==>
        var t := Round(state, Turn([], old(requestActive), old(freePlanets), old(preferredStartPlanet)), |state.planets|);
        && out == Outputs(t.moves)
        && requestActive == t.active && freePlanets == t.free && preferredStartPlanet == t.preferred
    {
      if !state.routingMade {
        return [];
      }
      ghost var t0 := Turn([], requestActive, freePlanets, preferredStartPlanet);
      var moves: seq<Move> := [];
      var q := 0;
      while q < |state.planets|
        invariant 0 <= q <= |state.planets|
        invariant Valid()
        invariant Round(state, t0, q) == Turn(moves, requestActive, freePlanets, preferredStartPlanet)
      {
        moves := VisitPlanet(moves, q);
        q := q + 1;
      }
      out := Outputs(moves);
    }
  }

  // ---------------------------------------------------------------- properties

  /**
   * Claiming free planets: the planet sends one ship to each of the free planets nearest to
   * it, as many as it has ships (at most all of them); no claimed planet is farther than one
   * left for later, and claimed and remaining planets together are exactly the free planets.
   */
  lemma ClaimSpec(g: Galaxy, p: PlanetId, free: seq<PlanetId>, preferred: Option<PlanetId>)
    requires p < |g.planets| && ListsInRange(g, free, preferred)
    ensures var s := Claim(g, p, free, preferred);
      && |s.moves| == Min(g.planets[p].ships, |free|)
      && |s.free| == |free| - |s.moves|
      && s.preferred == preferred
      && (forall m :: m in s.moves ==> m.ships == 1 && m.from == p && m.turns == g.realDistance(p, m.to))
      && multiset(Targets(s.moves)) + multiset(s.free) == multiset(free)
      && (forall m, q :: m in s.moves && q in s.free ==> g.distance(p, m.to) <= g.distance(p, q))
  {
    var s := Claim(g, p, free, preferred);
    var sorted := ByDistance(g, p, free);
    var k := ClaimCount(g, p, free);
    assert s.moves == ClaimMoves(g, p, sorted[..k]) && s.free == sorted[k..];
    assert Targets(s.moves) == sorted[..k];
    assert sorted == sorted[..k] + sorted[k..];
    ClaimNearest(g, p, sorted, k);
  }

  /** In a list sorted by distance, the first `k` planets are no farther than the rest. */
  lemma ClaimNearest(g: Galaxy, p: PlanetId, sorted: seq<PlanetId>, k: nat)
    requires p < |g.planets| && k <= |sorted| && SortedByKey(sorted, DistanceFrom(g, p))
    ensures forall m, q :: m in ClaimMoves(g, p, sorted[..k]) && q in sorted[k..] ==> g.distance(p, m.to) <= g.distance(p, q)
  {
    var ms := ClaimMoves(g, p, sorted[..k]);
    forall m, q | m in ms && q in sorted[k..] ensures g.distance(p, m.to) <= g.distance(p, q) {
      var i :| 0 <= i < |ms| && ms[i] == m;
      var j :| 0 <= j < |sorted| - k && sorted[k..][j] == q;
      assert sorted[i] == m.to && sorted[k + j] == q;
      assert DistanceFrom(g, p)(sorted[i]) <= DistanceFrom(g, p)(sorted[k + j]);
    }
  }

  /** The planet's step while free planets remain (and it is not losing hard) is the claim. */
  lemma ClaimStep(g: Galaxy, active: seq<seq<int>>, free: seq<PlanetId>, preferred: Option<PlanetId>, p: PlanetId)
    requires g.Valid() && p < |g.planets| && |active| == |g.planets| && StepReady(g, p)
    requires ListsInRange(g, free, preferred)
    requires g.planets[p].statusWinning != LosingHard && |free| > 0
    ensures PlanetStep(g, active, free, preferred, p) == Claim(g, p, free, preferred)
  {
  }

  /**
   * The preferred start planet is given up only by taking it: the planet then sends its
   * whole garrison there, which outnumbers the defenders projected for its arrival.
   */
  lemma CaptureStep(g: Galaxy, active: seq<seq<int>>, free: seq<PlanetId>, preferred: Option<PlanetId>, p: PlanetId)
    requires g.Valid() && p < |g.planets| && |active| == |g.planets| && StepReady(g, p)
    requires ListsInRange(g, free, preferred)
    ensures var s := PlanetStep(g, active, free, preferred, p);
      && (s.preferred == preferred || s.preferred == None)
      && (s.preferred != preferred ==>
            && preferred.Some?
            && s.moves == [Move(0, p, preferred.value, g.planets[p].owner, g.planets[p].ships, g.realDistance(p, preferred.value))]
            && g.planets[p].ships > g.future(preferred.value, g.realDistance(p, preferred.value)).ships)
  {
  }

  /**
   * The preferred start planet is used as soon as it can be: with nothing to claim, a planet
   * not losing hard whose garrison outnumbers its projected defenders sends the whole garrison
   * there, adds nothing else, and clears the preferred start planet.
   */
  lemma CaptureTaken(g: Galaxy, active: seq<seq<int>>, free: seq<PlanetId>, preferred: Option<PlanetId>, p: PlanetId)
    requires g.Valid() && p < |g.planets| && |active| == |g.planets| && StepReady(g, p)
    requires ListsInRange(g, free, preferred)
    requires g.planets[p].statusWinning != LosingHard && free == []
    requires preferred.Some? && g.planets[p].ships > g.future(preferred.value, g.realDistance(p, preferred.value)).ships
    ensures var s := PlanetStep(g, active, free, preferred, p);
      && s.moves == [Move(0, p, preferred.value, g.planets[p].owner, g.planets[p].ships, g.realDistance(p, preferred.value))]
      && s.free == free && s.preferred == None
  {
  }

  /**
   * The order of the tactics once there is nothing to claim and no start planet to take:
   * a reinforcement if there is one, otherwise a conquest, otherwise a dump, at most one move.
   */
  lemma TacticOrder(g: Galaxy, active: seq<seq<int>>, free: seq<PlanetId>, preferred: Option<PlanetId>, p: PlanetId)
    requires g.Valid() && p < |g.planets| && |active| == |g.planets| && StepReady(g, p)
    requires ListsInRange(g, free, preferred)
    requires g.planets[p].statusWinning != LosingHard && free == []
    requires preferred.None? || !CanCapture(g, p, preferred.value)
    ensures var s := PlanetStep(g, active, free, preferred, p);
      && |s.moves| <= 1 && s.free == free && s.preferred == preferred
      && (Reinforcement(g, active, p).Some? ==> s.moves == [Reinforcement(g, active, p).value])
      && (Reinforcement(g, active, p).None? && Conquest(g, p).Some? ==> s.moves == [Conquest(g, p).value])
      && (Reinforcement(g, active, p).None? && Conquest(g, p).None? ==> s.moves == OptionMoves(Dump(g, p)))
  {
  }

  /** A planet losing hard does nothing but flee: its whole garrison leaves exactly when a hostile fleet lands next turn. */
  lemma LosingHardFlees(g: Galaxy, active: seq<seq<int>>, free: seq<PlanetId>, preferred: Option<PlanetId>, p: PlanetId)
    requires g.Valid() && p < |g.planets| && |active| == |g.planets| && StepReady(g, p)
    requires ListsInRange(g, free, preferred)
    requires g.planets[p].statusWinning == LosingHard
    ensures var s := PlanetStep(g, active, free, preferred, p);
      && s.free == free && s.preferred == preferred
      && (|s.moves| == 1 <==> HostileArrivesNextTurn(g.planets[p]))
      && (|s.moves| == 0 <==> !HostileArrivesNextTurn(g.planets[p]))
      && forall m :: m in s.moves ==> m.ships == g.planets[p].ships
    ensures PlanetStep(g, active, free, preferred, p).moves == OptionMoves(Flee(g, p))
  {
    FleeSpec(g, p);
  }

  /**
   * A move of round `t0` that leaves one of its first `k` planets: a planet the bot owns that
   * the gate let through, read on the requests as they stood when that planet's turn came.
   */
  ghost predicate Gated(g: Galaxy, t0: Turn, m: Move, k: nat)
    requires g.Valid() && RoundReady(g) && TurnInRange(g, t0)
  {
    && m.from < k && m.from < |g.planets| && g.planets[m.from].owner == Allied
    && Eligible(g.planets[m.from], Round(g, t0, m.from).active[m.from])
  }

  /**
   * One planet's visit only appends moves, all leaving that planet; it adds some only when
   * the bot owns the planet and the gate lets it through (losing hard, or its passive
   * reservation leaves ships and its active request for now is 0). It lowers the requests
   * by exactly those moves, only removes free planets, and clears the preferred start
   * planet or keeps it.
   */
  lemma VisitSpec(g: Galaxy, t: Turn, q: PlanetId)
    requires g.Valid() && RoundReady(g) && TurnInRange(g, t) && q < |g.planets|
    ensures var r := Visit(g, t, q);
      && |t.moves| <= |r.moves| && r.moves == t.moves + r.moves[|t.moves|..]
      && r.active == ApplyMoves(t.active, r.moves[|t.moves|..])
      && (forall m :: m in r.moves[|t.moves|..] ==> m.from == q && m.to < |g.planets|)
      && (|r.moves| > |t.moves| ==> g.planets[q].owner == Allied && Eligible(g.planets[q], t.active[q]))
      && multiset(r.free) <= multiset(t.free)
      && (r.preferred == t.preferred || r.preferred == None)
  {
    var r := Visit(g, t, q);
    if g.planets[q].owner == Allied && Eligible(g.planets[q], t.active[q]) {
      var s := PlanetStep(g, t.active, t.free, t.preferred, q);
      assert r.moves[|t.moves|..] == s.moves;
      StepListsShrink(g, t.active, t.free, t.preferred, q);
    } else {
      assert r.moves[|t.moves|..] == [];
    }
  }

  /** The requests after a round are the starting requests lowered by every move of the round, in order. */
  lemma {:induction false} RoundLowersRequests(g: Galaxy, t0: Turn, k: nat)
    requires g.Valid() && RoundReady(g) && TurnInRange(g, t0) && k <= |g.planets| && t0.moves == []
    ensures var t := Round(g, t0, k);
      (forall m :: m in t.moves ==> m.to < |g.planets|) && t.active == ApplyMoves(t0.active, t.moves)
  {
    if k > 0 {
      RoundLowersRequests(g, t0, k - 1);
      var t := Round(g, t0, k - 1);
      VisitSpec(g, t, k - 1);
      var r := Visit(g, t, k - 1);
      ApplyMovesAppend(t0.active, t.moves, r.moves[|t.moves|..]);
    }
  }

  /**
   * Every move of a round leaves a planet the bot owns that passed the gate on its turn: it is
   * losing hard, or its passive reservation does not cover its garrison and its active
   * request for now, as lowered by the moves of the planets before it, is 0.
   */
  lemma {:induction false} RoundMovesPassGate(g: Galaxy, t0: Turn, k: nat)
    requires g.Valid() && RoundReady(g) && TurnInRange(g, t0) && k <= |g.planets| && t0.moves == []
    ensures forall m :: m in Round(g, t0, k).moves ==> Gated(g, t0, m, k)
  {
    if k > 0 {
      RoundMovesPassGate(g, t0, k - 1);
      VisitKeepsGate(g, t0, k - 1);
    }
  }

  /** The visit to planet `q` after the moves of the first `q` planets leaves moves of the first `q + 1`. */
  lemma VisitKeepsGate(g: Galaxy, t0: Turn, q: PlanetId)
    requires g.Valid() && RoundReady(g) && TurnInRange(g, t0) && q < |g.planets|
    requires forall m :: m in Round(g, t0, q).moves ==> Gated(g, t0, m, q)
    ensures forall m :: m in Visit(g, Round(g, t0, q), q).moves ==> Gated(g, t0, m, q + 1)
  {
    var t := Round(g, t0, q);
    VisitSpec(g, t, q);
    var r := Visit(g, t, q);
    var added := r.moves[|t.moves|..];
    assert forall m :: m in added ==> Gated(g, t0, m, q + 1);
    GatedAppend(g, t0, t.moves, added, q + 1);
  }

  /** Moves gated among the first `k - 1` planets, followed by moves gated among the first `k`, are gated among the first `k`. */
  lemma GatedAppend(g: Galaxy, t0: Turn, earlier: seq<Move>, added: seq<Move>, k: nat)
    requires g.Valid() && RoundReady(g) && TurnInRange(g, t0) && k > 0
    requires forall m :: m in earlier ==> Gated(g, t0, m, k - 1)
    requires forall m :: m in added ==> Gated(g, t0, m, k - 1 + 1)
    ensures forall m :: m in earlier + added ==> Gated(g, t0, m, k)
  {
  }

  /** One planet's step only removes free planets, and clears the preferred start planet or keeps it. */
  lemma StepListsShrink(g: Galaxy, active: seq<seq<int>>, free: seq<PlanetId>, preferred: Option<PlanetId>, p: PlanetId)
    requires g.Valid() && p < |g.planets| && |active| == |g.planets| && StepReady(g, p)
    requires ListsInRange(g, free, preferred)
    ensures var s := PlanetStep(g, active, free, preferred, p);
      multiset(s.free) <= multiset(free) && (s.preferred == preferred || s.preferred == None)
  {
    if g.planets[p].statusWinning != LosingHard && |free| > 0 {
      var sorted := ByDistance(g, p, free);
      var k := ClaimCount(g, p, free);
      assert sorted == sorted[..k] + sorted[k..];
      assert PlanetStep(g, active, free, preferred, p).free == sorted[k..];
    }
  }

  /** Over a round the free planets only shrink, and a cleared preferred start planet stays cleared. */
  lemma {:induction false} RoundListsShrink(g: Galaxy, t0: Turn, k: nat)
    requires g.Valid() && RoundReady(g) && TurnInRange(g, t0) && k <= |g.planets|
    ensures var t := Round(g, t0, k);
      && multiset(t.free) <= multiset(t0.free)
      && (t.preferred == t0.preferred || t.preferred == None)
  {
    if k > 0 {
      RoundListsShrink(g, t0, k - 1);
      VisitSpec(g, Round(g, t0, k - 1), k - 1);
    }
  }
}
