/**
 * The tactics of the elite bot that only compute: sizing a move, the reinforcement,
 * dump and flee choices, the eligibility gate of a planet and the first-turn setup
 * (free planets to claim and a better start planet).
 */
module Tactics {
  import opened Wrappers
  import opened Game
  import opened Select

  // ---------------------------------------------------------------- sizing

  /**
   * The ships a planet has for a move leaving `delay` turns from now: its garrison, grown by
   * one ship a turn, less its own positive passive reservation for that turn (a reservation
   * past the end of the array is `undefined` and reserves nothing).
   */
  function Available(pl: Planet, delay: nat): int {
    var reserved := if delay < |pl.requestPassive| then pl.requestPassive[delay] else 0;
    pl.ships + delay - (if reserved > 0 then reserved else 0)
  }

  /**
   * getBetterShipcountForPlanet: the requested count is cut down to what is available and,
   * outside the early game, raised to at least half of it (MINMOVEPART = 1/2, rounded up).
   */
  function BetterShipcount(pl: Planet, ships: int, delay: nat): (r: int)
    ensures var a := Available(pl, delay);
      && (a >= 0 ==> r <= a)
      && (pl.statusGame == Early ==> r == Min(ships, a))
      && (pl.statusGame != Early ==> r == Max(Min(ships, a), CeilHalf(a)))
      && (pl.statusGame != Early && a >= 0 ==> 2 * r >= a)
  {
    var available := Available(pl, delay);
    var clamped := if ships > available then available else ships;
    if pl.statusGame != Early && 2 * clamped < available then CeilHalf(available) else clamped
  }

  /** getNeededExtraShips: the passive request `turns` turns ahead, or 0 when it is undefined or negative. */
  function NeededExtraShips(pl: Planet, turns: nat): (r: int)
    ensures r >= 0
    ensures r > 0 <==> turns < |pl.requestPassive| && pl.requestPassive[turns] > 0
    ensures turns < |pl.requestPassive| && pl.requestPassive[turns] >= 0 ==> r == pl.requestPassive[turns]
  {
    if turns < |pl.requestPassive| && pl.requestPassive[turns] >= 0 then pl.requestPassive[turns] else 0
  }

  // ---------------------------------------------------------------- gate

  /** The passive reservation for now already takes up the whole garrison. */
  predicate PassiveCovers(pl: Planet) {
    |pl.requestPassive| > 0 && pl.requestPassive[0] >= pl.ships
  }

  /** The planet's own active request for now is exactly 0 (anything else, `undefined` included, is still requesting). */
  predicate RequestsSettled(active: seq<int>) {
    |active| > 0 && active[0] == 0
  }

  /** The gate of getMoves: a planet losing hard always acts; any other must have ships to spare and no open request. */
  predicate Eligible(pl: Planet, active: seq<int>) {
    pl.statusWinning == LosingHard || (!PassiveCovers(pl) && RequestsSettled(active))
  }

  /** A planet through the gate that is not losing hard has a non-negative number of ships available now. */
  lemma EligibleHasShips(pl: Planet, active: seq<int>)
    requires Eligible(pl, active) && pl.statusWinning != LosingHard
    ensures Available(pl, 0) >= 0
  {
  }

  // ---------------------------------------------------------------- reinforcement

  /** The links to planets the bot owns, in link order. */
  function AlliedLinks(planets: seq<Planet>, links: seq<Link>): (r: seq<Link>)
    requires forall l :: l in links ==> l.to < |planets|
    ensures forall l :: l in r <==> l in links && planets[l.to].owner == Allied
  {
    if links == [] then []
    else (if planets[links[0].to].owner == Allied then [links[0]] else []) + AlliedLinks(planets, links[1..])
  }

  /** The link's planet still requests ships on the turn a fleet sent now would arrive. */
  predicate Deliverable(l: Link, active: seq<seq<int>>)
    requires l.to < |active|
  {
    l.turns < |active[l.to]|
  }

  /** `there` is under positive local pressure at least as high as `here`. */
  predicate UnderMorePressure(here: Planet, there: Planet) {
    there.pressureLocal > 0 && !(here.pressureLocal > there.pressureLocal)
  }

  /**
   * getMoveReinforcement: the first allied link whose planet requests ships deliverable in
   * time, for the requested count; otherwise the first allied link under more local pressure,
   * for that pressure; both sized by BetterShipcount.
   */
  function Reinforcement(g: Galaxy, active: seq<seq<int>>, p: PlanetId): Option<Move>
    requires g.Valid() && p < |g.planets| && |active| == |g.planets|
  {
    var pl := g.planets[p];
    var links := AlliedLinks(g.planets, pl.links);
    var requesting := FirstTrue(seq(|links|, i requires 0 <= i < |links| => Deliverable(links[i], active)));
    if requesting.Some? then
      var l := links[requesting.value];
      Some(LinkMove(p, pl.owner, l, BetterShipcount(pl, active[l.to][l.turns], 0)))
    else
      var pressured := FirstTrue(seq(|links|, i requires 0 <= i < |links| => UnderMorePressure(pl, g.planets[links[i].to])));
      if pressured.Some? then
        var l := links[pressured.value];
        Some(LinkMove(p, pl.owner, l, BetterShipcount(pl, g.planets[l.to].pressureLocal, 0)))
      else None
  }

  /** There is no reinforcement exactly when no allied link can take a delivery or is under more local pressure. */
  lemma ReinforcementNoneWhen(g: Galaxy, active: seq<seq<int>>, p: PlanetId)
    requires g.Valid() && p < |g.planets| && |active| == |g.planets|
    ensures var pl := g.planets[p];
      Reinforcement(g, active, p).None? <==>
        forall l :: l in pl.links && g.planets[l.to].owner == Allied ==>
          !Deliverable(l, active) && !UnderMorePressure(pl, g.planets[l.to])
  {
    var pl := g.planets[p];
    var links := AlliedLinks(g.planets, pl.links);
    var bs := seq(|links|, i requires 0 <= i < |links| => Deliverable(links[i], active));
    var ps := seq(|links|, i requires 0 <= i < |links| => UnderMorePressure(pl, g.planets[links[i].to]));
    if FirstTrue(bs).None? && FirstTrue(ps).None? {
      forall l | l in pl.links && g.planets[l.to].owner == Allied
        ensures !Deliverable(l, active) && !UnderMorePressure(pl, g.planets[l.to])
      {
        assert l in links;
        var i :| 0 <= i < |links| && links[i] == l;
        assert !bs[i] && !ps[i];
      }
    }
  }

  /**
   * A reinforcement goes out along an allied link, sized from that planet's request when it
   * can be delivered in time, or else from its higher local pressure.
   */
  lemma ReinforcementShape(g: Galaxy, active: seq<seq<int>>, p: PlanetId)
    requires g.Valid() && p < |g.planets| && |active| == |g.planets|
    requires Reinforcement(g, active, p).Some?
    ensures var m := Reinforcement(g, active, p).value; var pl := g.planets[p];
      && m.id == 0 && m.from == p && m.owner == pl.owner
      && exists l :: l in pl.links && l.to == m.to && l.turns == m.turns
           && g.planets[l.to].owner == Allied
           && ((Deliverable(l, active) && m.ships == BetterShipcount(pl, active[l.to][l.turns], 0))
               || (UnderMorePressure(pl, g.planets[l.to])
                   && m.ships == BetterShipcount(pl, g.planets[l.to].pressureLocal, 0)))
  {
    var pl := g.planets[p];
    var links := AlliedLinks(g.planets, pl.links);
    var bs := seq(|links|, i requires 0 <= i < |links| => Deliverable(links[i], active));
    var ps := seq(|links|, i requires 0 <= i < |links| => UnderMorePressure(pl, g.planets[links[i].to]));
    var k := if FirstTrue(bs).Some? then FirstTrue(bs).value else FirstTrue(ps).value;
    assert links[k] in links;
  }

  /** A request anywhere takes precedence: the reinforcement then serves a request, sized from it. */
  lemma ReinforcementPrefersRequests(g: Galaxy, active: seq<seq<int>>, p: PlanetId)
    requires g.Valid() && p < |g.planets| && |active| == |g.planets|
    requires exists l :: l in g.planets[p].links && g.planets[l.to].owner == Allied && Deliverable(l, active)
    ensures var r := Reinforcement(g, active, p);
      && r.Some? && r.value.to < |active| && r.value.turns < |active[r.value.to]|
      && r.value.ships == BetterShipcount(g.planets[p], active[r.value.to][r.value.turns], 0)
  {
    var pl := g.planets[p];
    var links := AlliedLinks(g.planets, pl.links);
    var bs := seq(|links|, i requires 0 <= i < |links| => Deliverable(links[i], active));
    var l :| l in pl.links && g.planets[l.to].owner == Allied && Deliverable(l, active);
    assert l in links;
    var i :| 0 <= i < |links| && links[i] == l;
    assert bs[i];
    assert links[FirstTrue(bs).value] in links;
  }

  /** Reinforcement never starves: from a planet through the gate it never sends more than is available. */
  lemma ReinforcementNeverStarves(g: Galaxy, active: seq<seq<int>>, p: PlanetId)
    requires g.Valid() && p < |g.planets| && |active| == |g.planets|
    requires Eligible(g.planets[p], active[p]) && g.planets[p].statusWinning != LosingHard
    ensures var r := Reinforcement(g, active, p);
      r.Some? ==> r.value.ships <= Available(g.planets[p], 0)
  {
    EligibleHasShips(g.planets[p], active[p]);
  }

  // ---------------------------------------------------------------- flee

  /** Some hostile fleet lands on the planet next turn. */
  predicate HostileArrivesNextTurn(pl: Planet) {
    exists m :: m in pl.movesIn && m.turns == 1 && m.owner == Hostile
  }

  /** The travel times from `p` to every planet, in planet order. */
  function DistancesFrom(g: Galaxy, p: PlanetId): seq<nat> {
    seq(|g.planets|, q requires 0 <= q < |g.planets| => g.realDistance(p, q))
  }

  /**
   * getMoveFlee: when a hostile fleet lands next turn the whole garrison leaves, to the
   * farthest planet if its arrival would fall after the turn limit, else along the link
   * whose planet is under the least local pressure.
   */
  function Flee(g: Galaxy, p: PlanetId): Option<Move>
    requires g.Valid() && p < |g.planets| && |g.planets[p].links| > 0 && g.turn <= TurnLimit
  {
    var pl := g.planets[p];
    if !HostileArrivesNextTurn(pl) then None
    else
      var dists := DistancesFrom(g, p);
      var far := FirstMax(dists);
      // the running maximum starts at 0; with turn <= TURNLIMIT the branch needs a positive distance
      if g.turn + dists[far] > TurnLimit then Some(Move(0, p, far, pl.owner, pl.ships, dists[far]))
      else
        var calm := FirstMin(seq(|pl.links|, i requires 0 <= i < |pl.links| => g.planets[pl.links[i].to].pressureLocal));
        Some(LinkMove(p, pl.owner, pl.links[calm], pl.ships))
  }

  /**
   * Flee acts exactly when a hostile fleet lands next turn, always with the whole garrison;
   * it goes to a farthest planet exactly when that arrival would fall past the turn limit,
   * and otherwise along a link to the neighbour under the least local pressure.
   */
  lemma FleeSpec(g: Galaxy, p: PlanetId)
    requires g.Valid() && p < |g.planets| && |g.planets[p].links| > 0 && g.turn <= TurnLimit
    ensures var r := Flee(g, p); var pl := g.planets[p];
      && (r.Some? <==> HostileArrivesNextTurn(pl))
      && (r.Some? ==> r.value.id == 0 && r.value.from == p && r.value.ships == pl.ships && r.value.owner == pl.owner)
      && (r.Some? && (exists q :: 0 <= q < |g.planets| && g.turn + g.realDistance(p, q) > TurnLimit) ==>
            && r.value.to < |g.planets| && r.value.turns == g.realDistance(p, r.value.to)
            && forall q :: 0 <= q < |g.planets| ==> g.realDistance(p, q) <= r.value.turns)
      && (r.Some? && (forall q :: 0 <= q < |g.planets| ==> g.turn + g.realDistance(p, q) <= TurnLimit) ==>
            && (exists l :: l in pl.links && l.to == r.value.to && l.turns == r.value.turns)
            && forall l :: l in pl.links ==> g.planets[r.value.to].pressureLocal <= g.planets[l.to].pressureLocal)
  {
    var pl := g.planets[p];
    if HostileArrivesNextTurn(pl) {
      var dists := DistancesFrom(g, p);
      var far := FirstMax(dists);
      forall q | 0 <= q < |g.planets| ensures g.realDistance(p, q) <= dists[far] {
        assert dists[q] == g.realDistance(p, q);
      }
      if g.turn + dists[far] <= TurnLimit {
        var ks := seq(|pl.links|, i requires 0 <= i < |pl.links| => g.planets[pl.links[i].to].pressureLocal);
        var calm := FirstMin(ks);
        forall l | l in pl.links
          ensures g.planets[pl.links[calm].to].pressureLocal <= g.planets[l.to].pressureLocal
        {
          var i :| 0 <= i < |pl.links| && pl.links[i] == l;
          assert ks[calm] <= ks[i];
        }
      }
    }
  }

  // ---------------------------------------------------------------- dump

  /** Every link's planet will be the bot's when a fleet sent along it now arrives. */
  predicate SecuredByAllies(g: Galaxy, pl: Planet) {
    forall l :: l in pl.links ==> g.future(l.to, l.turns).owner == Allied
  }

  /** The dump looks for hostile targets when winning hard, or winning in the late game. */
  predicate DumpsOnHostile(pl: Planet) {
    pl.statusWinning == WinningHard || (pl.statusWinning == Winning && pl.statusGame == Late)
  }

  /** The travel time of the shortest link. */
  function MinLinkTurns(links: seq<Link>): (r: nat)
    requires |links| > 0
    ensures exists l :: l in links && l.turns == r
    ensures forall l :: l in links ==> r <= l.turns
  {
    var ts := seq(|links|, i requires 0 <= i < |links| => links[i].turns as int);
    var k := FirstMin(ts);
    assert forall l :: l in links ==> exists i :: 0 <= i < |links| && links[i] == l && ts[i] == l.turns;
    links[k].turns
  }

  /** The hostile planets from which `p` is less than `reach` turns away, in planet order. */
  function HostileWithin(g: Galaxy, p: PlanetId, reach: int): (r: seq<PlanetId>)
    ensures forall q :: q in r <==> 0 <= q < |g.planets| && g.planets[q].owner == Hostile && g.realDistance(q, p) < reach
    ensures |r| == 0 <==> forall q :: 0 <= q < |g.planets| ==> !(g.planets[q].owner == Hostile && g.realDistance(q, p) < reach)
  {
    Indices(seq(|g.planets|, q requires 0 <= q < |g.planets| =>
      g.planets[q].owner == Hostile && g.realDistance(q, p) < reach))
  }

  /** The search radius for hostile dump targets. */
  function DumpReach(pl: Planet): int
    requires |pl.links| > 0
  {
    DumpDistMult * MinLinkTurns(pl.links)
  }

  /**
   * The target chosen when winning: the hostile planet within reach with the most ships,
   * else the allied neighbour closest to the hostile front.
   */
  function WinningTarget(g: Galaxy, p: PlanetId): Option<PlanetId>
    requires g.Valid() && p < |g.planets| && |g.planets[p].links| > 0
  {
    var pl := g.planets[p];
    var hostile := HostileWithin(g, p, DumpReach(pl));
    if |hostile| > 0 then Some(Strongest(g.planets, hostile))
    else
      var allied := AlliedLinks(g.planets, pl.links);
      if |allied| > 0 then Some(ClosestToFront(g.planets, allied)) else None
  }

  /** The first of the planets `ids` holding the most ships (a `reduce` keeping the earlier on ties). */
  function Strongest(planets: seq<Planet>, ids: seq<PlanetId>): (b: PlanetId)
    requires |ids| > 0 && forall i :: 0 <= i < |ids| ==> ids[i] < |planets|
    ensures exists k :: 0 <= k < |ids| && ids[k] == b && forall i :: 0 <= i < k ==> planets[ids[i]].ships < planets[b].ships
    ensures forall i :: 0 <= i < |ids| ==> planets[ids[i]].ships <= planets[b].ships
  {
    var ks := seq(|ids|, i requires 0 <= i < |ids| => planets[ids[i]].ships as int);
    var k := FirstMax(ks);
    assert forall i :: 0 <= i < |ids| ==> ks[i] == planets[ids[i]].ships;
    ids[k]
  }

  /** The end of the first of the links whose planet has the smallest hostile distance. */
  function ClosestToFront(planets: seq<Planet>, links: seq<Link>): (b: PlanetId)
    requires |links| > 0 && forall i :: 0 <= i < |links| ==> links[i].to < |planets|
    ensures exists k :: 0 <= k < |links| && links[k].to == b &&
              forall i :: 0 <= i < k ==> planets[links[i].to].hostileDistance > planets[b].hostileDistance
    ensures forall i :: 0 <= i < |links| ==> planets[b].hostileDistance <= planets[links[i].to].hostileDistance
  {
    var ks := seq(|links|, i requires 0 <= i < |links| => planets[links[i].to].hostileDistance);
    var k := FirstMin(ks);
    assert forall i :: 0 <= i < |links| ==> ks[i] == planets[links[i].to].hostileDistance;
    links[k].to
  }

  /** The neighbour under the most global pressure, unless it is under less than `p` itself. */
  function PressureTarget(g: Galaxy, p: PlanetId): Option<PlanetId>
    requires g.Valid() && p < |g.planets| && |g.planets[p].links| > 0
  {
    var pl := g.planets[p];
    var l := pl.links[FirstMax(seq(|pl.links|, i requires 0 <= i < |pl.links| => g.planets[pl.links[i].to].pressureGlobal))];
    if g.planets[l.to].pressureGlobal < pl.pressureGlobal then None else Some(l.to)
  }

  /**
   * getMoveDump: a planet under no local pressure whose every link is secured by allies sends
   * its garrison (sized by BetterShipcount) to the winning target, or else to the pressure target.
   */
  function Dump(g: Galaxy, p: PlanetId): Option<Move>
    requires g.Valid() && p < |g.planets| && |g.planets[p].links| > 0
  {
    var pl := g.planets[p];
    if pl.pressureLocal > 0 || !SecuredByAllies(g, pl) then None
    else
      var winning := if DumpsOnHostile(pl) then WinningTarget(g, p) else None;
      var target := if winning.Some? then winning else PressureTarget(g, p);
      match target
      case None => None
      case Some(t) => Some(Move(0, p, t, pl.owner, BetterShipcount(pl, DumpMovePart * pl.ships, 0), g.realDistance(p, t)))
  }

  /** A dump is refused under local pressure and while any neighbour is not secured by allies; any dump sends the sized garrison. */
  lemma DumpSpec(g: Galaxy, p: PlanetId)
    requires g.Valid() && p < |g.planets| && |g.planets[p].links| > 0
    ensures var r := Dump(g, p); var pl := g.planets[p];
      && (pl.pressureLocal > 0 ==> r.None?)
      && ((exists l :: l in pl.links && g.future(l.to, l.turns).owner != Allied) ==> r.None?)
      && (r.Some? ==>
            && r.value.id == 0 && r.value.from == p && r.value.owner == pl.owner
            && r.value.to < |g.planets| && r.value.turns == g.realDistance(p, r.value.to)
            && r.value.ships == BetterShipcount(pl, pl.ships, 0))
  {
  }

  /**
   * When winning and some hostile planet is within reach, a planet free of local pressure and
   * secured by allies dumps on the hostile planet within reach holding the most ships.
   */
  lemma DumpOnStrongestHostile(g: Galaxy, p: PlanetId)
    requires g.Valid() && p < |g.planets| && |g.planets[p].links| > 0
    requires var pl := g.planets[p]; pl.pressureLocal <= 0 && SecuredByAllies(g, pl) && DumpsOnHostile(pl)
    requires exists q :: 0 <= q < |g.planets| && g.planets[q].owner == Hostile && g.realDistance(q, p) < DumpReach(g.planets[p])
    ensures var r := Dump(g, p);
      && r.Some? && r.value.to < |g.planets|
      && g.planets[r.value.to].owner == Hostile
      && g.realDistance(r.value.to, p) < DumpReach(g.planets[p])
      && forall q :: 0 <= q < |g.planets| && g.planets[q].owner == Hostile && g.realDistance(q, p) < DumpReach(g.planets[p]) ==>
           g.planets[q].ships <= g.planets[r.value.to].ships
  {
    StrongestHostileTarget(g, p);
  }

  /** The winning target, when some hostile planet is within reach: the one holding the most ships. */
  lemma StrongestHostileTarget(g: Galaxy, p: PlanetId)
    requires g.Valid() && p < |g.planets| && |g.planets[p].links| > 0
    requires exists q :: 0 <= q < |g.planets| && g.planets[q].owner == Hostile && g.realDistance(q, p) < DumpReach(g.planets[p])
    ensures var r := WinningTarget(g, p);
      && r.Some? && r.value < |g.planets|
      && g.planets[r.value].owner == Hostile
      && g.realDistance(r.value, p) < DumpReach(g.planets[p])
      && forall q :: 0 <= q < |g.planets| && g.planets[q].owner == Hostile && g.realDistance(q, p) < DumpReach(g.planets[p]) ==>
           g.planets[q].ships <= g.planets[r.value].ships
  {
    var pl := g.planets[p];
    var hostile := HostileWithin(g, p, DumpReach(pl));
    var q0 :| 0 <= q0 < |g.planets| && g.planets[q0].owner == Hostile && g.realDistance(q0, p) < DumpReach(pl);
    assert q0 in hostile;
    var b := Strongest(g.planets, hostile);
    assert WinningTarget(g, p) == Some(b);
    assert b in hostile;
    forall q | 0 <= q < |g.planets| && g.planets[q].owner == Hostile && g.realDistance(q, p) < DumpReach(pl)
      ensures g.planets[q].ships <= g.planets[b].ships
    {
      assert q in hostile;
    }
  }

  /**
   * When winning but no hostile planet is within reach, the dump goes to the allied
   * neighbour with the smallest hostile distance, if there is an allied neighbour.
   */
  lemma DumpTowardsFront(g: Galaxy, p: PlanetId)
    requires g.Valid() && p < |g.planets| && |g.planets[p].links| > 0
    requires var pl := g.planets[p]; pl.pressureLocal <= 0 && SecuredByAllies(g, pl) && DumpsOnHostile(pl)
    requires forall q :: 0 <= q < |g.planets| && g.planets[q].owner == Hostile ==> g.realDistance(q, p) >= DumpReach(g.planets[p])
    requires exists l :: l in g.planets[p].links && g.planets[l.to].owner == Allied
    ensures var r := Dump(g, p); var pl := g.planets[p];
      && r.Some?
      && (exists l :: l in pl.links && l.to == r.value.to && g.planets[l.to].owner == Allied)
      && forall l :: l in pl.links && g.planets[l.to].owner == Allied ==>
           g.planets[r.value.to].hostileDistance <= g.planets[l.to].hostileDistance
  {
    FrontTarget(g, p);
  }

  /** The winning target, when no hostile planet is within reach: the allied neighbour closest to the front. */
  lemma FrontTarget(g: Galaxy, p: PlanetId)
    requires g.Valid() && p < |g.planets| && |g.planets[p].links| > 0
    requires forall q :: 0 <= q < |g.planets| && g.planets[q].owner == Hostile ==> g.realDistance(q, p) >= DumpReach(g.planets[p])
    requires exists l :: l in g.planets[p].links && g.planets[l.to].owner == Allied
    ensures var r := WinningTarget(g, p); var pl := g.planets[p];
      && r.Some?
      && (exists l :: l in pl.links && l.to == r.value && g.planets[l.to].owner == Allied)
      && forall l :: l in pl.links && g.planets[l.to].owner == Allied ==>
           g.planets[r.value].hostileDistance <= g.planets[l.to].hostileDistance
  {
    var pl := g.planets[p];
    var hostile := HostileWithin(g, p, DumpReach(pl));
    assert |hostile| == 0;
    var allied := AlliedLinks(g.planets, pl.links);
    var l0 :| l0 in pl.links && g.planets[l0.to].owner == Allied;
    assert l0 in allied;
    var b := ClosestToFront(g.planets, allied);
    assert WinningTarget(g, p) == Some(b);
    forall l | l in pl.links && g.planets[l.to].owner == Allied
      ensures g.planets[b].hostileDistance <= g.planets[l.to].hostileDistance
    {
      assert l in allied;
    }
  }


  /**
   * Otherwise (not winning, or no winning target at all) the dump goes to the neighbour under
   * the most global pressure, and only when that pressure is not below the planet's own.
   */
  lemma DumpTowardsPressure(g: Galaxy, p: PlanetId)
    requires g.Valid() && p < |g.planets| && |g.planets[p].links| > 0
    requires var pl := g.planets[p]; pl.pressureLocal <= 0 && SecuredByAllies(g, pl)
    requires !DumpsOnHostile(g.planets[p]) || WinningTarget(g, p).None?
    ensures var r := Dump(g, p); var pl := g.planets[p];
      && (r.Some? <==> exists l :: l in pl.links && g.planets[l.to].pressureGlobal >= pl.pressureGlobal)
      && (r.Some? ==>
            && (exists l :: l in pl.links && l.to == r.value.to)
            && g.planets[r.value.to].pressureGlobal >= pl.pressureGlobal
            && forall l :: l in pl.links ==> g.planets[l.to].pressureGlobal <= g.planets[r.value.to].pressureGlobal)
  {
    var pl := g.planets[p];
    var ks := seq(|pl.links|, i requires 0 <= i < |pl.links| => g.planets[pl.links[i].to].pressureGlobal);
    var best := FirstMax(ks);
    forall l | l in pl.links
      ensures g.planets[l.to].pressureGlobal <= g.planets[pl.links[best].to].pressureGlobal
    {
      var i :| 0 <= i < |pl.links| && pl.links[i] == l;
      assert ks[i] <= ks[best];
    }
  }

  // ---------------------------------------------------------------- first turn

  /** processData, turn 1: the neutral planets without a garrison, in planet order. */
  function FreePlanets(planets: seq<Planet>): (r: seq<PlanetId>)
    ensures forall q :: q in r <==> 0 <= q < |planets| && planets[q].owner == Neutral && planets[q].ships == 0
    ensures forall i, j :: 0 <= i < j < |r| ==> r[i] < r[j]
  {
    Indices(seq(|planets|, q requires 0 <= q < |planets| => planets[q].owner == Neutral && planets[q].ships == 0))
  }

  /** The summed fertility of the bot's planets. */
  function AlliedFertility(planets: seq<Planet>): int {
    if planets == [] then 0
    else
      var last := planets[|planets| - 1];
      AlliedFertility(planets[..|planets| - 1]) + (if last.owner == Allied then last.fertility else 0)
  }

  /** The planets of one kind whose fertility exceeds `fertility`, in planet order. */
  function MoreFertile(planets: seq<Planet>, fertility: int, kind: PlayerKind): (r: seq<PlanetId>)
    ensures forall q :: q in r <==> 0 <= q < |planets| && planets[q].owner == kind && planets[q].fertility > fertility
    ensures forall i, j :: 0 <= i < j < |r| ==> r[i] < r[j]
    ensures forall i :: 0 <= i < |r| ==> r[i] < |planets|
  {
    Indices(seq(|planets|, q requires 0 <= q < |planets| => planets[q].owner == kind && planets[q].fertility > fertility))
  }

  /** The reduce over candidate planets: the first of the most fertile. */
  function MostFertile(planets: seq<Planet>, ids: seq<PlanetId>): (b: PlanetId)
    requires |ids| > 0 && forall i :: 0 <= i < |ids| ==> ids[i] < |planets|
    ensures exists k :: 0 <= k < |ids| && ids[k] == b && forall i :: 0 <= i < k ==> planets[ids[i]].fertility < planets[b].fertility
    ensures forall i :: 0 <= i < |ids| ==> planets[ids[i]].fertility <= planets[b].fertility
  {
    var ks := seq(|ids|, i requires 0 <= i < |ids| => planets[ids[i]].fertility);
    var k := FirstMax(ks);
    assert forall i :: 0 <= i < |ids| ==> ks[i] == planets[ids[i]].fertility;
    ids[k]
  }

  /**
   * The start-planet choice exactly as processData writes it: when an opponent planet is more
   * fertile than all the bot's planets together, reduce the more fertile neutral planets to the
   * most fertile one; that `reduce` has no initial value and throws when there is none.
   */
  function PreferredStartAsWritten(planets: seq<Planet>): Result<Option<PlanetId>, string> {
    var fertility := AlliedFertility(planets);
    if |MoreFertile(planets, fertility, Hostile)| == 0 then Success(None)
    else
      var neutral := MoreFertile(planets, fertility, Neutral);
      if |neutral| == 0 then Failure("TypeError: Reduce of empty array with no initial value")
      else Success(Some(MostFertile(planets, neutral)))
  }

  /** The start-planet choice with the empty case kept as "no preferred planet". */
  function PreferredStart(planets: seq<Planet>): Option<PlanetId> {
    var fertility := AlliedFertility(planets);
    var neutral := MoreFertile(planets, fertility, Neutral);
    if |MoreFertile(planets, fertility, Hostile)| == 0 || |neutral| == 0 then None
    else Some(MostFertile(planets, neutral))
  }

  /**
   * A preferred start planet is chosen exactly when some opponent planet and some neutral
   * planet are each more fertile than the bot's planets together.
   */
  lemma PreferredStartWhen(planets: seq<Planet>)
    ensures var f := AlliedFertility(planets);
      PreferredStart(planets).Some? <==>
        && (exists q :: 0 <= q < |planets| && planets[q].owner == Hostile && planets[q].fertility > f)
        && (exists q :: 0 <= q < |planets| && planets[q].owner == Neutral && planets[q].fertility > f)
  {
    var f := AlliedFertility(planets);
    MoreFertileNonEmpty(planets, f, Hostile);
    MoreFertileNonEmpty(planets, f, Neutral);
  }

  lemma MoreFertileNonEmpty(planets: seq<Planet>, fertility: int, kind: PlayerKind)
    ensures |MoreFertile(planets, fertility, kind)| > 0 <==>
      exists q :: 0 <= q < |planets| && planets[q].owner == kind && planets[q].fertility > fertility
  {
    var r := MoreFertile(planets, fertility, kind);
    if |r| > 0 {
      assert r[0] in r;
    }
    if exists q :: 0 <= q < |planets| && planets[q].owner == kind && planets[q].fertility > fertility {
      var q :| 0 <= q < |planets| && planets[q].owner == kind && planets[q].fertility > fertility;
      assert q in r;
    }
  }

  /**
   * A preferred start planet is neutral, more fertile than the bot's planets together, and
   * the first of the most fertile neutral planets.
   */
  lemma PreferredStartMostFertile(planets: seq<Planet>)
    requires PreferredStart(planets).Some?
    ensures var b := PreferredStart(planets).value; var f := AlliedFertility(planets);
      && b < |planets| && planets[b].owner == Neutral && planets[b].fertility > f
      && (forall q :: 0 <= q < |planets| && planets[q].owner == Neutral ==> planets[q].fertility <= planets[b].fertility)
      && (forall q :: 0 <= q < b && planets[q].owner == Neutral ==> planets[q].fertility < planets[b].fertility)
  {
    var f := AlliedFertility(planets);
    var neutral := MoreFertile(planets, f, Neutral);
    var b := MostFertile(planets, neutral);
    assert PreferredStart(planets) == Some(b);
    MostFertileFirst(planets, neutral);
    assert b in neutral;
  }

  /** Among planets listed in increasing order, no planet before the most fertile one is as fertile. */
  lemma MostFertileFirst(planets: seq<Planet>, ids: seq<PlanetId>)
    requires |ids| > 0 && forall i :: 0 <= i < |ids| ==> ids[i] < |planets|
    requires forall i, j :: 0 <= i < j < |ids| ==> ids[i] < ids[j]
    ensures var b := MostFertile(planets, ids);
      && (forall q :: q in ids ==> planets[q].fertility <= planets[b].fertility)
      && (forall q :: q in ids && q < b ==> planets[q].fertility < planets[b].fertility)
  {
    var b := MostFertile(planets, ids);
    var k :| 0 <= k < |ids| && ids[k] == b
      && forall i :: 0 <= i < k ==> planets[ids[i]].fertility < planets[b].fertility;
    assert forall i :: 0 <= i < |ids| && ids[i] < ids[k] ==> i < k;
    forall q | q in ids && q < b ensures planets[q].fertility < planets[b].fertility {
      var i :| 0 <= i < |ids| && ids[i] == q;
    }
  }

  /** Wherever the written choice does not throw, the corrected choice agrees with it; it throws exactly in the empty case. */
  lemma PreferredStartAgrees(planets: seq<Planet>)
    ensures var w := PreferredStartAsWritten(planets); var f := AlliedFertility(planets);
      && (w.Success? ==> w.value == PreferredStart(planets))
      && (w.Failure? <==> |MoreFertile(planets, f, Hostile)| > 0 && |MoreFertile(planets, f, Neutral)| == 0)
  {
  }

  /**
   * A galaxy on which the written choice throws: the opponent's planet is more fertile
   * than the bot's, and no neutral planet is.
   */
  lemma PreferredStartThrows()
    ensures var planets := [
        Planet(10, Allied, [], [], 1, 0, 0, [0], Early, Even, 1),
        Planet(10, Hostile, [], [], 5, 0, 0, [0], Early, Even, 0),
        Planet(0, Neutral, [], [], 0, 0, 0, [0], Early, Even, 1)];
      PreferredStartAsWritten(planets).Failure? && PreferredStart(planets).None?
  {
    var planets := [
        Planet(10, Allied, [], [], 1, 0, 0, [0], Early, Even, 1),
        Planet(10, Hostile, [], [], 5, 0, 0, [0], Early, Even, 0),
        Planet(0, Neutral, [], [], 0, 0, 0, [0], Early, Even, 1)];
    assert AlliedFertility(planets[..1]) == 1;
    assert AlliedFertility(planets[..2]) == 1;
    assert AlliedFertility(planets) == 1;
    var hostile := MoreFertile(planets, 1, Hostile);
    assert 1 in hostile;
    MoreFertileNonEmpty(planets, 1, Neutral);
  }

  // ---------------------------------------------------------------- sorting the free planets

  /** Inserts `x` before the first element whose key is not smaller (keeps equal keys in order). */
  function InsertByKey(x: PlanetId, s: seq<PlanetId>, key: PlanetId -> int): seq<PlanetId> {
    if s == [] || key(x) <= key(s[0]) then [x] + s else [s[0]] + InsertByKey(x, s[1..], key)
  }

  /** A stable sort by key, as `Array.prototype.sort` with the comparator `key(a) - key(b)`. */
  function SortByKey(xs: seq<PlanetId>, key: PlanetId -> int): seq<PlanetId> {
    if xs == [] then [] else InsertByKey(xs[0], SortByKey(xs[1..], key), key)
  }

  ghost predicate SortedByKey(s: seq<PlanetId>, key: PlanetId -> int) {
    forall i, j :: 0 <= i < j < |s| ==> key(s[i]) <= key(s[j])
  }

  ghost predicate KeysAtLeast(b: int, s: seq<PlanetId>, key: PlanetId -> int) {
    forall j :: 0 <= j < |s| ==> b <= key(s[j])
  }

  lemma {:induction false} InsertKeepsBound(b: int, x: PlanetId, s: seq<PlanetId>, key: PlanetId -> int)
    requires b <= key(x) && KeysAtLeast(b, s, key)
    ensures KeysAtLeast(b, InsertByKey(x, s, key), key)
  {
    if s != [] && key(x) > key(s[0]) {
      InsertKeepsBound(b, x, s[1..], key);
    }
  }

  lemma {:induction false} InsertKeepsSorted(x: PlanetId, s: seq<PlanetId>, key: PlanetId -> int)
    requires SortedByKey(s, key)
    ensures SortedByKey(InsertByKey(x, s, key), key)
  {
    if s != [] && key(x) > key(s[0]) {
      var t := InsertByKey(x, s[1..], key);
      InsertKeepsSorted(x, s[1..], key);
      InsertKeepsBound(key(s[0]), x, s[1..], key);
      var r := [s[0]] + t;
      assert InsertByKey(x, s, key) == r;
      forall i, j | 0 <= i < j < |r| ensures key(r[i]) <= key(r[j]) {
        assert r[j] == t[j - 1];
        if i > 0 {
          assert r[i] == t[i - 1];
        }
      }
    } else if s != [] {
      var r := [x] + s;
      assert InsertByKey(x, s, key) == r;
      forall i, j | 0 <= i < j < |r| ensures key(r[i]) <= key(r[j]) {
        assert r[j] == s[j - 1];
        if i > 0 {
          assert r[i] == s[i - 1];
        }
      }
    }
  }

  lemma {:induction false} InsertAddsOne(x: PlanetId, s: seq<PlanetId>, key: PlanetId -> int)
    ensures multiset(InsertByKey(x, s, key)) == multiset(s) + multiset{x}
  {
    if s != [] && key(x) > key(s[0]) {
      InsertAddsOne(x, s[1..], key);
      assert s == [s[0]] + s[1..];
    }
  }

  /** The free-planet order: sorted by key, and a permutation of the list. */
  lemma {:induction false} SortByKeySpec(xs: seq<PlanetId>, key: PlanetId -> int)
    ensures SortedByKey(SortByKey(xs, key), key)
    ensures multiset(SortByKey(xs, key)) == multiset(xs)
  {
    if xs != [] {
      SortByKeySpec(xs[1..], key);
      InsertKeepsSorted(xs[0], SortByKey(xs[1..], key), key);
      InsertAddsOne(xs[0], SortByKey(xs[1..], key), key);
      assert xs == [xs[0]] + xs[1..];
    }
  }
}
