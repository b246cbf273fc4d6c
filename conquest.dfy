/**
 * getMoveConquest: for every link to a planet the bot does not own and will not own on
 * arrival, the immediate option sized to beat the projected defenders; every fleet already
 * flying there may suggest a delayed option ("sniping") that lands the turn after it, adopted
 * when it scores strictly better. The best-scored option overall is taken only if it is
 * immediate; a delayed best means waiting for its turn.
 */
module Conquests {
  import opened Wrappers
  import opened Game
  import opened Select
  import opened Tactics

  /** An option under consideration, with the count it needs and the count that can be sent. */
  datatype Candidate = Candidate(option: Move, needed: int, ships: int)

  /** The delayed option suggested by the inbound fleet `m`: land on the turn after it does. */
  function SnipeOption(g: Galaxy, p: PlanetId, l: Link, m: Move): Option<Candidate>
    requires p < |g.planets| && m.to < |g.planets| && m.turns >= l.turns
  {
    var future := g.future(m.to, m.turns + 1);
    var delay := m.turns + 1 - l.turns;
    var extra := NeededExtraShips(g.planets[m.to], m.turns + 1);
    var needed := future.ships + 1 + extra;
    var ships := BetterShipcount(g.planets[m.to], needed, delay);
    if ships < needed then None
    else Some(Candidate(LinkMove(p, g.planets[p].owner, l, ships).(id := DelayIdWeight * delay + extra), needed, ships))
  }

  /** The search over the inbound fleets, left to right, replacing the candidate on a strictly better score. */
  function Improve(g: Galaxy, p: PlanetId, l: Link, c: Candidate, moves: seq<Move>): Candidate
    requires p < |g.planets| && forall m :: m in moves ==> m.to < |g.planets|
  {
    if moves == [] then c
    else Consider(g, p, l, Improve(g, p, l, c, moves[..|moves| - 1]), moves[|moves| - 1])
  }

  /** One step of that search: the inbound fleet `m` replaces `best` if its option scores strictly better. */
  function Consider(g: Galaxy, p: PlanetId, l: Link, best: Candidate, m: Move): Candidate
    requires p < |g.planets| && m.to < |g.planets|
  {
    if m.turns < l.turns then best
    else
      match SnipeOption(g, p, l, m)
      case None => best
      case Some(c2) => if g.score(c2.option) > g.score(best.option) then c2 else best
  }

  /** The option one link to a planet the bot does not own contributes, if valid. */
  function LinkOption(g: Galaxy, p: PlanetId, l: Link): Option<Move>
    requires g.Valid() && p < |g.planets| && l in g.planets[p].links
  {
    var pl := g.planets[p];
    var future := g.future(l.to, l.turns);
    if future.owner == pl.owner then None
    else
      var extra := NeededExtraShips(g.planets[l.to], l.turns);
      var needed := future.leadArmy + 1 + extra;
      var ships := BetterShipcount(pl, needed, 0);
      var c := Improve(g, p, l, Candidate(LinkMove(p, pl.owner, l, Max(needed, ships)), needed, ships), g.planets[l.to].movesIn);
      if c.ships >= c.needed then Some(c.option) else None
  }

  /** The valid options of the links to planets the bot does not own, in link order. */
  function Options(g: Galaxy, p: PlanetId, links: seq<Link>): seq<Move>
    requires g.Valid() && p < |g.planets| && forall l :: l in links ==> l in g.planets[p].links
  {
    if links == [] then []
    else
      var l := links[|links| - 1];
      assert l in g.planets[p].links && g.planets[p].InRange(|g.planets|);
      Options(g, p, links[..|links| - 1])
        + (if g.planets[l.to].owner != Allied then OptionMoves(LinkOption(g, p, l)) else [])
  }

  /** The scores of the options, in order. */
  function Scores(g: Galaxy, options: seq<Move>): (r: seq<int>)
    ensures |r| == |options| && forall i :: 0 <= i < |options| ==> r[i] == g.score(options[i])
  {
    seq(|options|, i requires 0 <= i < |options| => g.score(options[i]))
  }

  /** The conquest move of planet `p`, if any. */
  function Conquest(g: Galaxy, p: PlanetId): Option<Move>
    requires g.Valid() && p < |g.planets|
  {
    var pl := g.planets[p];
    if pl.pressureLocal > 0 then None
    else
      var options := Options(g, p, pl.links);
      if options == [] then None
      else
        var best := options[FirstMax(Scores(g, options))];
        if best.id != 0 then None else Some(best)
  }

  /** The inner loop of getMoveConquest: the fleets inbound to the link's target, in order. */
  method SearchInbound(g: Galaxy, p: PlanetId, l: Link, c0: Candidate) returns (c: Candidate)
    requires g.Valid() && p < |g.planets| && l.to < |g.planets|
    ensures c == Improve(g, p, l, c0, g.planets[l.to].movesIn)
  {
    var inbound := g.planets[l.to].movesIn;
    assert g.planets[l.to].InRange(|g.planets|);
    var owner := g.planets[p].owner;
    var option, needed, ships := c0.option, c0.needed, c0.ships;
    var j := 0;
    while j < |inbound|
      invariant 0 <= j <= |inbound|
      invariant Candidate(option, needed, ships) == Improve(g, p, l, c0, inbound[..j])
    {
      var m := inbound[j];
      assert inbound[..j + 1][..j] == inbound[..j];
      ghost var before := Candidate(option, needed, ships);
      if m.turns >= l.turns {
        var future2 := g.future(m.to, m.turns + 1);
        var delay := m.turns + 1 - l.turns;
        var extra2 := NeededExtraShips(g.planets[m.to], m.turns + 1);
        var needed2 := future2.ships + 1 + extra2;
        var ships2 := BetterShipcount(g.planets[m.to], needed2, delay);
        if ships2 >= needed2 {
          var option2 := LinkMove(p, owner, l, ships2).(id := DelayIdWeight * delay + extra2);
          if g.score(option2) > g.score(option) {
            needed, ships, option := needed2, ships2, option2;
          }
        }
      }
      assert Candidate(option, needed, ships) == Consider(g, p, l, before, m);
      j := j + 1;
    }
    assert inbound[..j] == inbound;
    return Candidate(option, needed, ships);
  }

  /** The body of getMoveConquest's outer loop for one link to a planet the bot does not own. */
  method GetLinkOption(g: Galaxy, p: PlanetId, l: Link) returns (o: Option<Move>)
    requires g.Valid() && p < |g.planets| && l in g.planets[p].links
    ensures o == LinkOption(g, p, l)
  {
    var pl := g.planets[p];
    assert pl.InRange(|g.planets|);
    var future := g.future(l.to, l.turns);
    if future.owner == pl.owner {
      return None;
    }
    var extra := NeededExtraShips(g.planets[l.to], l.turns);
    var needed := future.leadArmy + 1 + extra;
    var ships := BetterShipcount(pl, needed, 0);
    var c := SearchInbound(g, p, l, Candidate(LinkMove(p, pl.owner, l, Max(needed, ships)), needed, ships));
    // the option only counts when it can be sent
    if c.ships >= c.needed {
      return Some(c.option);
    }
    return None;
  }

  /** The options' reduce: the first option with the highest score. */
  method BestScored(g: Galaxy, options: seq<Move>) returns (best: Move)
    requires |options| > 0
    ensures best == options[FirstMax(Scores(g, options))]
  {
    ghost var scores := Scores(g, options);
    best := options[0];
    var i := 1;
    while i < |options|
      invariant 1 <= i <= |options|
      invariant best == options[FirstMax(scores[..i])]
    {
      assert scores[..i + 1][..i] == scores[..i];
      if g.score(options[i]) > g.score(best) {
        best := options[i];
      }
      i := i + 1;
    }
    assert scores[..i] == scores;
  }

  /** getMoveConquest with its loops. */
  method GetMoveConquest(g: Galaxy, p: PlanetId) returns (r: Option<Move>)
    requires g.Valid() && p < |g.planets|
    ensures r == Conquest(g, p)
  {
    var pl := g.planets[p];
    // under local pressure the planet keeps its ships
    if pl.pressureLocal > 0 {
      return None;
    }
    var options: seq<Move> := [];
    var k := 0;
    while k < |pl.links|
      invariant 0 <= k <= |pl.links|
      invariant options == Options(g, p, pl.links[..k])
    {
      var l := pl.links[k];
      ghost var next := pl.links[..k + 1];
      assert next[..k] == pl.links[..k] && next[k] == l;
      assert forall l' :: l' in next ==> l' in pl.links;
      assert pl.InRange(|g.planets|);
      if g.planets[l.to].owner != Allied {
        var o := GetLinkOption(g, p, l);
        if o.Some? {
          options := options + [o.value];
        }
      }
      k := k + 1;
    }
    assert pl.links[..k] == pl.links;
    if options == [] {
      return None;
    }
    var best := BestScored(g, options);
    // a delayed best option means no move this turn
    if best.id != 0 {
      return None;
    }
    return Some(best);
  }

  /** Every delayed option carries an id of at least DelayIdWeight, since its delay is at least one turn. */
  lemma SnipeOptionIsDelayed(g: Galaxy, p: PlanetId, l: Link, m: Move)
    requires p < |g.planets| && m.to < |g.planets| && m.turns >= l.turns
    requires SnipeOption(g, p, l, m).Some?
    ensures SnipeOption(g, p, l, m).value.option.id >= DelayIdWeight
  {
  }

  /** The search over inbound fleets either keeps the immediate candidate or ends on a delayed one. */
  lemma {:induction false} ImproveKeepsOrDelays(g: Galaxy, p: PlanetId, l: Link, c: Candidate, moves: seq<Move>)
    requires p < |g.planets| && forall m :: m in moves ==> m.to < |g.planets|
    ensures var r := Improve(g, p, l, c, moves); r == c || r.option.id >= DelayIdWeight
  {
    if moves != [] {
      ImproveKeepsOrDelays(g, p, l, c, moves[..|moves| - 1]);
      var m := moves[|moves| - 1];
      if m.turns >= l.turns && SnipeOption(g, p, l, m).Some? {
        SnipeOptionIsDelayed(g, p, l, m);
      }
    }
  }

  /**
   * An immediate option of a link goes along it from `p`, to a planet that will not be the
   * bot's on arrival, with exactly the sized count, which covers the defenders' leading army
   * plus one plus the target's own extra request.
   */
  lemma ImmediateLinkOption(g: Galaxy, p: PlanetId, l: Link)
    requires g.Valid() && p < |g.planets| && l in g.planets[p].links
    requires LinkOption(g, p, l).Some? && LinkOption(g, p, l).value.id == 0
    ensures var m := LinkOption(g, p, l).value; var pl := g.planets[p];
      var future := g.future(l.to, l.turns);
      var need := future.leadArmy + 1 + NeededExtraShips(g.planets[l.to], l.turns);
      && m.from == p && m.to == l.to && m.turns == l.turns && m.owner == pl.owner
      && future.owner != pl.owner
      && m.ships == BetterShipcount(pl, need, 0) >= need
  {
    var pl := g.planets[p];
    var future := g.future(l.to, l.turns);
    var extra := NeededExtraShips(g.planets[l.to], l.turns);
    var needed := future.leadArmy + 1 + extra;
    var ships := BetterShipcount(pl, needed, 0);
    var c := Candidate(LinkMove(p, pl.owner, l, Max(needed, ships)), needed, ships);
    ImproveKeepsOrDelays(g, p, l, c, g.planets[l.to].movesIn);
  }

  /** Each option comes from a link to a planet the bot does not own. */
  lemma {:induction false} OptionsFromLinks(g: Galaxy, p: PlanetId, links: seq<Link>, o: Move)
    requires g.Valid() && p < |g.planets| && forall l :: l in links ==> l in g.planets[p].links
    requires o in Options(g, p, links)
    ensures exists l :: l in links && g.planets[l.to].owner != Allied && LinkOption(g, p, l) == Some(o)
  {
    var l := links[|links| - 1];
    var rest := links[..|links| - 1];
    if o in Options(g, p, rest) {
      OptionsFromLinks(g, p, rest, o);
      var l' :| l' in rest && g.planets[l'.to].owner != Allied && LinkOption(g, p, l') == Some(o);
      assert l' in links;
    } else {
      assert g.planets[l.to].owner != Allied && LinkOption(g, p, l) == Some(o);
    }
  }

  /**
   * The conquest move: nothing under local pressure; otherwise, if any, an immediate move
   * (never a delayed option) along a link to a planet not the bot's on arrival, carrying at
   * least the defenders' leading army plus one plus the extra request, and scoring at least
   * as well as every valid option.
   */
  lemma ConquestSpec(g: Galaxy, p: PlanetId)
    requires g.Valid() && p < |g.planets|
    ensures var r := Conquest(g, p); var pl := g.planets[p];
      && (pl.pressureLocal > 0 ==> r.None?)
      && (r.Some? ==>
            && r.value.id == 0 && r.value.from == p && r.value.owner == pl.owner
            && (forall o :: o in Options(g, p, pl.links) ==> g.score(o) <= g.score(r.value))
            && exists l :: l in pl.links && l.to == r.value.to && l.turns == r.value.turns
                 && g.planets[l.to].owner != Allied
                 && g.future(l.to, l.turns).owner != pl.owner
                 && var need := g.future(l.to, l.turns).leadArmy + 1 + NeededExtraShips(g.planets[l.to], l.turns);
                    r.value.ships == BetterShipcount(pl, need, 0) >= need)
  {
    var pl := g.planets[p];
    if pl.pressureLocal <= 0 {
      var options := Options(g, p, pl.links);
      if options != [] {
        var scores := Scores(g, options);
        var best := options[FirstMax(scores)];
        if best.id == 0 {
          OptionsFromLinks(g, p, pl.links, best);
          var l :| l in pl.links && g.planets[l.to].owner != Allied && LinkOption(g, p, l) == Some(best);
          ImmediateLinkOption(g, p, l);
          forall o | o in options ensures g.score(o) <= g.score(best) {
            var i :| 0 <= i < |options| && options[i] == o;
            assert scores[i] <= scores[FirstMax(scores)];
          }
        }
      }
    }
  }
}
