/**
 * The HostileDistance message: every hostile planet seeds a message of the default value 0
 * at itself; messages travel over all routes (every link of a planet), gaining one per hop,
 * and a planet keeps the minimum of what reaches it. A planet no message reaches reads the
 * default value.
 *
 * The message framework that forwards and collects messages is not part of this model; its
 * outcome is modelled as rounds of relaxation over the links (a message crosses one link per
 * round), run for as many rounds as there are planets. The lemmas show that this settles on
 * the smallest number of hops from any hostile planet.
 */
module HostileDistance {
  import opened Wrappers
  import opened Game

  /** A message travelling from planet `from` to planet `to`, carrying `value`. */
  datatype Message = Message(from: PlanetId, to: PlanetId, value: int)

  /** The value of a planet no message reaches. */
  function DefaultValue(): int {
    0
  }

  /** The message planet `q` seeds: none unless it is hostile, else the default value at itself. */
  function Seed(planets: seq<Planet>, q: PlanetId): (r: Option<Message>)
    requires q < |planets|
    ensures r.Some? <==> planets[q].owner == Hostile
    ensures r.Some? ==> r.value.from == q && r.value.to == q && r.value.value == DefaultValue()
  {
    if planets[q].owner != Hostile then None else Some(Message(q, q, DefaultValue()))
  }

  /** The combined value of the messages reaching a planet: their minimum. */
  function ReduceMin(values: seq<int>): (r: int)
    requires |values| > 0
    ensures r in values
    ensures forall v :: v in values ==> r <= v
  {
    if |values| == 1 then values[0]
    else
      var rest := values[..|values| - 1];
      assert forall v :: v in rest ==> v in values;
      assert values == rest + [values[|values| - 1]];
      Min(ReduceMin(rest), values[|values| - 1])
  }

  /** The minimum does not depend on the order in which the messages arrive. */
  lemma ReduceMinOrderFree(a: seq<int>, b: seq<int>)
    requires |a| > 0 && multiset(a) == multiset(b)
    ensures |b| > 0 && ReduceMin(a) == ReduceMin(b)
  {
    assert |multiset(b)| == |b|;
    var ra := ReduceMin(a);
    assert ra in multiset(a);
    assert ra in b;
    var rb := ReduceMin(b);
    assert rb in multiset(b);
    assert rb in a;
  }

  /** The message sent along link `l`: one more than the value it arrived with. */
  function ForRoute(m: Message, l: Link): (r: Message)
    ensures r.from == m.to && r.to == l.to && r.value == m.value + 1
  {
    Message(m.to, l.to, m.value + 1)
  }

  // ---------------------------------------------------------------- routes

  /** Planet `b` is the end of one of the links of planet `a`. */
  predicate Edge(planets: seq<Planet>, a: PlanetId, b: PlanetId) {
    a < |planets| && b < |planets| && exists i :: 0 <= i < |planets[a].links| && planets[a].links[i].to == b
  }

  /** A walk over links that starts on a hostile planet and ends on planet `b`; its hops are `|w| - 1`. */
  ghost predicate RouteTo(planets: seq<Planet>, w: seq<PlanetId>, b: PlanetId) {
    && |w| > 0
    && (forall i :: 0 <= i < |w| ==> w[i] < |planets|)
    && planets[w[0]].owner == Hostile
    && (forall i :: 0 <= i < |w| - 1 ==> Edge(planets, w[i], w[i + 1]))
    && w[|w| - 1] == b
  }

  // ---------------------------------------------------------------- relaxation

  /** The smaller of two known hop counts, an unknown one losing. */
  function MinKnown(a: Option<int>, b: Option<int>): (r: Option<int>)
    ensures r.Some? <==> a.Some? || b.Some?
    ensures r.Some? ==> (r == a || r == b)
    ensures r.Some? && a.Some? ==> r.value <= a.value
    ensures r.Some? && b.Some? ==> r.value <= b.value
  {
    match (a, b)
    case (None, _) => b
    case (_, None) => a
    case (Some(x), Some(y)) => if y < x then b else a
  }

  /** On two known values the relaxation's minimum is the message's `reduce`. */
  lemma MinKnownIsReduceMin(x: int, y: int)
    ensures MinKnown(Some(x), Some(y)) == Some(ReduceMin([x, y]))
  {
    assert [x, y][..1] == [x];
  }

  /** After a round, the far end of a link holds no more than the message forwarded along it would carry. */
  lemma ArrivalIsForwarded(planets: seq<Planet>, d: seq<Option<int>>, m: Message, l: Link)
    requires |d| == |planets| && m.to < |planets| && l in planets[m.to].links && l.to < |planets|
    requires d[m.to] == Some(m.value)
    ensures var r := Relax(planets, d)[l.to]; r.Some? && r.value <= ForRoute(m, l).value
  {
    var i :| 0 <= i < |planets[m.to].links| && planets[m.to].links[i] == l;
    assert Edge(planets, m.to, l.to);
    ArrivalsSpec(planets, d, l.to, |planets|);
  }

  /** The values seeded before any message moves. */
  function Seeds(planets: seq<Planet>): (d: seq<Option<int>>)
    ensures |d| == |planets|
  {
    seq(|planets|, q requires 0 <= q < |planets| =>
      if Seed(planets, q).Some? then Some(Seed(planets, q).value.value) else None)
  }

  /** The best value arriving at `b` over one link from the planets before `a`. */
  function Arrivals(planets: seq<Planet>, d: seq<Option<int>>, b: PlanetId, a: nat): Option<int>
    requires |d| == |planets| && a <= |planets|
  {
    if a == 0 then None
    else
      var s := a - 1;
      var here := if Edge(planets, s, b) && d[s].Some? then Some(d[s].value + 1) else None;
      MinKnown(Arrivals(planets, d, b, s), here)
  }

  /** One round: every planet keeps the minimum of its value and of what its in-links bring. */
  function Relax(planets: seq<Planet>, d: seq<Option<int>>): (r: seq<Option<int>>)
    requires |d| == |planets|
    ensures |r| == |planets|
  {
    seq(|planets|, b requires 0 <= b < |planets| => MinKnown(d[b], Arrivals(planets, d, b, |planets|)))
  }

  /** The values after `k` rounds. */
  function Propagate(planets: seq<Planet>, k: nat): (d: seq<Option<int>>)
    ensures |d| == |planets|
  {
    if k == 0 then Seeds(planets) else Relax(planets, Propagate(planets, k - 1))
  }

  /** The value a planet reads once the messages have settled. */
  function Value(planets: seq<Planet>, b: PlanetId): int
    requires b < |planets|
  {
    var d := Propagate(planets, |planets|);
    if d[b].Some? then d[b].value else DefaultValue()
  }

  // ---------------------------------------------------------------- proofs

  /** What arrives at `b` is one more than the value of some in-neighbour, and no more than one more than any. */
  lemma {:induction false} ArrivalsSpec(planets: seq<Planet>, d: seq<Option<int>>, b: PlanetId, a: nat)
    requires |d| == |planets| && a <= |planets|
    ensures var r := Arrivals(planets, d, b, a);
      && (r.Some? ==> exists s :: 0 <= s < a && Edge(planets, s, b) && d[s].Some? && r.value == d[s].value + 1)
      && (forall s :: 0 <= s < a && Edge(planets, s, b) && d[s].Some? ==> r.Some? && r.value <= d[s].value + 1)
  {
    if a > 0 {
      ArrivalsSpec(planets, d, b, a - 1);
    }
  }

  /** Every known value in `d` is the hop count of a route, of at most `k` hops. */
  ghost predicate Sound(planets: seq<Planet>, d: seq<Option<int>>, k: nat) {
    && |d| == |planets|
    && forall s :: 0 <= s < |d| && d[s].Some? ==>
         0 <= d[s].value <= k && exists w :: RouteTo(planets, w, s) && |w| == d[s].value + 1
  }

  /** Every known value after `k` rounds is the hop count of a route, of at most `k` hops. */
  lemma {:induction false} PropagateSound(planets: seq<Planet>, k: nat)
    ensures Sound(planets, Propagate(planets, k), k)
  {
    if k == 0 {
      forall b | 0 <= b < |planets| && Seeds(planets)[b].Some?
        ensures Seeds(planets)[b].value == 0 && RouteTo(planets, [b], b)
      {
      }
    } else {
      PropagateSound(planets, k - 1);
      RelaxKeepsSound(planets, Propagate(planets, k - 1), k - 1);
    }
  }

  /** One round keeps the values sound, with one hop more allowed. */
  lemma RelaxKeepsSound(planets: seq<Planet>, d: seq<Option<int>>, k: nat)
    requires Sound(planets, d, k)
    ensures Sound(planets, Relax(planets, d), k + 1)
  {
    var r := Relax(planets, d);
    forall b | 0 <= b < |r| && r[b].Some?
      ensures 0 <= r[b].value <= k + 1 && exists w :: RouteTo(planets, w, b) && |w| == r[b].value + 1
    {
      var v := r[b].value;
      RelaxSound(planets, d, b);
      if d[b] != Some(v) {
        var s :| 0 <= s < |planets| && Edge(planets, s, b) && d[s].Some? && v == d[s].value + 1;
        var w: seq<PlanetId> :| RouteTo(planets, w, s) && |w| == d[s].value + 1;
        ExtendRoute(planets, w, s, b);
        var w' := w + [b];
        assert RouteTo(planets, w', b) && |w'| == v + 1;
      }
    }
  }

  /** A value one round produces was already there or arrived over one link. */
  lemma RelaxSound(planets: seq<Planet>, d: seq<Option<int>>, b: PlanetId)
    requires |d| == |planets| && b < |planets| && Relax(planets, d)[b].Some?
    ensures var v := Relax(planets, d)[b].value;
      d[b] == Some(v) || exists s :: 0 <= s < |planets| && Edge(planets, s, b) && d[s].Some? && v == d[s].value + 1
  {
    ArrivalsSpec(planets, d, b, |planets|);
  }

  /** A route to `s` followed by a link from `s` to `b` is a route to `b`. */
  lemma ExtendRoute(planets: seq<Planet>, w: seq<PlanetId>, s: PlanetId, b: PlanetId)
    requires RouteTo(planets, w, s) && Edge(planets, s, b)
    ensures RouteTo(planets, w + [b], b)
  {
    var w' := w + [b];
    forall i | 0 <= i < |w'| - 1 ensures Edge(planets, w'[i], w'[i + 1]) {
      if i < |w| - 1 {
        assert w'[i] == w[i] && w'[i + 1] == w[i + 1];
      }
    }
  }

  /** A route of at most `k` hops is known after `k` rounds, with at most its hop count. */
  lemma {:induction false} PropagateComplete(planets: seq<Planet>, k: nat, w: seq<PlanetId>, b: PlanetId)
    requires RouteTo(planets, w, b) && |w| - 1 <= k
    ensures Propagate(planets, k)[b].Some? && Propagate(planets, k)[b].value <= |w| - 1
  {
    if k > 0 {
      var d := Propagate(planets, k - 1);
      if |w| == 1 {
        PropagateComplete(planets, k - 1, w, b);
      } else {
        var w' := w[..|w| - 1];
        var s := w[|w| - 2];
        assert RouteTo(planets, w', s);
        PropagateComplete(planets, k - 1, w', s);
        assert Edge(planets, s, b);
        ArrivalsSpec(planets, d, b, |planets|);
      }
    }
  }

  /** The distinct entries of a sequence. */
  ghost function Elems(w: seq<PlanetId>): set<PlanetId> {
    set i | 0 <= i < |w| :: w[i]
  }

  /** A sequence without repeated entries has as many distinct entries as it is long. */
  lemma {:induction false} DistinctElems(w: seq<PlanetId>)
    requires forall i, j :: 0 <= i < j < |w| ==> w[i] != w[j]
    ensures |Elems(w)| == |w|
  {
    if w != [] {
      var rest := w[..|w| - 1];
      DistinctElems(rest);
      assert Elems(w) == Elems(rest) + {w[|w| - 1]};
      assert w[|w| - 1] !in Elems(rest);
    }
  }

  /** A set of planet numbers below `n` has at most `n` members. */
  lemma {:induction false} BoundedElems(s: set<PlanetId>, n: nat)
    requires forall x :: x in s ==> x < n
    ensures |s| <= n
  {
    if n > 0 {
      var s' := s - {n - 1};
      BoundedElems(s', n - 1);
    } else {
      assert s == {};
    }
  }

  /** Pigeonhole: a sequence of planet numbers below `n` longer than `n` repeats one. */
  lemma Repeats(w: seq<PlanetId>, n: nat)
    requires |w| > n && forall i :: 0 <= i < |w| ==> w[i] < n
    ensures exists i, j :: 0 <= i < j < |w| && w[i] == w[j]
  {
    if forall i, j :: 0 <= i < j < |w| ==> w[i] != w[j] {
      DistinctElems(w);
      BoundedElems(Elems(w), n);
      assert false;
    }
  }

  /** Cutting the cycle between two visits of the same planet leaves a route to the same end. */
  lemma CutCycle(planets: seq<Planet>, w: seq<PlanetId>, b: PlanetId, i: nat, j: nat)
    requires RouteTo(planets, w, b) && i < j < |w| && w[i] == w[j]
    ensures RouteTo(planets, w[..i] + w[j..], b)
  {
    var w' := w[..i] + w[j..];
    assert forall k :: 0 <= k < i ==> w'[k] == w[k];
    assert forall k :: i <= k < |w'| ==> w'[k] == w[k + j - i];
    forall k | 0 <= k < |w'| - 1 ensures Edge(planets, w'[k], w'[k + 1]) {
      if k + 1 < i {
        assert Edge(planets, w[k], w[k + 1]);
      } else if k + 1 == i {
        assert Edge(planets, w[i - 1], w[i]);
      } else {
        assert Edge(planets, w[k + j - i], w[k + j - i + 1]);
      }
    }
  }

  /** Every route can be shortened to one that visits no planet twice, so has fewer hops than there are planets. */
  lemma {:induction false} ShortRoute(planets: seq<Planet>, w: seq<PlanetId>, b: PlanetId)
    requires RouteTo(planets, w, b)
    ensures exists w' :: RouteTo(planets, w', b) && |w'| <= |w| && |w'| <= |planets|
    decreases |w|
  {
    if |w| > |planets| {
      Repeats(w, |planets|);
      var i, j :| 0 <= i < j < |w| && w[i] == w[j];
      CutCycle(planets, w, b, i, j);
      ShortRoute(planets, w[..i] + w[j..], b);
    } else {
      assert RouteTo(planets, w, b);
    }
  }

  /** The settled values have a value exactly where some route from a hostile planet arrives. */
  predicate Reached(planets: seq<Planet>, b: PlanetId)
    requires b < |planets|
  {
    Propagate(planets, |planets|)[b].Some?
  }

  /**
   * The settled value of a planet: it is reached exactly when some route from a hostile
   * planet leads to it, and then its value is the fewest hops of any such route; otherwise
   * it reads the default value 0. A hostile planet reads 0.
   */
  lemma ValueIsHopDistance(planets: seq<Planet>, b: PlanetId)
    requires b < |planets|
    ensures Reached(planets, b) <==> exists w :: RouteTo(planets, w, b)
    ensures Reached(planets, b) ==>
      && (exists w :: RouteTo(planets, w, b) && Value(planets, b) == |w| - 1)
      && forall w :: RouteTo(planets, w, b) ==> Value(planets, b) <= |w| - 1
    ensures !Reached(planets, b) ==> Value(planets, b) == DefaultValue()
    ensures planets[b].owner == Hostile ==> Value(planets, b) == 0
  {
    var n := |planets|;
    forall w | RouteTo(planets, w, b) ensures Reached(planets, b) && Propagate(planets, n)[b].value <= |w| - 1 {
      ShortRoute(planets, w, b);
      var w' :| RouteTo(planets, w', b) && |w'| <= |w| && |w'| <= n;
      PropagateComplete(planets, n, w', b);
    }
    PropagateSound(planets, n);
    if planets[b].owner == Hostile {
      assert RouteTo(planets, [b], b);
    }
  }
}
