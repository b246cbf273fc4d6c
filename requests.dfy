/**
 * How `tryAddMove` lowers the RequestActive array of a move's destination: the entries up
 * to the arrival turn drop by the move's ships, the entries after it are levelled off,
 * and trailing entries that ask for nothing are popped (index 0 always stays).
 *
 * The level-off loop compares against `requested[turns] - ships` while it has already
 * lowered `requested[turns]` in its first round, so with positive ships the arrival entry
 * is lowered twice and the later entries are capped three ship counts below its old value.
 */
module Requests {
  import opened Game

  /** After the first loop: every entry up to and including `turns` lowered by `ships`. */
  function Decreased(req: seq<int>, turns: nat, ships: int): seq<int> {
    seq(|req|, i requires 0 <= i < |req| => if i <= turns then req[i] - ships else req[i])
  }

  /** The first index from `j` on whose entry is at most `cap` (or the length). */
  function LevelStop(d: seq<int>, cap: int, j: nat): (k: nat)
    requires j <= |d|
    ensures j <= k <= |d|
    ensures forall i :: j <= i < k ==> d[i] > cap
    ensures k < |d| ==> d[k] <= cap
    decreases |d| - j
  {
    if j == |d| || d[j] <= cap then j else LevelStop(d, cap, j + 1)
  }

  /**
   * After the level-off loop. With ships > 0 the entry at `turns` is lowered once more and
   * the entries after it, up to the first one already at most `d[turns] - 2*ships`, are
   * set to that cap; with ships <= 0 the loop stops at once.
   */
  function Leveled(d: seq<int>, turns: nat, ships: int): seq<int>
    requires turns < |d|
  {
    if ships <= 0 then d
    else
      var cap := d[turns] - 2 * ships;
      var k := LevelStop(d, cap, turns + 1);
      seq(|d|, i requires 0 <= i < |d| =>
        if i == turns then d[turns] - ships else if turns < i < k then cap else d[i])
  }

  /** After the pop loop: trailing non-positive entries removed, index 0 kept. */
  function Trimmed(r: seq<int>): (t: seq<int>)
    requires |r| >= 1
    ensures 1 <= |t| <= |r| && t == r[..|t|]
    ensures |t| == 1 || t[|t| - 1] > 0
    ensures forall i :: |t| <= i < |r| ==> r[i] <= 0
  {
    if |r| > 1 && r[|r| - 1] <= 0 then Trimmed(r[..|r| - 1]) else r
  }

  /** The RequestActive array after a move of `ships` ships arriving in `turns` turns. */
  function AfterMove(req: seq<int>, turns: nat, ships: int): seq<int> {
    if |req| <= turns then req
    else Trimmed(Leveled(Decreased(req, turns, ships), turns, ships))
  }

  /** The request arrays of all planets after a sequence of moves, in order. */
  function ApplyMoves(active: seq<seq<int>>, moves: seq<Move>): (r: seq<seq<int>>)
    requires forall m :: m in moves ==> m.to < |active|
    ensures |r| == |active|
  {
    if moves == [] then active
    else Lower(ApplyMoves(active, moves[..|moves| - 1]), moves[|moves| - 1])
  }

  /** The request arrays of all planets after one move: only its destination's array changes. */
  function Lower(active: seq<seq<int>>, m: Move): (r: seq<seq<int>>)
    requires m.to < |active|
    ensures |r| == |active|
  {
    active[m.to := AfterMove(active[m.to], m.turns, m.ships)]
  }

  /** The three loops of tryAddMove, run on the destination's request array. */
  method LowerRequests(requested: seq<int>, turns: nat, ships: int) returns (r: seq<int>)
    ensures r == AfterMove(requested, turns, ships)
  {
    r := requested;
    if |r| <= turns {
      return;
    }
    r := DecreaseRequests(r, turns, ships);
    r := LevelOff(r, turns, ships);
    r := PopRequests(r);
  }

  /** The first loop: the entries up to and including the arrival turn drop by `ships`. */
  method DecreaseRequests(requested: seq<int>, turns: nat, ships: int) returns (r: seq<int>)
    requires turns < |requested|
    ensures r == Decreased(requested, turns, ships)
  {
    r := requested;
    var i := 0;
    while i <= turns
      invariant 0 <= i <= turns + 1
      invariant |r| == |requested|
      invariant forall j :: 0 <= j < |r| ==> r[j] == (if j < i then requested[j] - ships else requested[j])
    {
      r := r[i := r[i] - ships];
      i := i + 1;
    }
  }

  /** The second loop: the later entries are levelled off against the (already lowered) arrival entry. */
  method LevelOff(d: seq<int>, turns: nat, ships: int) returns (r: seq<int>)
    requires turns < |d|
    ensures r == Leveled(d, turns, ships)
  {
    r := d;
    var i := turns;
    while i < |r| && r[i] > r[turns] - ships
      invariant turns <= i <= |r| == |d|
      invariant i == turns ==> r == d
      invariant i > turns ==> ships > 0 && r[turns] == d[turns] - ships
      invariant forall j :: turns < j < i ==> r[j] == d[turns] - 2 * ships < d[j]
      invariant forall j :: 0 <= j < |r| && (j < turns || i <= j) ==> r[j] == d[j]
      decreases |r| - i
    {
      r := r[i := r[turns] - ships];
      i := i + 1;
    }
    assert ships > 0 ==> i == LevelStop(d, d[turns] - 2 * ships, turns + 1);
  }

  /** The third loop: trailing entries that ask for nothing are popped, index 0 always stays. */
  method PopRequests(leveled: seq<int>) returns (r: seq<int>)
    requires |leveled| >= 1
    ensures r == Trimmed(leveled)
  {
    r := leveled;
    var i := |r| - 1;
    while i > 0 && r[i] <= 0
      invariant 0 <= i == |r| - 1
      invariant Trimmed(r) == Trimmed(leveled)
    {
      r := r[..i];
      i := i - 1;
    }
  }

  /**
   * What one added move does to its destination's requests: the array never grows and
   * keeps index 0; it ends in a positive entry unless only index 0 is left; the entries
   * before the arrival turn drop by exactly `ships`; the arrival entry drops by `2*ships`
   * when ships > 0 (by `ships` otherwise); after it, the entries up to the first one already
   * at most `req[turns] - 3*ships` are capped at that value and the rest are unchanged.
   */
  lemma AfterMoveEffect(req: seq<int>, turns: nat, ships: int)
    requires turns < |req|
    ensures var r := AfterMove(req, turns, ships);
      && 1 <= |r| <= |req|
      && (|r| == 1 || r[|r| - 1] > 0)
      && (forall i :: 0 <= i < turns && i < |r| ==> r[i] == req[i] - ships)
      && (turns < |r| ==> r[turns] == req[turns] - (if ships > 0 then 2 * ships else ships))
      && (ships <= 0 ==> forall i :: turns < i < |r| ==> r[i] == req[i])
      && (ships > 0 ==>
            var k := LevelStop(req, req[turns] - 3 * ships, turns + 1);
            && (forall i :: turns < i < k && i < |r| ==> r[i] == req[turns] - 3 * ships)
            && (forall i :: k <= i < |r| ==> r[i] == req[i]))
  {
    var l := Leveled(Decreased(req, turns, ships), turns, ships);
    LeveledEffect(req, turns, ships);
    var r := Trimmed(l);
    assert AfterMove(req, turns, ships) == r;
    assert forall i :: 0 <= i < |r| ==> r[i] == l[i];
  }

  /** The first two loops of tryAddMove, before any entry is popped. */
  lemma LeveledEffect(req: seq<int>, turns: nat, ships: int)
    requires turns < |req|
    ensures var l := Leveled(Decreased(req, turns, ships), turns, ships);
      && |l| == |req|
      && (forall i :: 0 <= i < turns ==> l[i] == req[i] - ships)
      && l[turns] == req[turns] - (if ships > 0 then 2 * ships else ships)
      && (ships <= 0 ==> forall i :: turns < i < |l| ==> l[i] == req[i])
      && (ships > 0 ==>
            var k := LevelStop(req, req[turns] - 3 * ships, turns + 1);
            && (forall i :: turns < i < k ==> l[i] == req[turns] - 3 * ships)
            && (forall i :: k <= i < |l| ==> l[i] == req[i]))
  {
    var d := Decreased(req, turns, ships);
    if ships > 0 {
      LevelStopAgrees(d, req, d[turns] - 2 * ships, turns + 1);
    }
  }

  /** The search for the end of the capped block only reads the entries it passes. */
  lemma LevelStopAgrees(a: seq<int>, b: seq<int>, cap: int, j: nat)
    requires j <= |a| == |b|
    requires forall i :: j <= i < |a| ==> a[i] == b[i]
    ensures LevelStop(a, cap, j) == LevelStop(b, cap, j)
  {
  }

  /** Whatever was popped asked for nothing: every entry of the lowered array past the new end is <= 0. */
  lemma PoppedAskedNothing(req: seq<int>, turns: nat, ships: int)
    requires turns < |req|
    ensures var r := AfterMove(req, turns, ships);
      var l := Leveled(Decreased(req, turns, ships), turns, ships);
      r == l[..|r|] && forall i :: |r| <= i < |l| ==> l[i] <= 0
  {
  }

  /** A move arriving at or after the end of the array leaves it untouched. */
  lemma LateMoveLeavesRequests(req: seq<int>, turns: nat, ships: int)
    requires |req| <= turns
    ensures AfterMove(req, turns, ships) == req
  {
  }

  /** Adding moves in two batches lowers the requests as adding them all in one batch does. */
  lemma {:induction false} ApplyMovesAppend(active: seq<seq<int>>, xs: seq<Move>, ys: seq<Move>)
    requires forall m :: m in xs + ys ==> m.to < |active|
    ensures ApplyMoves(active, xs + ys) == ApplyMoves(ApplyMoves(active, xs), ys)
  {
    if ys == [] {
      assert xs + ys == xs;
    } else {
      var init := ys[..|ys| - 1];
      var m := ys[|ys| - 1];
      assert ys == init + [m];
      assert xs + ys == (xs + init) + [m];
      ApplyMovesAppend(active, xs, init);
      ApplyMovesSnoc(active, xs + init, m);
      ApplyMovesSnoc(ApplyMoves(active, xs), init, m);
    }
  }

  /** One move more is one more lowering step. */
  lemma ApplyMovesSnoc(active: seq<seq<int>>, ms: seq<Move>, m: Move)
    requires forall x :: x in ms + [m] ==> x.to < |active|
    ensures ApplyMoves(active, ms + [m]) == Lower(ApplyMoves(active, ms), m)
  {
    assert (ms + [m])[..|ms|] == ms;
  }
}
