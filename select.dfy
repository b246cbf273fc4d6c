/**
 * The selection idioms the bot writes with `for ... return`, `filter` and `reduce`:
 * the first element meeting a test, and the first element with the largest or smallest key
 * (a later element replaces the running choice only when its key is strictly better).
 */
module Select {
  import opened Wrappers

  /** The index of the first true entry, if any. */
  function FirstTrue(bs: seq<bool>): (r: Option<nat>)
    ensures r.Some? ==> r.value < |bs| && bs[r.value]
    ensures r.Some? ==> forall j :: 0 <= j < r.value ==> !bs[j]
    ensures r.None? <==> forall j :: 0 <= j < |bs| ==> !bs[j]
  {
    if |bs| == 0 then None
    else if bs[0] then Some(0)
    else
      match FirstTrue(bs[1..])
      case None => None
      case Some(i) => Some(i + 1)
  }

  /** The index a left-to-right `reduce` keeping the strictly larger key ends with. */
  function FirstMax(xs: seq<int>): (i: nat)
    requires |xs| > 0
    ensures i < |xs|
    ensures forall j :: 0 <= j < |xs| ==> xs[j] <= xs[i]
    ensures forall j :: 0 <= j < i ==> xs[j] < xs[i]
  {
    if |xs| == 1 then 0
    else
      var i := FirstMax(xs[..|xs| - 1]);
      if xs[|xs| - 1] > xs[i] then |xs| - 1 else i
  }

  /** The index a left-to-right `reduce` keeping the strictly smaller key ends with. */
  function FirstMin(xs: seq<int>): (i: nat)
    requires |xs| > 0
    ensures i < |xs|
    ensures forall j :: 0 <= j < |xs| ==> xs[i] <= xs[j]
    ensures forall j :: 0 <= j < i ==> xs[i] < xs[j]
  {
    if |xs| == 1 then 0
    else
      var i := FirstMin(xs[..|xs| - 1]);
      if xs[|xs| - 1] < xs[i] then |xs| - 1 else i
  }

  /** The positions of the true entries, in increasing order (a `filter` over indices). */
  function Indices(bs: seq<bool>): (r: seq<nat>)
    ensures forall i :: i in r <==> 0 <= i < |bs| && bs[i]
    ensures forall i :: 0 <= i < |r| ==> r[i] < |bs|
    ensures |r| == 0 <==> forall i :: 0 <= i < |bs| ==> !bs[i]
    ensures forall i, j :: 0 <= i < j < |r| ==> r[i] < r[j]
  {
    if |bs| == 0 then []
    else
      var r := Indices(bs[..|bs| - 1]);
      if bs[|bs| - 1] then r + [|bs| - 1] else r
  }

  /** `Math.ceil(a * 1/2)`, exact for negative `a` as well. */
  function CeilHalf(a: int): (r: int)
    ensures 2 * r - 1 <= a <= 2 * r
  {
    if a >= 0 then (a + 1) / 2 else -((-a) / 2)
  }
}
