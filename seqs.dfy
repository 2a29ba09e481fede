/** Array helpers shared by the modules: `slice(0, n)`, `find` and `flat`. */
module Seqs {
  import opened Wrappers

  function Min(a: int, b: int): int { if a <= b then a else b }

  /** `s.slice(0, n)`: the first `n` elements, or all of them when there are fewer. */
  function Take<T>(s: seq<T>, n: nat): (r: seq<T>)
    ensures |r| == Min(n, |s|)
    ensures forall i :: 0 <= i < |r| ==> r[i] == s[i]
  {
    if |s| <= n then s else s[..n]
  }

  /** `s.find(p)`: the first element satisfying `p`, or `None` when there is none. */
  function FindFirst<T(==)>(s: seq<T>, p: T -> bool): (r: Option<T>)
    ensures r.None? <==> forall i :: 0 <= i < |s| ==> !p(s[i])
    ensures r.Some? ==> exists i :: 0 <= i < |s| && s[i] == r.value && p(s[i])
                                  && forall k :: 0 <= k < i ==> !p(s[k])
  {
    if |s| == 0 then None
    else if p(s[0]) then Some(s[0])
    else
      var r := FindFirst(s[1..], p);
      if r.Some? then
        var i :| 0 <= i < |s[1..]| && s[1..][i] == r.value && p(s[1..][i])
                 && forall k :: 0 <= k < i ==> !p(s[1..][k]);
        assert s[i + 1] == r.value;
        assert forall k :: 0 <= k < i + 1 ==> !p(s[k]) by {
          forall k | 0 <= k < i + 1 ensures !p(s[k]) {
            if k > 0 { assert s[k] == s[1..][k - 1]; }
          }
        }
        r
      else
        assert forall i :: 1 <= i < |s| ==> s[i] == s[1..][i - 1];
        r
  }

  /** The element `find` returns is the one at the first position satisfying `p`. */
  lemma {:induction false} FindFirstAt<T>(s: seq<T>, p: T -> bool, i: int)
    requires 0 <= i < |s| && p(s[i])
    requires forall k :: 0 <= k < i ==> !p(s[k])
    ensures FindFirst(s, p) == Some(s[i])
  {
    var r := FindFirst(s, p);
    var j :| 0 <= j < |s| && s[j] == r.value && p(s[j]) && forall k :: 0 <= k < j ==> !p(s[k]);
    assert j == i;
  }

  /** Some element satisfies `p` exactly when an earlier one or the last one does. */
  lemma ExistsSnoc<T>(s: seq<T>, init: seq<T>, p: T -> bool)
    requires |s| > 0 && init == s[..|s| - 1]
    ensures (exists j :: 0 <= j < |s| && p(s[j])) <==> (exists j :: 0 <= j < |init| && p(init[j])) || p(s[|s| - 1])
  {
    if exists j :: 0 <= j < |init| && p(init[j]) {
      var j :| 0 <= j < |init| && p(init[j]);
      assert s[j] == init[j];
    }
    if exists j :: 0 <= j < |s| && p(s[j]) {
      var j :| 0 <= j < |s| && p(s[j]);
      if j < |init| { assert init[j] == s[j]; }
    }
  }

  /** `Promise.all` over settled outcomes: all values in order when every outcome is a
      value, otherwise the error of the first outcome (in list order) that failed. */
  function AllOk<T(==), E(==)>(rs: seq<Result<T, E>>): (r: Result<seq<T>, E>)
    ensures r.Ok? <==> forall i :: 0 <= i < |rs| ==> rs[i].Ok?
    ensures r.Ok? ==> |r.value| == |rs| && forall i :: 0 <= i < |rs| ==> rs[i] == Ok(r.value[i])
    ensures r.Err? ==> exists i :: 0 <= i < |rs| && rs[i] == Err(r.error) && forall k :: 0 <= k < i ==> rs[k].Ok?
  {
    if |rs| == 0 then Ok([])
    else
      var rest := rs[1..];
      assert forall i :: 1 <= i < |rs| ==> rs[i] == rest[i - 1];
      match rs[0]
      case Err(e) => Err(e)
      case Ok(t) =>
        match AllOk(rest)
        case Err(e) =>
          var i :| 0 <= i < |rest| && rest[i] == Err(e) && forall k :: 0 <= k < i ==> rest[k].Ok?;
          assert rs[i + 1] == Err(e);
          Err(e)
        case Ok(ts) => Ok([t] + ts)
  }

  /** `xss.flat()`: the element lists concatenated in order. */
  function Flatten<T>(xss: seq<seq<T>>): (r: seq<T>)
    ensures |xss| > 0 ==> |xss[|xss| - 1]| <= |r| && r[|r| - |xss[|xss| - 1]|..] == xss[|xss| - 1]
    ensures |xss| == 0 ==> r == []
  {
    if |xss| == 0 then [] else Flatten(xss[..|xss| - 1]) + xss[|xss| - 1]
  }

  function SumLengths<T>(xss: seq<seq<T>>): nat
  {
    if |xss| == 0 then 0 else SumLengths(xss[..|xss| - 1]) + |xss[|xss| - 1]|
  }

  /** Flattening keeps every element, in order: the `j`-th element of the `i`-th list
      sits after all elements of the lists before it. */
  lemma {:induction false} FlattenAt<T>(xss: seq<seq<T>>, i: int, j: int)
    requires 0 <= i < |xss| && 0 <= j < |xss[i]|
    ensures |Flatten(xss)| == SumLengths(xss)
    ensures SumLengths(xss[..i]) + j < |Flatten(xss)|
    ensures Flatten(xss)[SumLengths(xss[..i]) + j] == xss[i][j]
  {
    var n := |xss|;
    var init := xss[..n - 1];
    FlattenLength(xss);
    FlattenLength(init);
    if i < n - 1 {
      assert init[..i] == xss[..i];
      FlattenAt(init, i, j);
    } else {
      assert xss[..i] == init;
    }
  }

  lemma {:induction false} FlattenLength<T>(xss: seq<seq<T>>)
    ensures |Flatten(xss)| == SumLengths(xss)
  {
    if |xss| > 0 {
      FlattenLength(xss[..|xss| - 1]);
    }
  }

  /** Empty lists contribute nothing: dropping them leaves the flattening unchanged. */
  lemma {:induction false} FlattenAppendEmpty<T>(xss: seq<seq<T>>)
    ensures Flatten(xss + [[]]) == Flatten(xss)
  {
    assert (xss + [[]])[..|xss|] == xss;
  }

  lemma {:induction false} FlattenAppend<T>(xss: seq<seq<T>>, yss: seq<seq<T>>)
    ensures Flatten(xss + yss) == Flatten(xss) + Flatten(yss)
  {
    if |yss| > 0 {
      var m := |yss|;
      assert (xss + yss)[..|xss + yss| - 1] == xss + yss[..m - 1];
      FlattenAppend(xss, yss[..m - 1]);
    } else {
      assert xss + yss == xss;
    }
  }
}
