/** The two list shapes the integration's loops share: the first element that
    satisfies a test (a `for ... : if ...: return x` loop followed by
    `return None`), and the elements that pass a test, mapped, in order (a
    `for` loop that `append`s). */
module Seqs {
  import opened Wrappers

  function FirstWhere<T>(xs: seq<T>, test: T -> bool): Option<T>
  {
    if xs == [] then None
    else if test(xs[0]) then Some(xs[0])
    else FirstWhere(xs[1..], test)
  }

  /** The first match is an element that passes the test and follows only
      elements that fail it; there is none exactly when no element passes. */
  lemma {:induction false} FirstWhereSpec<T>(xs: seq<T>, test: T -> bool)
    ensures FirstWhere(xs, test).None? <==> forall i :: 0 <= i < |xs| ==> !test(xs[i])
    ensures FirstWhere(xs, test).Some? ==>
      exists i :: 0 <= i < |xs| && xs[i] == FirstWhere(xs, test).value && test(xs[i]) &&
        forall j :: 0 <= j < i ==> !test(xs[j])
  {
    if xs != [] && !test(xs[0]) {
      FirstWhereSpec(xs[1..], test);
      if FirstWhere(xs[1..], test).Some? {
        var i :| 0 <= i < |xs| - 1 && xs[1..][i] == FirstWhere(xs[1..], test).value && test(xs[1..][i]) &&
          forall j :: 0 <= j < i ==> !test(xs[1..][j]);
        assert xs[i + 1] == FirstWhere(xs, test).value;
        forall j | 0 <= j < i + 1 ensures !test(xs[j]) {
          if j > 0 { assert xs[j] == xs[1..][j - 1]; }
        }
      }
      if forall i :: 0 <= i < |xs| - 1 ==> !test(xs[1..][i]) {
        forall i | 0 <= i < |xs| ensures !test(xs[i]) {
          if i > 0 { assert xs[i] == xs[1..][i - 1]; }
        }
      }
    }
  }

  /** The loop form of `FirstWhere`. */
  method FindFirst<T>(xs: seq<T>, test: T -> bool) returns (r: Option<T>)
    ensures r == FirstWhere(xs, test)
  {
    var i := 0;
    while i < |xs|
      invariant 0 <= i <= |xs|
      invariant FirstWhere(xs, test) == FirstWhere(xs[i..], test)
    {
      if test(xs[i]) {
        return Some(xs[i]);
      }
      assert xs[i..][1..] == xs[i + 1..];
      i := i + 1;
    }
    return None;
  }

  function FilterMap<T, U>(xs: seq<T>, keep: T -> bool, f: T -> U): seq<U>
  {
    if xs == [] then []
    else FilterMap(xs[..|xs| - 1], keep, f) + (if keep(xs[|xs| - 1]) then [f(xs[|xs| - 1])] else [])
  }

  lemma {:induction false} FilterMapConcat<T, U>(a: seq<T>, b: seq<T>, keep: T -> bool, f: T -> U)
    ensures FilterMap(a + b, keep, f) == FilterMap(a, keep, f) + FilterMap(b, keep, f)
  {
    if b != [] {
      assert (a + b)[..|a + b| - 1] == a + b[..|b| - 1];
      FilterMapConcat(a, b[..|b| - 1], keep, f);
    } else {
      assert a + b == a;
    }
  }

  /** Every element that passes contributes its image, and every produced
      value is the image of an element that passes. */
  lemma {:induction false} FilterMapSpec<T, U>(xs: seq<T>, keep: T -> bool, f: T -> U)
    ensures forall i :: 0 <= i < |xs| && keep(xs[i]) ==> f(xs[i]) in FilterMap(xs, keep, f)
    ensures forall y :: y in FilterMap(xs, keep, f) ==> exists i :: 0 <= i < |xs| && keep(xs[i]) && f(xs[i]) == y
    ensures |FilterMap(xs, keep, f)| <= |xs|
  {
    if xs != [] {
      var init := xs[..|xs| - 1];
      FilterMapSpec(init, keep, f);
      forall i | 0 <= i < |xs| && keep(xs[i]) ensures f(xs[i]) in FilterMap(xs, keep, f) {
        if i < |xs| - 1 { assert xs[i] == init[i]; }
      }
      forall y | y in FilterMap(xs, keep, f) ensures exists i :: 0 <= i < |xs| && keep(xs[i]) && f(xs[i]) == y {
        if y in FilterMap(init, keep, f) {
          var i :| 0 <= i < |init| && keep(init[i]) && f(init[i]) == y;
          assert xs[i] == init[i];
        } else {
          assert keep(xs[|xs| - 1]) && f(xs[|xs| - 1]) == y;
        }
      }
    }
  }

  /** The loop form of `FilterMap`: an `entities.append(...)` loop. */
  method FilterMapLoop<T, U>(xs: seq<T>, keep: T -> bool, f: T -> U) returns (out: seq<U>)
    ensures out == FilterMap(xs, keep, f)
  {
    out := [];
    var i := 0;
    while i < |xs|
      invariant 0 <= i <= |xs|
      invariant out == FilterMap(xs[..i], keep, f)
    {
      assert xs[..i + 1][..i] == xs[..i];
      if keep(xs[i]) {
        out := out + [f(xs[i])];
      }
      i := i + 1;
    }
    assert xs[..|xs|] == xs;
  }
}
