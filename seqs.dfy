/**
 * The shape shared by every loop of both scripts that walks a list and
 * reports as it goes: the events of the whole list are the events of each
 * item, concatenated in order.
 */
module Seqs {

  /** The concatenation of `f(x)` over the items `x` of `xs`, in order. */
  function Concat<T, U>(xs: seq<T>, f: T -> seq<U>): seq<U>
  {
    if xs == [] then [] else Concat(xs[..|xs| - 1], f) + f(xs[|xs| - 1])
  }

  /** The events of a list split in two are the events of each half: one item cannot disturb another. */
  lemma {:induction false} ConcatAppend<T, U>(a: seq<T>, b: seq<T>, f: T -> seq<U>)
    ensures Concat(a + b, f) == Concat(a, f) + Concat(b, f)
  {
    if b == [] {
      assert a + b == a;
    } else {
      var c, init := a + b, b[..|b| - 1];
      assert c[..|c| - 1] == a + init && c[|c| - 1] == b[|b| - 1];
      ConcatAppend(a, init, f);
    }
  }

  /** Item `j` contributes exactly `f(xs[j])`, between the events of the items before and after it. */
  lemma ConcatSplit<T, U>(xs: seq<T>, j: nat, f: T -> seq<U>)
    requires j < |xs|
    ensures Concat(xs, f) == Concat(xs[..j], f) + f(xs[j]) + Concat(xs[j + 1..], f)
  {
    assert xs == xs[..j + 1] + xs[j + 1..];
    ConcatAppend(xs[..j + 1], xs[j + 1..], f);
    ConcatStep(xs, j, f);
  }

  /** An event occurs in the whole iff it occurs in the events of some item. */
  lemma {:induction false} ConcatMember<T, U>(xs: seq<T>, f: T -> seq<U>, u: U)
    ensures u in Concat(xs, f) <==> exists i :: 0 <= i < |xs| && u in f(xs[i])
  {
    if xs != [] {
      var init := xs[..|xs| - 1];
      ConcatMember(init, f, u);
      if exists i :: 0 <= i < |xs| && u in f(xs[i]) {
        var i :| 0 <= i < |xs| && u in f(xs[i]);
        if i < |init| {
          assert init[i] == xs[i];
        }
      }
      if u in Concat(init, f) {
        var i :| 0 <= i < |init| && u in f(init[i]);
        assert xs[i] == init[i];
      }
    }
  }

  /** A property every item's events have holds of every event of the whole. */
  lemma ConcatAll<T, U>(xs: seq<T>, f: T -> seq<U>, P: U -> bool)
    requires forall i, u :: 0 <= i < |xs| && u in f(xs[i]) ==> P(u)
    ensures forall u :: u in Concat(xs, f) ==> P(u)
  {
    forall u | u in Concat(xs, f) ensures P(u) {
      ConcatMember(xs, f, u);
    }
  }

  /** One more step of a loop that appends the events of each item. */
  lemma ConcatStep<T, U>(xs: seq<T>, i: nat, f: T -> seq<U>)
    requires i < |xs|
    ensures Concat(xs[..i + 1], f) == Concat(xs[..i], f) + f(xs[i])
  {
    assert xs[..i + 1][..i] == xs[..i];
  }

  /** The events of a list are those of its first item followed by those of the rest. */
  lemma ConcatCons<T, U>(xs: seq<T>, f: T -> seq<U>)
    requires xs != []
    ensures Concat(xs, f) == f(xs[0]) + Concat(xs[1..], f)
  {
    assert xs == [xs[0]] + xs[1..];
    ConcatAppend([xs[0]], xs[1..], f);
    assert [xs[0]][..0] == [];
  }

  /** The items of `xs` that satisfy `p`, in order. */
  function Filter<T>(xs: seq<T>, p: T -> bool): seq<T>
  {
    Concat(xs, x => if p(x) then [x] else [])
  }

  /** An item is kept iff it is in the list and satisfies the test. */
  lemma FilterMember<T>(xs: seq<T>, p: T -> bool, x: T)
    ensures x in Filter(xs, p) <==> x in xs && p(x)
  {
    ConcatMember(xs, y => if p(y) then [y] else [], x);
    if x in xs && p(x) {
      var i :| 0 <= i < |xs| && xs[i] == x;
    }
  }

  /** Filtering a list split in two filters each half. */
  lemma FilterAppend<T>(a: seq<T>, b: seq<T>, p: T -> bool)
    ensures Filter(a + b, p) == Filter(a, p) + Filter(b, p)
  {
    ConcatAppend(a, b, x => if p(x) then [x] else []);
  }

  /** One more step of a loop that appends the items passing the test. */
  lemma FilterStep<T>(xs: seq<T>, i: nat, p: T -> bool)
    requires i < |xs|
    ensures Filter(xs[..i + 1], p) == Filter(xs[..i], p) + (if p(xs[i]) then [xs[i]] else [])
  {
    ConcatStep(xs, i, x => if p(x) then [x] else []);
  }

  /** Filtering the first item, then the rest. */
  lemma FilterCons<T>(xs: seq<T>, p: T -> bool)
    requires xs != []
    ensures Filter(xs, p) == (if p(xs[0]) then [xs[0]] else []) + Filter(xs[1..], p)
  {
    ConcatCons(xs, x => if p(x) then [x] else []);
  }

  /** A list all of whose items pass the test is kept whole. */
  lemma {:induction false} FilterKeepsAll<T>(xs: seq<T>, p: T -> bool)
    requires forall i :: 0 <= i < |xs| ==> p(xs[i])
    ensures Filter(xs, p) == xs
  {
    if xs != [] {
      FilterKeepsAll(xs[..|xs| - 1], p);
      assert xs == xs[..|xs| - 1] + [xs[|xs| - 1]];
    }
  }

  /** Filtering by `p`, then by `q`, is filtering by any `r` that holds exactly when both do. */
  lemma {:induction false} FilterTwice<T>(xs: seq<T>, p: T -> bool, q: T -> bool, r: T -> bool)
    requires forall x :: r(x) == (p(x) && q(x))
    ensures Filter(Filter(xs, p), q) == Filter(xs, r)
  {
    if xs != [] {
      var init, last := xs[..|xs| - 1], xs[|xs| - 1];
      FilterTwice(init, p, q, r);
      var kept := if p(last) then [last] else [];
      FilterAppend(Filter(init, p), kept, q);
      if p(last) {
        assert [last][..0] == [];
      }
    }
  }
}
