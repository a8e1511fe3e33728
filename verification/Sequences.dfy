/** Facts about sequences used throughout the model. */
module Sequences {
  import opened Wrappers

  lemma Assoc<T>(x: seq<T>, y: seq<T>, z: seq<T>)
    ensures x + y + z == x + (y + z)
  {
  }

  lemma PrefixSlice<T>(xs: seq<T>, more: seq<T>, from: nat, to: nat)
    requires xs <= more && from <= to <= |xs|
    ensures more[from..to] == xs[from..to]
  {
  }

  function Without<T>(xs: seq<T>, i: nat): seq<T>
    requires i < |xs|
  {
    xs[..i] + xs[i + 1..]
  }

  function InsertAt<T>(xs: seq<T>, i: nat, x: T): seq<T>
    requires i <= |xs|
  {
    xs[..i] + [x] + xs[i..]
  }

  /** Putting a removed element back where it was restores the sequence. */
  lemma InsertUndoesRemove<T>(xs: seq<T>, i: nat)
    requires i < |xs|
    ensures InsertAt(Without(xs, i), i, xs[i]) == xs
  {
  }

  /** The elements that satisfy `p`, in order. */
  function Filter<T>(p: T -> bool, xs: seq<T>): seq<T>
    decreases |xs|
  {
    if xs == [] then []
    else
      Filter(p, xs[..|xs| - 1]) + if p(xs[|xs| - 1]) then [xs[|xs| - 1]] else []
  }

  lemma FilterNothing<T>(p: T -> bool)
    ensures Filter(p, []) == []
  {
  }

  lemma {:induction false} FilterMembers<T>(p: T -> bool, xs: seq<T>, x: T)
    ensures x in Filter(p, xs) <==> x in xs && p(x)
    decreases |xs|
  {
    if xs != [] {
      FilterMembers(p, xs[..|xs| - 1], x);
      assert xs == xs[..|xs| - 1] + [xs[|xs| - 1]];
    }
  }

  lemma {:induction false} FilterConcat<T>(p: T -> bool, xs: seq<T>, ys: seq<T>)
    ensures Filter(p, xs + ys) == Filter(p, xs) + Filter(p, ys)
    decreases |ys|
  {
    if ys == [] {
      assert xs + ys == xs;
    } else {
      var front, last, all := ys[..|ys| - 1], ys[|ys| - 1], xs + ys;
      FilterConcat(p, xs, front);
      assert all[..|all| - 1] == xs + front && all[|all| - 1] == last;
      Assoc(Filter(p, xs), Filter(p, front), if p(last) then [last] else []);
    }
  }

  /** Filters that agree on every element give the same sequence. */
  lemma {:induction false} FilterSame<T>(p: T -> bool, q: T -> bool, xs: seq<T>)
    requires forall x :: p(x) <==> q(x)
    ensures Filter(p, xs) == Filter(q, xs)
    decreases |xs|
  {
    if xs != [] {
      FilterSame(p, q, xs[..|xs| - 1]);
    }
  }

  /** The first position whose element satisfies `p`. */
  function IndexWhere<T>(p: T -> bool, xs: seq<T>): (r: Option<nat>)
    ensures match r
            case Some(i) => i < |xs| && p(xs[i]) && forall k :: 0 <= k < i ==> !p(xs[k])
            case None => forall k :: 0 <= k < |xs| ==> !p(xs[k])
    decreases |xs|
  {
    if xs == [] then None
    else
      var front := IndexWhere(p, xs[..|xs| - 1]);
      assert forall k :: 0 <= k < |xs| - 1 ==> xs[..|xs| - 1][k] == xs[k];
      if front.Some? then front
      else if p(xs[|xs| - 1]) then Some(|xs| - 1)
      else None
  }
}
