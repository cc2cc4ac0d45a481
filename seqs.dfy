/** Sequence helpers: element-wise mapping (the source's append-in-a-loop pattern) and
    sing's `common.Uniq`, and the last-write-wins value of an overwriting loop. */
module Seqs {
  import opened Wrappers

  /** `f` applied to every element, in order. */
  function Map<A, B>(xs: seq<A>, f: A -> B): (ys: seq<B>)
    ensures |ys| == |xs|
    ensures forall i :: 0 <= i < |xs| ==> ys[i] == f(xs[i])
  {
    seq(|xs|, i requires 0 <= i < |xs| => f(xs[i]))
  }

  /** The loop `for _, x := range xs { ys = append(ys, f(x)) }`. */
  method MapAll<A, B>(xs: seq<A>, f: A -> B) returns (ys: seq<B>)
    ensures ys == Map(xs, f)
  {
    ys := [];
    var i := 0;
    while i < |xs|
      invariant 0 <= i <= |xs|
      invariant |ys| == i
      invariant forall j :: 0 <= j < i ==> ys[j] == f(xs[j])
    {
      ys := ys + [f(xs[i])];
      i := i + 1;
    }
  }

  /** The value a loop leaves that overwrites its state with every element `sel` picks and
      leaves it alone for the others: the pick of the last picked element, or `init`. */
  function LastPicked<E, T>(xs: seq<E>, sel: E -> Option<T>, init: T): (r: T)
    ensures (forall i :: 0 <= i < |xs| ==> sel(xs[i]).None?) ==> r == init
    ensures (exists i :: 0 <= i < |xs| && sel(xs[i]).Some?) ==>
      exists i :: 0 <= i < |xs| && sel(xs[i]) == Some(r) &&
        forall j :: i < j < |xs| ==> sel(xs[j]).None?
    decreases |xs|
  {
    if |xs| == 0 then init
    else
      match sel(xs[|xs| - 1]) {
        case Some(v) => v
        case None =>
          var prefix := xs[..|xs| - 1];
          assert forall i :: 0 <= i < |prefix| ==> prefix[i] == xs[i];
          LastPicked(prefix, sel, init)
      }
  }

  /** One more element: the loop's state after it is its pick, or the state before. */
  lemma LastPickedSnoc<E, T>(xs: seq<E>, x: E, sel: E -> Option<T>, init: T)
    ensures LastPicked(xs + [x], sel, init) == if sel(x).Some? then sel(x).value else LastPicked(xs, sel, init)
  {
    assert (xs + [x])[..|xs|] == xs;
  }

  predicate NoDuplicates<T(==)>(s: seq<T>) {
    forall i, j :: 0 <= i < j < |s| ==> s[i] != s[j]
  }

  /** `common.Uniq`: keeps the first occurrence of every element, in order. */
  function Uniq<T(==)>(s: seq<T>): seq<T>
    decreases |s|
  {
    if s == [] then []
    else
      var u := Uniq(s[..|s| - 1]);
      if s[|s| - 1] in u then u else u + [s[|s| - 1]]
  }

  /** Uniq drops exactly the repeated elements: the result has no duplicate and holds the
      same elements as its input. */
  lemma {:induction false} UniqSpec<T>(s: seq<T>)
    ensures NoDuplicates(Uniq(s))
    ensures forall x :: x in Uniq(s) <==> x in s
    decreases |s|
  {
    if s != [] {
      var init := s[..|s| - 1];
      UniqSpec(init);
      assert s == init + [s[|s| - 1]];
    }
  }

  /** Uniq keeps an already duplicate-free sequence as it is. */
  lemma {:induction false} UniqOfNoDuplicates<T>(s: seq<T>)
    requires NoDuplicates(s)
    ensures Uniq(s) == s
    decreases |s|
  {
    if s != [] {
      var init := s[..|s| - 1];
      assert NoDuplicates(init);
      UniqOfNoDuplicates(init);
      assert s[|s| - 1] !in init;
      assert s == init + [s[|s| - 1]];
    }
  }
}
