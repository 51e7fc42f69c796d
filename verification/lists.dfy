/** The array methods the screens use to update their lists in place of
    the old ones: `filter` to delete, `map` with a conditional to change
    the matching elements, and `find`. */
module Lists {

  /** `xs.filter(keep)`. */
  function Filter<T>(xs: seq<T>, keep: T -> bool): (r: seq<T>)
    ensures |r| <= |xs|
    ensures forall i :: 0 <= i < |r| ==> keep(r[i])
  {
    if xs == [] then []
    else Filter(xs[..|xs| - 1], keep) + if keep(xs[|xs| - 1]) then [xs[|xs| - 1]] else []
  }

  /** The filter keeps order: it distributes over concatenation. */
  lemma {:induction false} FilterAppend<T>(a: seq<T>, b: seq<T>, keep: T -> bool)
    ensures Filter(a + b, keep) == Filter(a, keep) + Filter(b, keep)
    decreases |b|
  {
    if b == [] {
      assert a + b == a;
    } else {
      var b' := b[..|b| - 1];
      assert (a + b)[..|a + b| - 1] == a + b';
      assert (a + b)[|a + b| - 1] == b[|b| - 1];
      FilterAppend(a, b', keep);
    }
  }

  /** Exactly the kept elements stay, each as often as before. */
  lemma {:induction false} FilterCounts<T>(xs: seq<T>, keep: T -> bool, x: T)
    ensures multiset(Filter(xs, keep))[x] == if keep(x) then multiset(xs)[x] else 0
  {
    if xs != [] {
      var p := xs[..|xs| - 1];
      assert xs == p + [xs[|xs| - 1]];
      FilterCounts(p, keep, x);
    }
  }

  /** The filtered list holds exactly the elements that pass. */
  lemma FilterMembers<T>(xs: seq<T>, keep: T -> bool)
    ensures forall x :: x in Filter(xs, keep) <==> x in xs && keep(x)
  {
    forall x
      ensures x in Filter(xs, keep) <==> x in xs && keep(x)
    {
      FilterCounts(xs, keep, x);
    }
  }

  /** Nothing is removed when every element is kept. */
  lemma {:induction false} FilterKeepsAll<T>(xs: seq<T>, keep: T -> bool)
    requires forall i :: 0 <= i < |xs| ==> keep(xs[i])
    ensures Filter(xs, keep) == xs
  {
    if xs != [] {
      FilterKeepsAll(xs[..|xs| - 1], keep);
    }
  }

  /** `xs.map(x => pick(x) ? change(x) : x)`. */
  function MapWhere<T>(xs: seq<T>, pick: T -> bool, change: T -> T): (r: seq<T>)
    ensures |r| == |xs|
    ensures forall i :: 0 <= i < |xs| && !pick(xs[i]) ==> r[i] == xs[i]
    ensures forall i :: 0 <= i < |xs| && pick(xs[i]) ==> r[i] == change(xs[i])
  {
    seq(|xs|, i requires 0 <= i < |xs| => if pick(xs[i]) then change(xs[i]) else xs[i])
  }

  /** `xs.findIndex(pick)`, with `|xs|` for "not found". */
  function FirstWhere<T>(xs: seq<T>, pick: T -> bool): (k: nat)
    ensures k <= |xs|
    ensures k < |xs| ==> pick(xs[k])
    ensures forall j :: 0 <= j < k ==> !pick(xs[j])
  {
    if xs == [] then 0
    else if pick(xs[0]) then 0
    else
      assert forall j :: 1 <= j < |xs| ==> xs[j] == xs[1..][j - 1];
      1 + FirstWhere(xs[1..], pick)
  }
}
