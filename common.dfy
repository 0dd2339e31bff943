/** Shared vocabulary: optional values, store identities and the sequence
    operations (Array.prototype.filter and slice(0, n)) the pages use. */
module Common {

  /** A field that may be absent (undefined or null in the source). */
  datatype Option<T> = None | Some(value: T) {
    /** `x || d` for a field that is either absent or holds a value. */
    function GetOr(default: T): T {
      if Some? then value else default
    }
  }

  /** Calendar date as the ISO "yyyy-mm-dd" text the entity API stores. */
  type Date = string

  /** Identity the entity API assigns to a created record. */
  type Id = string

  /** A record as the entity API returns it: its identity and its fields. */
  datatype Entity<T> = Entity(id: Id, data: T)

  /** `xs.filter(p)`: the elements of xs that satisfy p, in their order. */
  function Filter<T>(xs: seq<T>, p: T -> bool): (r: seq<T>)
    ensures |r| <= |xs|
    ensures forall i :: 0 <= i < |r| ==> r[i] in xs && p(r[i])
    ensures forall i :: 0 <= i < |xs| && p(xs[i]) ==> xs[i] in r
    ensures (forall i :: 0 <= i < |xs| ==> p(xs[i])) ==> r == xs
  {
    if xs == [] then []
    else if p(xs[0]) then [xs[0]] + Filter(xs[1..], p)
    else Filter(xs[1..], p)
  }

  /** `xs.map(f)`: f applied to each element, in order. */
  function Map<T, U>(xs: seq<T>, f: T -> U): (r: seq<U>)
    ensures |r| == |xs|
    ensures forall i :: 0 <= i < |xs| ==> r[i] == f(xs[i])
  {
    if xs == [] then [] else [f(xs[0])] + Map(xs[1..], f)
  }

  /** Mapping a filter, one element at a time: the head contributes its image
      exactly when it passes the test. */
  lemma MapFilterCons<T, U>(xs: seq<T>, p: T -> bool, f: T -> U)
    requires xs != []
    ensures Map(Filter(xs, p), f) == (if p(xs[0]) then [f(xs[0])] else []) + Map(Filter(xs[1..], p), f)
  {
    if p(xs[0]) {
      var r := Filter(xs[1..], p);
      assert Filter(xs, p) == [xs[0]] + r;
      assert ([xs[0]] + r)[1..] == r;
    }
  }

  /** `xs.slice(0, n)`: the first n elements, or all of them when there are fewer. */
  function Take<T>(xs: seq<T>, n: nat): (r: seq<T>)
    ensures |r| == if n <= |xs| then n else |xs|
    ensures r == xs[..|r|]
  {
    if n <= |xs| then xs[..n] else xs
  }

  /** Filtering distributes over concatenation: the result keeps the input's order. */
  lemma {:induction false} FilterAppend<T>(xs: seq<T>, ys: seq<T>, p: T -> bool)
    ensures Filter(xs + ys, p) == Filter(xs, p) + Filter(ys, p)
  {
    if xs == [] {
      assert xs + ys == ys;
    } else {
      assert (xs + ys)[1..] == xs[1..] + ys;
      FilterAppend(xs[1..], ys, p);
    }
  }

  /** Two filters whose predicates never hold together select at most |xs| elements in all. */
  lemma {:induction false} FilterDisjoint<T>(xs: seq<T>, p: T -> bool, q: T -> bool)
    requires forall x :: !(p(x) && q(x))
    ensures |Filter(xs, p)| + |Filter(xs, q)| <= |xs|
  {
    if xs != [] {
      FilterDisjoint(xs[1..], p, q);
    }
  }

  /** A filter by a stronger predicate selects no more elements than one by a weaker predicate. */
  lemma {:induction false} FilterMonotone<T>(xs: seq<T>, p: T -> bool, q: T -> bool)
    requires forall x :: p(x) ==> q(x)
    ensures |Filter(xs, p)| <= |Filter(xs, q)|
  {
    if xs != [] {
      FilterMonotone(xs[1..], p, q);
    }
  }

  /** Filters by predicates that agree on every element give the same result. */
  lemma {:induction false} FilterExtensional<T>(xs: seq<T>, p: T -> bool, q: T -> bool)
    requires forall i :: 0 <= i < |xs| ==> p(xs[i]) == q(xs[i])
    ensures Filter(xs, p) == Filter(xs, q)
  {
    if xs != [] {
      FilterExtensional(xs[1..], p, q);
    }
  }

  /** Nothing passes the test, so nothing is kept. */
  lemma {:induction false} FilterNone<T>(xs: seq<T>, p: T -> bool)
    requires forall i :: 0 <= i < |xs| ==> !p(xs[i])
    ensures Filter(xs, p) == []
  {
    if xs != [] {
      FilterNone(xs[1..], p);
    }
  }

  /** The first element of a filter is the first element of the input that satisfies the predicate. */
  lemma {:induction false} FilterHead<T>(xs: seq<T>, p: T -> bool)
    requires Filter(xs, p) != []
    ensures exists k :: 0 <= k < |xs| && xs[k] == Filter(xs, p)[0] && p(xs[k])
                        && forall j :: 0 <= j < k ==> !p(xs[j])
  {
    if p(xs[0]) {
      assert xs[0] == Filter(xs, p)[0];
    } else {
      FilterHead(xs[1..], p);
      var k :| 0 <= k < |xs[1..]| && xs[1..][k] == Filter(xs[1..], p)[0] && p(xs[1..][k])
                && forall j :: 0 <= j < k ==> !p(xs[1..][j]);
      assert xs[k + 1] == Filter(xs, p)[0];
      forall j | 0 <= j < k + 1 ensures !p(xs[j]) {
        if j > 0 { assert xs[j] == xs[1..][j - 1]; }
      }
    }
  }
}
