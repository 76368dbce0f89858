/** The two collection operations the shaping code is built from: Swift's
    `flatMap { $0 }` on the per-handler result lists and `compactMap` with a
    closure that returns `nil` for a rejected record. */
module Sequences {
  import opened Values

  /** `xss.flatMap { $0 }`: the lists concatenated in the order given. */
  function Flatten<T>(xss: seq<seq<T>>): (r: seq<T>)
    ensures |r| == TotalLength(xss)
  {
    if xss == [] then [] else xss[0] + Flatten(xss[1..])
  }

  /** Total number of elements of all the lists. */
  function TotalLength<T>(xss: seq<seq<T>>): nat
  {
    if xss == [] then 0 else |xss[0]| + TotalLength(xss[1..])
  }

  /** The list of one optional element. */
  function Keep<B>(o: Option<B>): seq<B>
  {
    match o
    case Some(b) => [b]
    case None => []
  }

  /** `s.compactMap(f)`: the present results of `f`, in the order of `s`. */
  function CompactMap<A, B>(s: seq<A>, f: A -> Option<B>): (r: seq<B>)
    ensures |r| <= |s|
  {
    if s == [] then [] else Keep(f(s[0])) + CompactMap(s[1..], f)
  }

  /** The positions `from`, `from + 1`, ... of `s` at which `f` gives a value,
      in increasing order: a reference definition of what `CompactMap` keeps. */
  function KeptIndicesFrom<A, B>(s: seq<A>, f: A -> Option<B>, from: nat): seq<nat>
    requires from <= |s|
    decreases |s| - from
  {
    if from == |s| then []
    else (if f(s[from]).Some? then [from] else []) + KeptIndicesFrom(s, f, from + 1)
  }

  function KeptIndices<A, B>(s: seq<A>, f: A -> Option<B>): seq<nat>
  {
    KeptIndicesFrom(s, f, 0)
  }

  /** Flattening distributes over concatenation of the outer list. */
  lemma {:induction false} FlattenAppend<T>(a: seq<seq<T>>, b: seq<seq<T>>)
    ensures Flatten(a + b) == Flatten(a) + Flatten(b)
  {
    if a == [] {
      assert a + b == b;
    } else {
      assert (a + b)[1..] == a[1..] + b;
      FlattenAppend(a[1..], b);
    }
  }

  /** `compactMap` distributes over concatenation: what is kept from one part
      does not depend on the other part. */
  lemma {:induction false} CompactMapAppend<A, B>(a: seq<A>, b: seq<A>, f: A -> Option<B>)
    ensures CompactMap(a + b, f) == CompactMap(a, f) + CompactMap(b, f)
  {
    if a == [] {
      assert a + b == b;
    } else {
      assert (a + b)[1..] == a[1..] + b;
      CompactMapAppend(a[1..], b, f);
    }
  }

  /** The suffix form of `CompactMapKeepsExactly`, proved by induction on the
      number of positions left. */
  lemma {:induction false} CompactMapKeepsExactlyFrom<A, B>(s: seq<A>, f: A -> Option<B>, from: nat)
    requires from <= |s|
    ensures var r := CompactMap(s[from..], f);
            var ix := KeptIndicesFrom(s, f, from);
            && |r| == |ix|
            && (forall j :: 0 <= j < |ix| ==> from <= ix[j] < |s| && f(s[ix[j]]) == Some(r[j]))
            && (forall j, k :: 0 <= j < k < |ix| ==> ix[j] < ix[k])
            && (forall i :: from <= i < |s| && f(s[i]).Some? ==> i in ix)
    decreases |s| - from
  {
    if from < |s| {
      CompactMapKeepsExactlyFrom(s, f, from + 1);
      assert s[from..][1..] == s[from + 1..];
      assert s[from..][0] == s[from];
    }
  }

  /** What `CompactMap` returns, stated against `KeptIndices`: its result is,
      element by element, the values of `f` at the kept positions; those
      positions increase (the order of the input is kept), and every position
      at which `f` gives a value is among them (nothing accepted is dropped). */
  lemma CompactMapKeepsExactly<A, B>(s: seq<A>, f: A -> Option<B>)
    ensures var r := CompactMap(s, f);
            var ix := KeptIndices(s, f);
            && |r| == |ix|
            && (forall j :: 0 <= j < |ix| ==> ix[j] < |s| && f(s[ix[j]]) == Some(r[j]))
            && (forall j, k :: 0 <= j < k < |ix| ==> ix[j] < ix[k])
            && (forall i :: 0 <= i < |s| && f(s[i]).Some? ==> i in ix)
  {
    CompactMapKeepsExactlyFrom(s, f, 0);
    assert s[0..] == s;
  }

  /** Every element of the result is the value `f` gives for some element of
      the input; in particular a property every such value has holds of the
      whole result. */
  lemma {:induction false} CompactMapElement<A, B>(s: seq<A>, f: A -> Option<B>, j: nat)
    requires j < |CompactMap(s, f)|
    ensures exists i :: 0 <= i < |s| && f(s[i]) == Some(CompactMap(s, f)[j])
  {
    CompactMapKeepsExactly(s, f);
    var ix := KeptIndices(s, f);
    assert f(s[ix[j]]) == Some(CompactMap(s, f)[j]);
  }

  /** A property that every value of `f` has holds of every element of
      `CompactMap(s, f)`. */
  lemma {:induction false} CompactMapAll<A, B>(s: seq<A>, f: A -> Option<B>, p: B -> bool)
    requires forall x :: f(x).Some? ==> p(f(x).value)
    ensures forall y :: y in CompactMap(s, f) ==> p(y)
  {
    if s != [] {
      CompactMapAll(s[1..], f, p);
    }
  }
}
