/** Lists cut into pieces, and the filter-maps the stages apply to them. */
module Streams {
  import opened Wrappers

  function Concat<T>(parts: seq<seq<T>>): seq<T> {
    if parts == [] then [] else Concat(parts[..|parts| - 1]) + parts[|parts| - 1]
  }

  function FilterMap<A, B>(f: A -> Option<B>, s: seq<A>): (r: seq<B>)
    ensures |r| <= |s|
  {
    if s == [] then []
    else
      var y := f(s[|s| - 1]);
      FilterMap(f, s[..|s| - 1]) + if y.Some? then [y.value] else []
  }

  lemma ConcatOne<T>(parts: seq<seq<T>>, part: seq<T>)
    ensures Concat(parts + [part]) == Concat(parts) + part
  {
    assert (parts + [part])[..|parts|] == parts;
  }

  lemma FilterMapOne<A, B>(f: A -> Option<B>, s: seq<A>, x: A)
    ensures FilterMap(f, s + [x]) == FilterMap(f, s) + if f(x).Some? then [f(x).value] else []
  {
    assert (s + [x])[..|s|] == s;
  }

  lemma {:induction false} FilterMapSplit<A, B>(f: A -> Option<B>, a: seq<A>, b: seq<A>)
    ensures FilterMap(f, a + b) == FilterMap(f, a) + FilterMap(f, b)
  {
    if b == [] {
      assert a + b == a;
    } else {
      FilterMapSplit(f, a, b[..|b| - 1]);
      assert (a + b)[..|a + b| - 1] == a + b[..|b| - 1];
    }
  }

  lemma {:induction false} FilterMapEmpty<A, B>(f: A -> Option<B>, s: seq<A>)
    ensures FilterMap(f, s) == [] <==> forall x :: x in s ==> f(x) == None
  {
    if s != [] {
      var n := |s| - 1;
      FilterMapEmpty(f, s[..n]);
      assert forall x :: x in s <==> x in s[..n] || x == s[n];
    }
  }
}
