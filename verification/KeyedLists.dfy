/** Lists whose elements carry a key, as the arrays and the `new Map(...)` of the dashboard hook. */
module KeyedLists {
  function Filter<T>(s: seq<T>, keep: T -> bool): seq<T> {
    if s == [] then []
    else Filter(s[..|s| - 1], keep) + if keep(s[|s| - 1]) then [s[|s| - 1]] else []
  }

  /** `s.map((x) => (key(x) === key(v) ? v : x))` */
  function Replace<T>(s: seq<T>, key: T -> string, v: T): seq<T> {
    if s == [] then []
    else Replace(s[..|s| - 1], key, v) + [if key(s[|s| - 1]) == key(v) then v else s[|s| - 1]]
  }

  /** `new Map(s.map((x) => [key(x), x]))`: a later entry replaces an earlier one. */
  function Index<T>(s: seq<T>, key: T -> string): map<string, T> {
    if s == [] then map[] else Index(s[..|s| - 1], key)[key(s[|s| - 1]) := s[|s| - 1]]
  }

  predicate HasKey<T>(s: seq<T>, key: T -> string, k: string) {
    exists i :: 0 <= i < |s| && key(s[i]) == k
  }

  ghost predicate DistinctBy<T>(s: seq<T>, key: T -> string) {
    forall i, j :: 0 <= i < j < |s| ==> key(s[i]) != key(s[j])
  }

  lemma {:induction false} IndexEntries<T(!new)>(s: seq<T>, key: T -> string)
    ensures forall k :: k in Index(s, key) ==> Index(s, key)[k] in s && key(Index(s, key)[k]) == k
    ensures forall i :: 0 <= i < |s| ==> key(s[i]) in Index(s, key)
  {
    if s != [] {
      var init := s[..|s| - 1];
      IndexEntries(init, key);
      forall i | 0 <= i < |s| ensures key(s[i]) in Index(s, key) {
        if i < |s| - 1 { assert s[i] == init[i]; }
      }
    }
  }

  lemma IndexHas<T(!new)>(s: seq<T>, key: T -> string, k: string)
    ensures k in Index(s, key) <==> HasKey(s, key, k)
  {
    IndexEntries(s, key);
  }

  lemma {:induction false} IndexAt<T(!new)>(s: seq<T>, key: T -> string)
    requires DistinctBy(s, key)
    ensures forall i :: 0 <= i < |s| ==> key(s[i]) in Index(s, key) && Index(s, key)[key(s[i])] == s[i]
    ensures |Index(s, key)| == |s|
  {
    if s != [] {
      var init, last := s[..|s| - 1], s[|s| - 1];
      IndexAt(init, key);
      IndexEntries(init, key);
      assert key(last) !in Index(init, key);
      forall i | 0 <= i < |s| ensures key(s[i]) in Index(s, key) && Index(s, key)[key(s[i])] == s[i] {
        if i < |s| - 1 { assert s[i] == init[i]; }
      }
    }
  }

  /** With distinct keys, the index of a list fixes its elements. */
  lemma IndexElements<T(!new)>(s: seq<T>, key: T -> string, x: T)
    requires DistinctBy(s, key)
    ensures x in s <==> key(x) in Index(s, key) && Index(s, key)[key(x)] == x
  {
    IndexAt(s, key);
    IndexEntries(s, key);
  }

  lemma {:induction false} FilterElements<T(!new)>(s: seq<T>, keep: T -> bool)
    ensures forall x :: x in Filter(s, keep) <==> x in s && keep(x)
  {
    if s != [] {
      FilterElements(s[..|s| - 1], keep);
      assert s == s[..|s| - 1] + [s[|s| - 1]];
    }
  }

  lemma {:induction false} FilterDistinct<T(!new)>(s: seq<T>, key: T -> string, keep: T -> bool)
    requires DistinctBy(s, key)
    ensures DistinctBy(Filter(s, keep), key)
  {
    if s != [] {
      var init, last := s[..|s| - 1], s[|s| - 1];
      FilterDistinct(init, key, keep);
      FilterElements(init, keep);
      var kept := Filter(init, keep);
      forall i | 0 <= i < |kept| ensures key(kept[i]) != key(last) {
        assert kept[i] in kept && kept[i] in init;
        var j :| 0 <= j < |init| && init[j] == kept[i];
        assert s[j] == init[j];
      }
    }
  }

  lemma {:induction false} FilterIndex<T(!new)>(s: seq<T>, key: T -> string, keep: T -> bool)
    requires DistinctBy(s, key)
    ensures Index(Filter(s, keep), key) == map k | k in Index(s, key) && keep(Index(s, key)[k]) :: Index(s, key)[k]
  {
    if s != [] {
      var init, last := s[..|s| - 1], s[|s| - 1];
      FilterIndex(init, key, keep);
      IndexEntries(init, key);
      assert key(last) !in Index(init, key);
      var kept := Filter(init, keep);
      if keep(last) {
        assert (kept + [last])[..|kept|] == kept;
        assert Index(Filter(s, keep), key) == Index(kept, key)[key(last) := last];
      } else {
        assert Filter(s, keep) == kept;
      }
    }
  }

  lemma {:induction false} ReplaceKeys<T(!new)>(s: seq<T>, key: T -> string, v: T)
    ensures |Replace(s, key, v)| == |s|
    ensures forall i :: 0 <= i < |s| ==> key(Replace(s, key, v)[i]) == key(s[i])
  {
    if s != [] { ReplaceKeys(s[..|s| - 1], key, v); }
  }

  lemma {:induction false} ReplaceIndex<T(!new)>(s: seq<T>, key: T -> string, v: T)
    ensures Index(Replace(s, key, v), key)
         == if HasKey(s, key, key(v)) then Index(s, key)[key(v) := v] else Index(s, key)
  {
    if s != [] {
      var init, last := s[..|s| - 1], s[|s| - 1];
      ReplaceIndex(init, key, v);
      IndexHas(s, key, key(v));
      IndexHas(init, key, key(v));
      var r := Replace(init, key, v);
      var w := if key(last) == key(v) then v else last;
      assert (r + [w])[..|r|] == r;
      assert Index(Replace(s, key, v), key) == Index(r, key)[key(w) := w];
    }
  }

  /** A list with distinct keys holds each of its elements once. */
  lemma {:induction false} Multiplicity<T(!new)>(s: seq<T>, key: T -> string, x: T)
    requires DistinctBy(s, key)
    ensures multiset(s)[x] == if x in s then 1 else 0
  {
    if s != [] {
      var init, last := s[..|s| - 1], s[|s| - 1];
      Multiplicity(init, key, x);
      assert s == init + [last];
      forall i | 0 <= i < |init| ensures init[i] != last {
        assert key(s[i]) != key(s[|s| - 1]);
      }
    }
  }

  lemma PermutedIffSameElements<T(!new)>(s: seq<T>, t: seq<T>, key: T -> string)
    requires DistinctBy(s, key) && DistinctBy(t, key)
    ensures multiset(s) == multiset(t) <==> forall x :: x in s <==> x in t
  {
    forall x ensures multiset(s)[x] == (if x in s then 1 else 0) && multiset(t)[x] == (if x in t then 1 else 0) {
      Multiplicity(s, key, x);
      Multiplicity(t, key, x);
    }
    if multiset(s) == multiset(t) {
      forall x ensures x in s <==> x in t {
        assert multiset(s)[x] == multiset(t)[x];
      }
    }
  }

  /** Two lists with distinct keys are permutations of one another exactly when their indexes agree. */
  lemma PermutedIffSameIndex<T(!new)>(s: seq<T>, t: seq<T>, key: T -> string)
    requires DistinctBy(s, key) && DistinctBy(t, key)
    ensures multiset(s) == multiset(t) <==> Index(s, key) == Index(t, key)
  {
    var a, b := Index(s, key), Index(t, key);
    PermutedIffSameElements(s, t, key);
    forall x ensures (x in s <==> key(x) in a && a[key(x)] == x) && (x in t <==> key(x) in b && b[key(x)] == x) {
      IndexElements(s, key, x);
      IndexElements(t, key, x);
    }
    IndexEntries(s, key);
    IndexEntries(t, key);
    if forall x :: x in s <==> x in t {
      forall k ensures k in a <==> k in b {
        if k in a { assert a[k] in t; }
        if k in b { assert b[k] in s; }
      }
      forall k | k in a ensures a[k] == b[k] {
        assert a[k] in t;
      }
      assert a == b;
    }
  }

  lemma AppendIndex<T(!new)>(s: seq<T>, key: T -> string, v: T)
    ensures Index(s + [v], key) == Index(s, key)[key(v) := v]
  {
    assert (s + [v])[..|s|] == s;
  }

  /** Appending what is missing and replacing what is there both amount to a map update. */
  lemma UpsertIndex<T(!new)>(s: seq<T>, key: T -> string, v: T)
    requires DistinctBy(s, key)
    ensures var t := if HasKey(s, key, key(v)) then Replace(s, key, v) else s + [v];
            DistinctBy(t, key) && Index(t, key) == Index(s, key)[key(v) := v]
  {
    ReplaceKeys(s, key, v);
    ReplaceIndex(s, key, v);
    AppendIndex(s, key, v);
  }
}
