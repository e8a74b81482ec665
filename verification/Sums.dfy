/** Sums over lists, and counts as sums. */
module Sums {
  function Sum<T>(s: seq<T>, weight: T -> int): int {
    if s == [] then 0 else Sum(s[..|s| - 1], weight) + weight(s[|s| - 1])
  }

  function Count<T>(s: seq<T>, who: T -> bool): (n: nat)
    ensures n <= |s|
  {
    if s == [] then 0 else Count(s[..|s| - 1], who) + if who(s[|s| - 1]) then 1 else 0
  }

  lemma SumAppend<T>(s: seq<T>, x: T, weight: T -> int)
    ensures Sum(s + [x], weight) == Sum(s, weight) + weight(x)
  {
    assert (s + [x])[..|s|] == s;
  }

  lemma {:induction false} SumHead<T>(s: seq<T>, weight: T -> int)
    requires s != []
    ensures Sum(s, weight) == weight(s[0]) + Sum(s[1..], weight)
  {
    if |s| > 1 {
      SumHead(s[..|s| - 1], weight);
      assert s[1..][..|s| - 2] == s[..|s| - 1][1..];
    }
  }

  lemma {:induction false} SumUpdate<T>(s: seq<T>, weight: T -> int, i: nat, x: T)
    requires i < |s|
    ensures Sum(s[i := x], weight) == Sum(s, weight) - weight(s[i]) + weight(x)
  {
    var last := |s| - 1;
    if i == last {
      assert s[i := x][..last] == s[..last];
    } else {
      SumUpdate(s[..last], weight, i, x);
      assert s[i := x][..last] == s[..last][i := x];
    }
  }

  lemma {:induction false} SumSame<T(!new)>(s: seq<T>, a: T -> int, b: T -> int)
    requires forall x :: x in s ==> a(x) == b(x)
    ensures Sum(s, a) == Sum(s, b)
  {
    if s != [] { SumSame(s[..|s| - 1], a, b); }
  }

  lemma {:induction false} SumNonNegative<T(!new)>(s: seq<T>, weight: T -> int)
    requires forall x :: x in s ==> weight(x) >= 0
    ensures Sum(s, weight) >= 0
    ensures forall x :: x in s ==> weight(x) <= Sum(s, weight)
  {
    if s != [] {
      var init := s[..|s| - 1];
      SumNonNegative(init, weight);
      assert s == init + [s[|s| - 1]];
    }
  }

  lemma {:induction false} CountUpdate<T>(s: seq<T>, who: T -> bool, i: nat, x: T)
    requires i < |s|
    ensures Count(s[i := x], who) + (if who(s[i]) then 1 else 0) == Count(s, who) + (if who(x) then 1 else 0)
  {
    var last := |s| - 1;
    if i == last {
      assert s[i := x][..last] == s[..last];
    } else {
      CountUpdate(s[..last], who, i, x);
      assert s[i := x][..last] == s[..last][i := x];
    }
  }

  ghost predicate Any<T>(s: seq<T>, who: T -> bool) {
    exists i :: 0 <= i < |s| && who(s[i])
  }

  lemma {:induction false} CountAny<T>(s: seq<T>, who: T -> bool)
    ensures Count(s, who) > 0 <==> Any(s, who)
  {
    if s != [] {
      var init := s[..|s| - 1];
      CountAny(init, who);
      if Any(init, who) {
        var i :| 0 <= i < |init| && who(init[i]);
        assert who(s[i]);
      }
      if Any(s, who) {
        var i :| 0 <= i < |s| && who(s[i]);
        assert i < |init| ==> who(init[i]);
      }
    }
  }
}
