/** Dropping what is too old from a list: done in place all over the program, and a function here. */
module Filters {
  import opened Base

  function Filter<T>(s: seq<T>, keep: T -> bool): seq<T> {
    if s == [] then []
    else
      var n := |s| - 1;
      if keep(s[n]) then Filter(s[..n], keep) + [s[n]] else Filter(s[..n], keep)
  }

  lemma FilterAppend<T>(s: seq<T>, x: T, keep: T -> bool)
    ensures Filter(s + [x], keep) == Filter(s, keep) + (if keep(x) then [x] else [])
  {
    assert (s + [x])[..|s|] == s;
  }

  lemma FilterNext<T>(s: seq<T>, i: nat, keep: T -> bool)
    requires i < |s|
    ensures Filter(s[..i + 1], keep) == Filter(s[..i], keep) + (if keep(s[i]) then [s[i]] else [])
  {
    assert s[..i + 1] == s[..i] + [s[i]];
    FilterAppend(s[..i], s[i], keep);
  }

  /** Filtering twice, the second time more strictly, is filtering once. */
  lemma {:induction false} FilterAgain<T>(s: seq<T>, a: T -> bool, b: T -> bool)
    requires forall i :: 0 <= i < |s| && b(s[i]) ==> a(s[i])
    ensures Filter(Filter(s, a), b) == Filter(s, b)
  {
    if s != [] {
      var n := |s| - 1;
      FilterAgain(s[..n], a, b);
      if a(s[n]) {
        FilterAppend(Filter(s[..n], a), s[n], b);
      }
    }
  }

  lemma {:induction false} FilterCommute<T>(s: seq<T>, a: T -> bool, b: T -> bool)
    ensures Filter(Filter(s, a), b) == Filter(Filter(s, b), a)
  {
    if s != [] {
      var n := |s| - 1;
      FilterCommute(s[..n], a, b);
      FilterAppend(Filter(s[..n], a), s[n], b);
      FilterAppend(Filter(s[..n], b), s[n], a);
    }
  }

  lemma {:induction false} FilterMembers<T>(s: seq<T>, keep: T -> bool)
    ensures forall x :: x in Filter(s, keep) <==> x in s && keep(x)
  {
    if s != [] {
      var n := |s| - 1;
      FilterMembers(s[..n], keep);
      assert s == s[..n] + [s[n]];
    }
  }

  lemma {:induction false} FilterConcat<T>(a: seq<T>, b: seq<T>, keep: T -> bool)
    ensures Filter(a + b, keep) == Filter(a, keep) + Filter(b, keep)
    decreases |b|
  {
    if b == [] {
      assert a + b == a;
    } else {
      var n := |b| - 1;
      assert (a + b)[..|a + b| - 1] == a + b[..n];
      FilterConcat(a, b[..n], keep);
    }
  }

  lemma {:induction false} FilterAll<T>(s: seq<T>, keep: T -> bool)
    requires forall i :: 0 <= i < |s| ==> keep(s[i])
    ensures Filter(s, keep) == s
  {
    if s != [] {
      FilterAll(s[..|s| - 1], keep);
    }
  }

  function IsLater(cutoff: Time): Time -> bool {
    (t: Time) => t > cutoff
  }

  /** The instants after the cutoff. */
  function Later(s: seq<Time>, cutoff: Time): seq<Time> {
    Filter(s, IsLater(cutoff))
  }

  lemma LaterAppend(s: seq<Time>, t: Time, cutoff: Time)
    ensures Later(s + [t], cutoff) == Later(s, cutoff) + (if t > cutoff then [t] else [])
  {
    FilterAppend(s, t, IsLater(cutoff));
  }

  lemma LaterAgain(s: seq<Time>, a: Time, b: Time)
    requires a <= b
    ensures Later(Later(s, a), b) == Later(s, b)
  {
    FilterAgain(s, IsLater(a), IsLater(b));
  }

  lemma LaterConcat(a: seq<Time>, b: seq<Time>, cutoff: Time)
    ensures Later(a + b, cutoff) == Later(a, cutoff) + Later(b, cutoff)
  {
    FilterConcat(a, b, IsLater(cutoff));
  }
}
