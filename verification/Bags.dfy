/** Sequences compared as bags: the same elements, each as often. */
module Bags {

  function Mapped<T, U>(f: T -> U, s: seq<T>): (r: seq<U>)
    ensures |r| == |s| && forall i :: 0 <= i < |s| ==> r[i] == f(s[i])
  {
    seq(|s|, i requires 0 <= i < |s| => f(s[i]))
  }

  lemma BagWithout<T>(s: seq<T>, k: nat)
    requires k < |s|
    ensures multiset(s) == multiset{s[k]} + multiset(s[..k] + s[k + 1..])
  {
    assert s == s[..k] + [s[k]] + s[k + 1..];
    assert multiset(s[..k] + s[k + 1..]) == multiset(s[..k]) + multiset(s[k + 1..]);
  }

  lemma RestsAgree<T>(a: seq<T>, b: seq<T>, k: nat)
    requires multiset(a) == multiset(b) && a != [] && k < |b| && b[k] == a[0]
    ensures multiset(a[1..]) == multiset(b[..k] + b[k + 1..])
  {
    BagWithout(a, 0);
    BagWithout(b, k);
    assert a[..0] + a[1..] == a[1..];
    var rest, rest' := multiset(a[1..]), multiset(b[..k] + b[k + 1..]);
    assert multiset{a[0]} + rest == multiset{a[0]} + rest';
    assert rest == (multiset{a[0]} + rest) - multiset{a[0]};
  }

  lemma MappedWithout<T, U>(f: T -> U, s: seq<T>, k: nat)
    requires k < |s|
    ensures multiset(Mapped(f, s)) == multiset{f(s[k])} + multiset(Mapped(f, s[..k] + s[k + 1..]))
  {
    hide Mapped;
    BagWithout(Mapped(f, s), k);
    assert Mapped(f, s)[..k] + Mapped(f, s)[k + 1..] == Mapped(f, s[..k] + s[k + 1..]);
  }

  lemma First<T>(a: seq<T>, b: seq<T>) returns (k: nat)
    requires multiset(a) == multiset(b) && a != []
    ensures k < |b| && b[k] == a[0]
  {
    assert a[0] in multiset(b);
    k :| k < |b| && b[k] == a[0];
  }

  lemma BagOfNothing<T>(b: seq<T>)
    requires multiset(b) == multiset([])
    ensures b == []
  {
    assert |multiset(b)| == |b|;
  }

  lemma MappedStep<T, U>(f: T -> U, a: seq<T>, b: seq<T>, k: nat)
    requires a != [] && k < |b| && b[k] == a[0]
    requires multiset(Mapped(f, a[1..])) == multiset(Mapped(f, b[..k] + b[k + 1..]))
    ensures multiset(Mapped(f, a)) == multiset(Mapped(f, b))
  {
    hide Mapped;
    MappedWithout(f, a, 0);
    assert a[..0] + a[1..] == a[1..];
    MappedWithout(f, b, k);
  }

  /** Mapping a function over equal bags gives equal bags. */
  lemma {:induction false} SameBagMapped<T, U>(f: T -> U, a: seq<T>, b: seq<T>)
    requires multiset(a) == multiset(b)
    ensures multiset(Mapped(f, a)) == multiset(Mapped(f, b))
    decreases |a|
  {
    if a == [] {
      BagOfNothing(b);
    } else {
      var k := First(a, b);
      RestsAgree(a, b, k);
      SameBagMapped(f, a[1..], b[..k] + b[k + 1..]);
      MappedStep(f, a, b, k);
    }
  }
}
