/** Sequences: concatenating what a function makes of each element, and regrouping. */
module Seqs {
  function Collect<T, U>(s: seq<T>, f: T -> seq<U>): seq<U> {
    if s == [] then [] else f(s[0]) + Collect(s[1..], f)
  }

  lemma {:induction false} CollectAppend<T, U>(a: seq<T>, b: seq<T>, f: T -> seq<U>)
    ensures Collect(a + b, f) == Collect(a, f) + Collect(b, f)
  {
    if a == [] {
      assert a + b == b;
    } else {
      CollectAppend(a[1..], b, f);
      assert (a + b)[1..] == a[1..] + b;
      Regrouped(f(a[0]), Collect(a[1..], f), Collect(b, f));
    }
  }

  lemma CollectPush<T, U>(s: seq<T>, x: T, f: T -> seq<U>)
    ensures Collect(s + [x], f) == Collect(s, f) + f(x)
  {
    CollectAppend(s, [x], f);
    CollectOne(x, f);
  }

  lemma CollectOne<T, U>(x: T, f: T -> seq<U>)
    ensures Collect([x], f) == f(x)
  {
    assert [x][1..] == [];
    assert Collect([x], f) == f(x) + [];
  }

  lemma Regroup<T>(a: seq<T>, b: seq<T>)
    requires a != []
    ensures a == [a[0]] + a[1..] && a + b == [a[0]] + (a[1..] + b)
  {
  }

  lemma SplitLast<T>(s: seq<T>)
    requires s != []
    ensures s == s[..|s| - 1] + [s[|s| - 1]]
  {
  }

  lemma Regrouped<T>(a: seq<T>, b: seq<T>, c: seq<T>)
    ensures a + b + c == a + (b + c)
  {
  }

  lemma Suffix<T>(s: seq<T>, i: nat, n: nat)
    requires i + n <= |s|
    ensures s[i..][..n] == s[i..i + n] && s[i..][n..] == s[i + n..]
  {
  }

  lemma SliceOfSlice<T>(s: seq<T>, start: nat, size: nat, lo: nat, hi: nat)
    requires start + size <= |s| && lo <= hi <= size
    ensures s[start..start + size][lo..hi] == s[start + lo..start + hi]
  {
    var t := s[start..start + size];
    assert forall k :: 0 <= k < hi - lo ==> t[lo..hi][k] == t[lo + k] == s[start + lo..start + hi][k];
  }

  lemma Whole<T>(s: seq<T>)
    ensures s[..|s|] == s == s[0..]
  {
  }

  lemma TailPush<T>(s: seq<T>, i: nat, x: T)
    requires i <= |s|
    ensures (s + [x])[i..] == s[i..] + [x]
  {
  }

  lemma TailTail<T>(s: seq<T>, i: nat)
    requires i < |s|
    ensures s[i..][1..] == s[i + 1..]
  {
  }
}
