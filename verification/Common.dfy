/** Small vocabulary shared by every module: optional values and results that carry an error. */
module Common {

  datatype Option<+T> = None | Some(value: T)

  datatype Result<+T, +E> = Ok(value: T) | Err(error: E)

  /** Instants are counted in microseconds, durations are configured in seconds. */
  const SECOND := 1_000_000

  function Max(a: int, b: int): int { if a >= b then a else b }

  function Min(a: int, b: int): int { if a <= b then a else b }

  function MaxReal(a: real, b: real): real { if a >= b then a else b }

  /** First occurrences only, in order. */
  function Dedupe<T(==)>(xs: seq<T>): seq<T>
  {
    if xs == [] then []
    else
      var front := Dedupe(xs[..|xs| - 1]);
      if xs[|xs| - 1] in front then front else front + [xs[|xs| - 1]]
  }

  lemma {:induction false} DedupeMembers<T>(xs: seq<T>)
    ensures forall x :: x in Dedupe(xs) <==> x in xs
  {
    if xs != [] {
      DedupeMembers(xs[..|xs| - 1]);
      assert xs == xs[..|xs| - 1] + [xs[|xs| - 1]];
    }
  }

  predicate OccursAt(s: string, part: string, i: int)
  {
    0 <= i <= |s| - |part| && s[i..i + |part|] == part
  }

  /** True when part is a substring of s. */
  predicate Contains(s: string, part: string)
  {
    exists i :: 0 <= i <= |s| && OccursAt(s, part, i)
  }

  function Below(n: nat): (s: set<nat>)
    ensures forall k: nat :: k in s <==> k < n
    ensures |s| == n
  {
    if n == 0 then {} else Below(n - 1) + {n - 1}
  }

  function Image(f: seq<nat>): set<nat>
  {
    set i | 0 <= i < |f| :: f[i]
  }

  /** An injective map from [0, n) into [0, n) reaches every index (pigeonhole principle). */
  lemma {:induction false} InjectionIsSurjection(f: seq<nat>)
    requires forall i :: 0 <= i < |f| ==> f[i] < |f|
    requires forall i, j :: 0 <= i < j < |f| ==> f[i] != f[j]
    ensures forall k :: 0 <= k < |f| ==> k in f
  {
    DistinctImageSize(f);
    var all := Below(|f|);
    if exists k :: k in all && k !in f {
      var k :| k in all && k !in f;
      SubsetSize(Image(f), all - {k});
    }
    forall k | 0 <= k < |f| ensures k in f { assert k in all; }
  }

  lemma {:induction false} DistinctImageSize(f: seq<nat>)
    requires forall i, j :: 0 <= i < j < |f| ==> f[i] != f[j]
    ensures |Image(f)| == |f|
  {
    if f != [] {
      var front := f[..|f| - 1];
      DistinctImageSize(front);
      ImageGrows(f);
    }
  }

  lemma ImageGrows(f: seq<nat>)
    requires f != []
    ensures Image(f) == Image(f[..|f| - 1]) + {f[|f| - 1]}
  {
    var front := f[..|f| - 1];
    forall x | x in Image(f) ensures x in Image(front) + {f[|f| - 1]} {
      var i :| 0 <= i < |f| && f[i] == x;
      assert i < |front| ==> front[i] == x;
    }
    forall x | x in Image(front) ensures x in Image(f) {
      var i :| 0 <= i < |front| && front[i] == x;
      assert f[i] == x;
    }
  }

  lemma {:induction false} SubsetSize<T>(a: set<T>, b: set<T>)
    requires a <= b
    ensures |a| <= |b|
  {
    if a != {} {
      var x :| x in a;
      SubsetSize(a - {x}, b - {x});
    }
  }

  lemma ConcatAssociates<T>(a: seq<T>, b: seq<T>, c: seq<T>)
    ensures (a + b) + c == a + (b + c)
  {
  }

  /** Taking one element out of both sides of a permutation leaves a permutation. */
  lemma PermutationTail<T>(a: seq<T>, b: seq<T>, i: nat)
    requires a != [] && multiset(a) == multiset(b)
    requires i < |b| && b[i] == a[0]
    ensures multiset(a[1..]) == multiset(b[..i] + b[i + 1..])
  {
    assert a == [a[0]] + a[1..];
    assert b == b[..i] + [b[i]] + b[i + 1..];
    assert multiset(a[1..]) == multiset(a) - multiset{a[0]};
    assert multiset(b[..i] + b[i + 1..]) == multiset(b) - multiset{b[i]};
  }

  lemma MultisetWithout<T>(s: seq<T>, k: nat)
    requires k < |s|
    ensures multiset(s) == multiset(s[..k] + s[k + 1..]) + multiset{s[k]}
  {
    assert s == s[..k] + [s[k]] + s[k + 1..];
  }

  lemma MultisetCancel<T>(a: multiset<T>, b: multiset<T>, x: T)
    requires a + multiset{x} == b + multiset{x}
    ensures a == b
  {
    assert a == (a + multiset{x}) - multiset{x};
    assert b == (b + multiset{x}) - multiset{x};
  }

  lemma PermutationFind<T>(a: seq<T>, b: seq<T>) returns (i: nat)
    requires a != [] && multiset(a) == multiset(b)
    ensures i < |b| && b[i] == a[0]
  {
    assert a[0] in multiset(a);
    i :| 0 <= i < |b| && b[i] == a[0];
  }

  lemma PermutationLength<T>(a: seq<T>, b: seq<T>)
    requires multiset(a) == multiset(b)
    ensures |a| == |b|
  {
    assert |multiset(a)| == |a| && |multiset(b)| == |b|;
  }
}
