/** Generic sequence operations the source performs with `Array.prototype`
    methods (`filter`, `map`, `flatMap`) and with `new Set(...)`. */
module Seqs {

  /** `b` contains the elements of `a` in the same relative order. */
  predicate IsSubsequence<T(==,!new)>(a: seq<T>, b: seq<T>) {
    a == [] || (b != [] && ((a[0] == b[0] && IsSubsequence(a[1..], b[1..])) || IsSubsequence(a, b[1..])))
  }

  /** No element occurs twice. */
  predicate NoDup<T(==,!new)>(s: seq<T>) {
    forall i, j :: 0 <= i < j < |s| ==> s[i] != s[j]
  }

  /** `s.filter(p)`: the elements satisfying `p`, in their original order. */
  function Filter<T(==,!new)>(s: seq<T>, p: T -> bool): (r: seq<T>)
    ensures |r| <= |s|
    ensures forall x :: x in r <==> x in s && p(x)
    ensures IsSubsequence(r, s)
  {
    if s == [] then []
    else
      var rest := Filter(s[1..], p);
      assert s == [s[0]] + s[1..];
      if p(s[0]) then
        assert ([s[0]] + rest)[1..] == rest;
        [s[0]] + rest
      else rest
  }

  lemma {:induction false} FilterConcat<T(!new)>(a: seq<T>, b: seq<T>, p: T -> bool)
    ensures Filter(a + b, p) == Filter(a, p) + Filter(b, p)
  {
    if a != [] {
      assert (a + b)[0] == a[0] && (a + b)[1..] == a[1..] + b;
      FilterConcat(a[1..], b, p);
    } else {
      assert a + b == b;
    }
  }

  /** Filtering with a predicate every element satisfies changes nothing. */
  lemma {:induction false} FilterKeepsAll<T(!new)>(s: seq<T>, p: T -> bool)
    requires forall x :: x in s ==> p(x)
    ensures Filter(s, p) == s
  {
    if s != [] {
      FilterKeepsAll(s[1..], p);
    }
  }

  /** Two predicates that agree on every element filter alike. */
  lemma {:induction false} FilterEquivalent<T(!new)>(s: seq<T>, p: T -> bool, q: T -> bool)
    requires forall x :: x in s ==> p(x) == q(x)
    ensures Filter(s, p) == Filter(s, q)
  {
    if s != [] {
      FilterEquivalent(s[1..], p, q);
    }
  }

  /** Filtering first with a weaker predicate changes nothing. */
  lemma {:induction false} FilterRefines<T(!new)>(s: seq<T>, p: T -> bool, q: T -> bool)
    requires forall x :: q(x) ==> p(x)
    ensures Filter(Filter(s, p), q) == Filter(s, q)
  {
    if s != [] {
      FilterRefines(s[1..], p, q);
      if p(s[0]) {
        assert Filter(s, p)[0] == s[0] && Filter(s, p)[1..] == Filter(s[1..], p);
      }
    }
  }

  /** The multiplicity of each element kept by `Filter` is unchanged. */
  lemma {:induction false} FilterMultiset<T(!new)>(s: seq<T>, p: T -> bool, x: T)
    ensures multiset(Filter(s, p))[x] == if p(x) then multiset(s)[x] else 0
  {
    if s != [] {
      FilterMultiset(s[1..], p, x);
      assert s == [s[0]] + s[1..];
    }
  }

  /** `s.filter(y => y !== x)` */
  function Remove<T(==,!new)>(s: seq<T>, x: T): (r: seq<T>)
    ensures x !in r
    ensures forall y :: y != x ==> (y in r <==> y in s)
    ensures IsSubsequence(r, s)
  {
    Filter(s, y => y != x)
  }

  /** `Remove` drops every copy of `x` and no copy of anything else. */
  lemma RemoveMultiset<T(!new)>(s: seq<T>, x: T)
    ensures multiset(Remove(s, x)) == multiset(s)[x := 0]
  {
    forall y ensures multiset(Remove(s, x))[y] == multiset(s)[x := 0][y] {
      FilterMultiset(s, z => z != x, y);
    }
  }

  /** Removing an absent element is the identity. */
  lemma RemoveAbsent<T(!new)>(s: seq<T>, x: T)
    requires x !in s
    ensures Remove(s, x) == s
  {
    FilterKeepsAll(s, y => y != x);
  }

  /** Removing from a concatenation removes from each part. */
  lemma RemoveConcat<T(!new)>(a: seq<T>, b: seq<T>, x: T)
    ensures Remove(a + b, x) == Remove(a, x) + Remove(b, x)
  {
    FilterConcat(a, b, y => y != x);
  }

  /** Removing an element just appended to a sequence without it gives the
      sequence back. */
  lemma RemoveAppended<T(!new)>(s: seq<T>, x: T)
    requires x !in s
    ensures Remove(s + [x], x) == s
  {
    RemoveConcat(s, [x], x);
    RemoveAbsent(s, x);
    assert x !in Remove([x], x);
  }

  /** Removing from a duplicate-free sequence keeps it duplicate-free and
      shortens it by one exactly when the element was present. */
  lemma RemoveNoDup<T(!new)>(s: seq<T>, x: T)
    requires NoDup(s)
    ensures NoDup(Remove(s, x))
    ensures |Remove(s, x)| == if x in s then |s| - 1 else |s|
  {
    var r := Remove(s, x);
    RemoveMultiset(s, x);
    NoDupMultiplicity(s);
    forall y ensures multiset(r)[y] <= 1 {
      assert multiset(r)[y] == multiset(s)[x := 0][y];
    }
    MultiplicityNoDup(r);
    assert |multiset(r)| == |r| && |multiset(s)| == |s|;
    if x in s {
      assert multiset(s)[x] == 1;
      assert multiset(s) == multiset(s)[x := 0] + multiset{x};
    } else {
      assert multiset(s)[x := 0] == multiset(s);
    }
  }

  /** Each element of a duplicate-free sequence occurs at most once. */
  lemma {:induction false} NoDupMultiplicity<T(!new)>(s: seq<T>)
    requires NoDup(s)
    ensures forall y :: multiset(s)[y] <= 1
  {
    if s != [] {
      assert s == [s[0]] + s[1..];
      assert NoDup(s[1..]) by {
        forall i, j | 0 <= i < j < |s[1..]| ensures s[1..][i] != s[1..][j] {
          assert s[1..][i] == s[i + 1] && s[1..][j] == s[j + 1];
        }
      }
      NoDupMultiplicity(s[1..]);
      assert s[0] !in s[1..];
    }
  }

  /** Conversely, a sequence whose multiset has no element twice has no duplicates. */
  lemma {:induction false} MultiplicityNoDup<T(!new)>(s: seq<T>)
    requires forall y :: multiset(s)[y] <= 1
    ensures NoDup(s)
  {
    if s != [] {
      assert s == [s[0]] + s[1..];
      assert multiset(s) == multiset{s[0]} + multiset(s[1..]);
      forall y ensures multiset(s[1..])[y] <= multiset(s)[y] - multiset{s[0]}[y] {
        assert multiset(s)[y] == multiset{s[0]}[y] + multiset(s[1..])[y];
      }
      assert multiset(s)[s[0]] <= 1;
      MultiplicityNoDup(s[1..]);
      forall i, j | 0 <= i < j < |s| ensures s[i] != s[j] {
        if i == 0 {
          assert s[j] in s[1..];
        } else {
          assert s[i] == s[1..][i - 1] && s[j] == s[1..][j - 1];
        }
      }
    }
  }

  /** Two sequences with the same multiset are duplicate-free together. */
  lemma NoDupSameMultiset<T(!new)>(a: seq<T>, b: seq<T>)
    requires multiset(a) == multiset(b)
    requires NoDup(a)
    ensures NoDup(b)
  {
    NoDupMultiplicity(a);
    MultiplicityNoDup(b);
  }

  /** `xs.map(f)` */
  function Map<A, B>(s: seq<A>, f: A -> B): (r: seq<B>)
    ensures |r| == |s|
    ensures forall i :: 0 <= i < |s| ==> r[i] == f(s[i])
  {
    seq(|s|, i requires 0 <= i < |s| => f(s[i]))
  }

  /** An element of a mapped sequence is the image of an element. */
  lemma MapMembership<A, B>(s: seq<A>, f: A -> B, y: B)
    ensures y in Map(s, f) <==> exists x :: x in s && f(x) == y
  {
    if y in Map(s, f) {
      var i :| 0 <= i < |s| && Map(s, f)[i] == y;
      assert s[i] in s;
    }
  }

  lemma MapConcat<A, B>(a: seq<A>, b: seq<A>, f: A -> B)
    ensures Map(a + b, f) == Map(a, f) + Map(b, f)
  {
  }

  /** `xss.flat()`: the lists one after the other. */
  function Flatten<T(==,!new)>(ss: seq<seq<T>>): (r: seq<T>)
    ensures forall x :: x in r <==> exists i :: 0 <= i < |ss| && x in ss[i]
  {
    if ss == [] then []
    else
      var rest := Flatten(ss[1..]);
      assert forall x :: x in ss[0] + rest <==> exists i :: 0 <= i < |ss| && x in ss[i] by {
        forall x ensures x in ss[0] + rest <==> exists i :: 0 <= i < |ss| && x in ss[i] {
          if x in rest {
            var i :| 0 <= i < |ss[1..]| && x in ss[1..][i];
            assert x in ss[i + 1];
          }
          if exists i :: 0 <= i < |ss| && x in ss[i] {
            var i :| 0 <= i < |ss| && x in ss[i];
            if i > 0 {
              assert x in ss[1..][i - 1];
            }
          }
        }
      }
      ss[0] + rest
  }

  lemma {:induction false} FlattenConcat<T(!new)>(a: seq<seq<T>>, b: seq<seq<T>>)
    ensures Flatten(a + b) == Flatten(a) + Flatten(b)
  {
    if a != [] {
      assert (a + b)[0] == a[0] && (a + b)[1..] == a[1..] + b;
      FlattenConcat(a[1..], b);
    } else {
      assert a + b == b;
    }
  }

  /** Index of the first occurrence of `x`. */
  function FirstIndex<T(==,!new)>(s: seq<T>, x: T): (k: nat)
    requires x in s
    ensures k < |s| && s[k] == x && x !in s[..k]
  {
    if s[0] == x then 0
    else
      var k := 1 + FirstIndex(s[1..], x);
      assert s[..k] == [s[0]] + s[1..][..k - 1];
      k
  }

  /** `[...new Set(s)]`: the first occurrence of every element, in order of
      first occurrence (a JavaScript `Set` iterates in insertion order). */
  function Dedupe<T(==,!new)>(s: seq<T>): (r: seq<T>)
    ensures NoDup(r)
    ensures forall x :: x in r <==> x in s
    ensures forall i, j :: 0 <= i < j < |r| ==> FirstIndex(s, r[i]) < FirstIndex(s, r[j])
  {
    if s == [] then []
    else
      var init := s[..|s| - 1];
      var last := s[|s| - 1];
      var d := Dedupe(init);
      assert s == init + [last];
      forall x | x in init ensures FirstIndex(s, x) == FirstIndex(init, x) {
        FirstIndexOfPrefix(init, [last], x);
      }
      if last in d then d
      else
        var r := d + [last];
        assert FirstIndex(s, last) == |s| - 1 by {
          FirstIndexUnique(s, last, |s| - 1);
        }
        assert forall x :: x in d ==> FirstIndex(s, x) < |s| - 1;
        r
  }

  /** The first index is the only index holding `x` with no earlier copy. */
  lemma {:induction false} FirstIndexUnique<T(!new)>(s: seq<T>, x: T, k: nat)
    requires k < |s| && s[k] == x && x !in s[..k]
    ensures FirstIndex(s, x) == k
  {
    if s[0] == x {
      assert forall m :: 0 < m <= |s| ==> s[..m][0] == x;
    } else {
      assert s[1..][..k - 1] == s[1..k];
      assert forall y :: y in s[1..k] ==> y in s[..k];
      FirstIndexUnique(s[1..], x, k - 1);
    }
  }

  lemma FirstIndexOfPrefix<T(!new)>(a: seq<T>, b: seq<T>, x: T)
    requires x in a
    ensures FirstIndex(a + b, x) == FirstIndex(a, x)
  {
    var k := FirstIndex(a, x);
    assert (a + b)[..k] == a[..k];
    FirstIndexUnique(a + b, x, k);
  }
}
