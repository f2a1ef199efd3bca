/** Order-preserving filtering and removal over sequences, with the facts the model relies on. */
module Seqs {

  /** No element occurs twice. */
  ghost predicate Distinct<T>(s: seq<T>)
  {
    forall i, j :: 0 <= i < j < |s| ==> s[i] != s[j]
  }

  /** The elements of `s` that satisfy `p`, in their original order (JavaScript's `Array.prototype.filter`). */
  function Filter<T>(s: seq<T>, p: T -> bool): (r: seq<T>)
    ensures |r| <= |s|
    ensures forall i :: 0 <= i < |r| ==> r[i] in s && p(r[i])
    ensures forall i :: 0 <= i < |s| && p(s[i]) ==> s[i] in r
  {
    if s == [] then []
    else
      assert s == [s[0]] + s[1..];
      if p(s[0]) then [s[0]] + Filter(s[1..], p) else Filter(s[1..], p)
  }

  /** Filtering distributes over concatenation: the relative order of kept elements never changes. */
  lemma {:induction false} FilterConcat<T>(a: seq<T>, b: seq<T>, p: T -> bool)
    ensures Filter(a + b, p) == Filter(a, p) + Filter(b, p)
  {
    if a == [] {
      assert a + b == b;
    } else {
      assert (a + b)[0] == a[0];
      assert (a + b)[1..] == a[1..] + b;
      FilterConcat(a[1..], b, p);
    }
  }

  /** Filtering twice with the same predicate is filtering once. */
  lemma {:induction false} FilterIdempotent<T>(s: seq<T>, p: T -> bool)
    ensures Filter(Filter(s, p), p) == Filter(s, p)
  {
    if s != [] {
      FilterIdempotent(s[1..], p);
      if p(s[0]) {
        var r := [s[0]] + Filter(s[1..], p);
        assert r[0] == s[0] && r[1..] == Filter(s[1..], p);
      }
    }
  }

  /** When every element satisfies `p`, the filter keeps the whole sequence. */
  lemma {:induction false} FilterKeepsAll<T>(s: seq<T>, p: T -> bool)
    requires forall i :: 0 <= i < |s| ==> p(s[i])
    ensures Filter(s, p) == s
  {
    if s != [] {
      assert p(s[0]);
      FilterKeepsAll(s[1..], p);
      assert s == [s[0]] + s[1..];
    }
  }

  /** Filtering a sequence without duplicates yields a sequence without duplicates. */
  lemma {:induction false} FilterDistinct<T>(s: seq<T>, p: T -> bool)
    requires Distinct(s)
    ensures Distinct(Filter(s, p))
  {
    if s != [] {
      assert Distinct(s[1..]) by {
        forall i, j | 0 <= i < j < |s[1..]| ensures s[1..][i] != s[1..][j] {
          assert s[1..][i] == s[i + 1] && s[1..][j] == s[j + 1];
        }
      }
      FilterDistinct(s[1..], p);
      if p(s[0]) {
        var t := Filter(s[1..], p);
        assert s[0] !in s[1..] by {
          forall k | 0 <= k < |s[1..]| ensures s[1..][k] != s[0] {
            assert s[1..][k] == s[k + 1];
          }
        }
        assert s[0] !in t;
        var r := [s[0]] + t;
        forall i, j | 0 <= i < j < |r| ensures r[i] != r[j] {
          if i == 0 {
            assert r[j] == t[j - 1] && t[j - 1] in t;
          } else {
            assert r[i] == t[i - 1] && r[j] == t[j - 1];
          }
        }
      }
    }
  }

  /** `s` without any occurrence of `x`, order otherwise kept. */
  function Remove<T(==)>(s: seq<T>, x: T): (r: seq<T>)
    ensures x !in r
    ensures forall y :: y in r ==> y in s
  {
    Filter(s, y => y != x)
  }

  /** Removing an element that is not there changes nothing. */
  lemma RemoveAbsent<T>(s: seq<T>, x: T)
    requires x !in s
    ensures Remove(s, x) == s
  {
    FilterKeepsAll(s, y => y != x);
  }

  /** Removing the head of a sequence whose tail does not hold it leaves the tail. */
  lemma RemoveHead<T>(x: T, s: seq<T>)
    requires x !in s
    ensures Remove([x] + s, x) == s
  {
    assert ([x] + s)[0] == x && ([x] + s)[1..] == s;
    RemoveAbsent(s, x);
  }

  /** Removal distributes over concatenation. */
  lemma RemoveConcat<T>(a: seq<T>, b: seq<T>, x: T)
    ensures Remove(a + b, x) == Remove(a, x) + Remove(b, x)
  {
    FilterConcat(a, b, y => y != x);
  }

  /** Removal keeps a sequence free of duplicates. */
  lemma RemoveDistinct<T>(s: seq<T>, x: T)
    requires Distinct(s)
    ensures Distinct(Remove(s, x))
  {
    FilterDistinct(s, y => y != x);
  }

  /** In a sequence without duplicates, an element occurs neither before nor after its own position. */
  lemma DistinctSplit<T>(keys: seq<T>, i: nat)
    requires Distinct(keys) && i < |keys|
    ensures keys[i] !in keys[..i] && keys[i] !in keys[i + 1..]
  {
    forall j | 0 <= j < |keys| && j != i ensures keys[j] != keys[i] {
    }
  }

  /** Filtering a single element keeps it exactly when it satisfies `p`. */
  lemma FilterSingleton<T>(x: T, p: T -> bool)
    ensures Filter([x], p) == if p(x) then [x] else []
  {
    assert [x][1..] == [];
  }

  /**
   * One step of a walk over distinct `keys` that removes each element failing `p`:
   * after the step the walked prefix is filtered and the rest is untouched.
   */
  lemma FilterWalkStep<T>(keys: seq<T>, i: nat, p: T -> bool)
    requires Distinct(keys) && i < |keys|
    ensures !p(keys[i]) ==>
      Remove(Filter(keys[..i], p) + keys[i..], keys[i]) == Filter(keys[..i + 1], p) + keys[i + 1..]
    ensures p(keys[i]) ==>
      Filter(keys[..i], p) + keys[i..] == Filter(keys[..i + 1], p) + keys[i + 1..]
  {
    var x := keys[i];
    var done, rest := Filter(keys[..i], p), keys[i + 1..];
    assert keys[..i + 1] == keys[..i] + [x];
    assert keys[i..] == [x] + rest;
    FilterConcat(keys[..i], [x], p);
    FilterSingleton(x, p);
    if !p(x) {
      DistinctSplit(keys, i);
      assert Filter(keys[..i + 1], p) == done;
      assert x !in done;
      RemoveConcat(done, [x] + rest, x);
      RemoveAbsent(done, x);
      RemoveHead(x, rest);
    } else {
      assert done + ([x] + rest) == (done + [x]) + rest;
    }
  }
}
