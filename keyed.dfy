/** Sequences of records identified by a key: the `find`, `some` and `filter(x => x.id !== k)`
    idioms that every store of the app applies to its collections, written once for any record
    type and any key projection. */
module Keyed {
  import opened Wrappers

  /** Some element of `s` has key `k` (`s.some(x => key(x) === k)`). */
  predicate HasKey<T, K(==)>(s: seq<T>, key: T -> K, k: K) {
    exists i :: 0 <= i < |s| && key(s[i]) == k
  }

  /** No two elements of `s` share a key. */
  predicate UniqueKeys<T, K(==)>(s: seq<T>, key: T -> K) {
    forall i, j :: 0 <= i < j < |s| ==> key(s[i]) != key(s[j])
  }

  /** Position of the element `s.find(x => key(x) === k)` returns: the first one with key `k`. */
  function FirstIndex<T, K(==)>(s: seq<T>, key: T -> K, k: K): (r: Option<nat>)
    ensures r.Some? <==> HasKey(s, key, k)
    ensures r.Some? ==> r.value < |s| && key(s[r.value]) == k
    ensures r.Some? ==> forall j :: 0 <= j < r.value ==> key(s[j]) != k
  {
    if |s| == 0 then None
    else if key(s[0]) == k then Some(0)
    else
      match FirstIndex(s[1..], key, k)
      case None =>
        assert forall i :: 0 < i < |s| ==> s[i] == s[1..][i - 1];
        None
      case Some(i) =>
        assert s[i + 1] == s[1..][i];
        assert forall j :: 0 < j <= i ==> s[j] == s[1..][j - 1];
        Some(i + 1)
  }

  /** `s.filter(x => key(x) !== k)`: the elements whose key is not `k`, in their order. */
  function Without<T, K(==)>(s: seq<T>, key: T -> K, k: K): (r: seq<T>)
    ensures |r| <= |s|
    ensures !HasKey(r, key, k)
  {
    if |s| == 0 then []
    else if key(s[0]) == k then Without(s[1..], key, k)
    else [s[0]] + Without(s[1..], key, k)
  }

  /** Filtering keeps exactly the elements whose key is not `k`. */
  lemma {:induction false} WithoutMembers<T, K>(s: seq<T>, key: T -> K, k: K)
    ensures forall i :: 0 <= i < |Without(s, key, k)| ==> Without(s, key, k)[i] in s
    ensures forall i :: 0 <= i < |s| && key(s[i]) != k ==> s[i] in Without(s, key, k)
  {
    if |s| > 0 {
      WithoutMembers(s[1..], key, k);
      assert forall i :: 0 < i < |s| ==> s[i] == s[1..][i - 1];
    }
  }

  /** Filtering distributes over concatenation: it keeps the survivors in their original order. */
  lemma {:induction false} WithoutAppend<T, K>(a: seq<T>, b: seq<T>, key: T -> K, k: K)
    ensures Without(a + b, key, k) == Without(a, key, k) + Without(b, key, k)
  {
    if |a| == 0 {
      assert a + b == b;
    } else {
      assert (a + b)[0] == a[0];
      assert (a + b)[1..] == a[1..] + b;
      WithoutAppend(a[1..], b, key, k);
    }
  }

  /** Filtering out a key nobody has changes nothing. */
  lemma {:induction false} WithoutAbsent<T, K>(s: seq<T>, key: T -> K, k: K)
    requires !HasKey(s, key, k)
    ensures Without(s, key, k) == s
  {
    if |s| > 0 {
      assert key(s[0]) != k;
      assert forall i :: 0 <= i < |s| - 1 ==> s[1..][i] == s[i + 1];
      WithoutAbsent(s[1..], key, k);
      assert [s[0]] + s[1..] == s;
    }
  }

  /** Filtering out the key of an element that no other element has deletes exactly that
      element and keeps the others in order. */
  lemma WithoutSplit<T, K>(pre: seq<T>, x: T, post: seq<T>, key: T -> K)
    requires !HasKey(pre, key, key(x)) && !HasKey(post, key, key(x))
    ensures Without(pre + [x] + post, key, key(x)) == pre + post
  {
    var k := key(x);
    WithoutAppend(pre + [x], post, key, k);
    WithoutAppend(pre, [x], key, k);
    WithoutAbsent(pre, key, k);
    assert Without([x], key, k) == [];
    assert Without(pre + [x], key, k) == pre;
    WithoutAbsent(post, key, k);
  }

  /** With unique keys, no element but the one at `i` carries its key. */
  lemma UniqueElsewhere<T, K>(s: seq<T>, key: T -> K, i: nat)
    requires UniqueKeys(s, key)
    requires i < |s|
    ensures !HasKey(s[..i], key, key(s[i])) && !HasKey(s[i + 1..], key, key(s[i]))
  {
    var pre, post := s[..i], s[i + 1..];
    forall j | 0 <= j < |pre| ensures key(pre[j]) != key(s[i]) {
      assert pre[j] == s[j];
    }
    forall j | 0 <= j < |post| ensures key(post[j]) != key(s[i]) {
      assert post[j] == s[i + 1 + j];
    }
  }

  /** With unique keys, filtering out the key of position `i` deletes exactly that element
      and keeps the others in order. */
  lemma WithoutUniqueAt<T, K>(s: seq<T>, key: T -> K, i: nat)
    requires UniqueKeys(s, key)
    requires i < |s|
    ensures Without(s, key, key(s[i])) == s[..i] + s[i + 1..]
  {
    var pre, x, post := s[..i], s[i], s[i + 1..];
    UniqueElsewhere(s, key, i);
    WithoutSplit(pre, x, post, key);
    assert pre + [x] + post == s;
  }

  /** Filtering keeps keys unique. */
  lemma {:induction false} WithoutKeepsUnique<T, K>(s: seq<T>, key: T -> K, k: K)
    requires UniqueKeys(s, key)
    ensures UniqueKeys(Without(s, key, k), key)
  {
    if |s| > 0 {
      var tail := s[1..];
      assert UniqueKeys(tail, key) by {
        forall i, j | 0 <= i < j < |tail| ensures key(tail[i]) != key(tail[j]) {
          assert tail[i] == s[i + 1] && tail[j] == s[j + 1];
        }
      }
      WithoutKeepsUnique(tail, key, k);
      var rest := Without(tail, key, k);
      if key(s[0]) != k {
        WithoutMembers(tail, key, k);
        forall m | 0 <= m < |rest| ensures key(rest[m]) != key(s[0]) {
          var j :| 0 <= j < |tail| && tail[j] == rest[m];
          assert rest[m] == s[j + 1];
        }
        var r := [s[0]] + rest;
        forall i, j | 0 <= i < j < |r| ensures key(r[i]) != key(r[j]) {
          assert r[j] == rest[j - 1];
          if i > 0 {
            assert r[i] == rest[i - 1];
          }
        }
      }
    }
  }

  /** Appending an element with a fresh key keeps keys unique. */
  lemma AppendKeepsUnique<T, K>(s: seq<T>, key: T -> K, x: T)
    requires UniqueKeys(s, key)
    requires !HasKey(s, key, key(x))
    ensures UniqueKeys(s + [x], key)
  {
    var r := s + [x];
    forall i, j | 0 <= i < j < |r| ensures key(r[i]) != key(r[j]) {
      assert r[i] == s[i];
      if j < |s| {
        assert r[j] == s[j];
      }
    }
  }
}
