/** The two array idioms every component uses on its cached records:
    `xs.filter(x => key(x) !== k)` and `xs.map(x => key(x) === k ? f(x) : x)`. */
module Seqs {

  /** No two records of `s` share a key (a primary key, for rows of the store). */
  predicate UniqueKeys<T, K(==)>(key: T -> K, s: seq<T>)
  {
    forall i, j :: 0 <= i < j < |s| ==> key(s[i]) != key(s[j])
  }

  /** `s.filter(x => key(x) !== k)`: drops every record whose key is `k`. */
  function RemoveKey<T, K(==)>(key: T -> K, s: seq<T>, k: K): (r: seq<T>)
    ensures |r| <= |s|
    ensures forall i :: 0 <= i < |r| ==> r[i] in s && key(r[i]) != k
    ensures forall i :: 0 <= i < |s| && key(s[i]) != k ==> s[i] in r
  {
    if s == [] then []
    else if key(s[0]) != k then [s[0]] + RemoveKey(key, s[1..], k)
    else RemoveKey(key, s[1..], k)
  }

  /** Filtering distributes over concatenation, so the surviving records keep
      their relative order. */
  lemma {:induction false} RemoveKeyConcat<T, K>(key: T -> K, a: seq<T>, b: seq<T>, k: K)
    ensures RemoveKey(key, a + b, k) == RemoveKey(key, a, k) + RemoveKey(key, b, k)
  {
    if a == [] {
      assert a + b == b;
    } else {
      assert (a + b)[0] == a[0];
      assert (a + b)[1..] == a[1..] + b;
      RemoveKeyConcat(key, a[1..], b, k);
    }
  }

  /** Removing a key that no record carries changes nothing. */
  lemma {:induction false} RemoveAbsentKey<T, K>(key: T -> K, s: seq<T>, k: K)
    requires forall i :: 0 <= i < |s| ==> key(s[i]) != k
    ensures RemoveKey(key, s, k) == s
  {
    if s != [] {
      RemoveAbsentKey(key, s[1..], k);
    }
  }

  /** Removing by key keeps the remaining keys unique. */
  lemma {:induction false} RemoveKeyKeepsUnique<T, K>(key: T -> K, s: seq<T>, k: K)
    requires UniqueKeys(key, s)
    ensures UniqueKeys(key, RemoveKey(key, s, k))
  {
    if s != [] {
      RemoveKeyKeepsUnique(key, s[1..], k);
      var tail := RemoveKey(key, s[1..], k);
      if key(s[0]) != k {
        forall j | 0 <= j < |tail| ensures key(s[0]) != key(tail[j]) {
          assert tail[j] in s[1..];
        }
      }
    }
  }

  /** Filtering twice by the same key is filtering once. */
  lemma RemoveKeyIdempotent<T, K>(key: T -> K, s: seq<T>, k: K)
    ensures RemoveKey(key, RemoveKey(key, s, k), k) == RemoveKey(key, s, k)
  {
    var r := RemoveKey(key, s, k);
    RemoveAbsentKey(key, r, k);
  }

  /** `s.map(x => key(x) === k ? f(x) : x)`: rewrites the records whose key is
      `k` and leaves the others, the length and the order alone. */
  function UpdateKey<T, K(==)>(key: T -> K, s: seq<T>, k: K, f: T -> T): (r: seq<T>)
    ensures |r| == |s|
    ensures forall i :: 0 <= i < |s| ==> r[i] == if key(s[i]) == k then f(s[i]) else s[i]
  {
    if s == [] then []
    else [if key(s[0]) == k then f(s[0]) else s[0]] + UpdateKey(key, s[1..], k, f)
  }

  /** When `f` keeps the key and undoes itself, updating twice restores the sequence. */
  lemma UpdateKeyTwice<T, K>(key: T -> K, s: seq<T>, k: K, f: T -> T)
    requires forall x :: key(x) == k ==> key(f(x)) == k && f(f(x)) == x
    ensures UpdateKey(key, UpdateKey(key, s, k, f), k, f) == s
  {
    var r := UpdateKey(key, UpdateKey(key, s, k, f), k, f);
    assert forall i :: 0 <= i < |s| ==> r[i] == s[i];
  }
}
