/** First-occurrence de-duplication by a key, the loop shape ("skip if the
    key is in `seen`, else add it and keep the element") that the collection
    service, the context assembly and both benchmark parsers share. */
module Dedup {

  /** Some element of `s` has key `k`. */
  ghost predicate Occurs<T, K>(s: seq<T>, key: T -> K, k: K) {
    exists i :: 0 <= i < |s| && key(s[i]) == k
  }

  /** The position of the first element of `s` whose key is `k`. */
  ghost function FirstIndex<T, K>(s: seq<T>, key: T -> K, k: K): (i: nat)
    requires Occurs(s, key, k)
    ensures i < |s| && key(s[i]) == k
  {
    if key(s[0]) == k then 0
    else
      assert Occurs(s[1..], key, k) by {
        var i :| 0 <= i < |s| && key(s[i]) == k;
        assert i > 0 && key(s[1..][i - 1]) == k;
      }
      1 + FirstIndex(s[1..], key, k)
  }

  /** No element before `FirstIndex` has key `k`. */
  lemma {:induction false} FirstIndexIsFirst<T, K>(s: seq<T>, key: T -> K, k: K)
    requires Occurs(s, key, k)
    ensures forall j :: 0 <= j < FirstIndex(s, key, k) ==> key(s[j]) != k
    decreases |s|
  {
    if key(s[0]) != k {
      var i :| 0 <= i < |s| && key(s[i]) == k;
      assert key(s[1..][i - 1]) == k;
      FirstIndexIsFirst(s[1..], key, k);
      forall j | 0 < j < FirstIndex(s, key, k) ensures key(s[j]) != k {
        assert s[j] == s[1..][j - 1];
      }
    }
  }

  /** The elements of `s` whose key was not seen before, first occurrence kept;
      `seen` holds the keys already taken. */
  function DedupeBy<T, K(==)>(s: seq<T>, key: T -> K, seen: set<K>): (r: seq<T>)
    ensures |r| <= |s|
  {
    if s == [] then []
    else if key(s[0]) in seen then DedupeBy(s[1..], key, seen)
    else [s[0]] + DedupeBy(s[1..], key, seen + {key(s[0])})
  }

  /** No two elements share a key. */
  ghost predicate KeysDistinct<T, K>(r: seq<T>, key: T -> K) {
    forall i, j :: 0 <= i < j < |r| ==> key(r[i]) != key(r[j])
  }

  /** Each kept element is the first element of `s` with its key, and that key
      was not seen before. */
  ghost predicate KeptAreFirst<T, K>(s: seq<T>, key: T -> K, seen: set<K>, r: seq<T>) {
    forall j :: 0 <= j < |r| ==>
      key(r[j]) !in seen && Occurs(s, key, key(r[j])) && r[j] == s[FirstIndex(s, key, key(r[j]))]
  }

  /** Keys `a` and `b` both occur in `s`, `a` first. */
  ghost predicate FirstBefore<T, K>(s: seq<T>, key: T -> K, a: K, b: K) {
    Occurs(s, key, a) && Occurs(s, key, b) && FirstIndex(s, key, a) < FirstIndex(s, key, b)
  }

  /** Kept elements come in the order of their keys' first occurrences in `s`. */
  ghost predicate KeptInOrder<T, K>(s: seq<T>, key: T -> K, r: seq<T>) {
    forall i, j :: 0 <= i < j < |r| ==> FirstBefore(s, key, key(r[i]), key(r[j]))
  }

  /** Every key of `s` that was not seen has a kept element. */
  ghost predicate UnseenKept<T, K>(s: seq<T>, key: T -> K, seen: set<K>, r: seq<T>) {
    forall i :: 0 <= i < |s| && key(s[i]) !in seen ==> exists j :: 0 <= j < |r| && key(r[j]) == key(s[i])
  }

  /** Dropping a head whose key is not `k` shifts the first index of `k` by one. */
  lemma FirstIndexTail<T, K>(s: seq<T>, key: T -> K, k: K)
    requires s != [] && key(s[0]) != k && Occurs(s[1..], key, k)
    ensures Occurs(s, key, k) && FirstIndex(s, key, k) == 1 + FirstIndex(s[1..], key, k)
  {
    var i :| 0 <= i < |s[1..]| && key(s[1..][i]) == k;
    assert key(s[i + 1]) == k;
  }

  lemma {:induction false} DedupeByKeptAreFirst<T, K>(s: seq<T>, key: T -> K, seen: set<K>)
    ensures KeptAreFirst(s, key, seen, DedupeBy(s, key, seen))
    decreases |s|
  {
    if s != [] {
      var k0 := key(s[0]);
      if k0 in seen {
        var r := DedupeBy(s[1..], key, seen);
        DedupeByKeptAreFirst(s[1..], key, seen);
        forall j | 0 <= j < |r|
          ensures key(r[j]) !in seen && Occurs(s, key, key(r[j])) && r[j] == s[FirstIndex(s, key, key(r[j]))]
        {
          FirstIndexTail(s, key, key(r[j]));
        }
      } else {
        var r' := DedupeBy(s[1..], key, seen + {k0});
        var r := [s[0]] + r';
        DedupeByKeptAreFirst(s[1..], key, seen + {k0});
        assert Occurs(s, key, k0);
        forall j | 0 <= j < |r|
          ensures key(r[j]) !in seen && Occurs(s, key, key(r[j])) && r[j] == s[FirstIndex(s, key, key(r[j]))]
        {
          if j > 0 {
            assert r[j] == r'[j - 1];
            FirstIndexTail(s, key, key(r[j]));
          }
        }
      }
    }
  }

  /** Two keys that both occur after a head with neither key keep their
      relative order when the head is put back. */
  lemma FirstBeforeTail<T, K>(s: seq<T>, key: T -> K, a: K, b: K)
    requires s != [] && key(s[0]) != a && key(s[0]) != b
    requires FirstBefore(s[1..], key, a, b)
    ensures FirstBefore(s, key, a, b)
  {
    FirstIndexTail(s, key, a);
    FirstIndexTail(s, key, b);
  }

  lemma {:induction false} DedupeByKeptInOrder<T, K>(s: seq<T>, key: T -> K, seen: set<K>)
    ensures KeptInOrder(s, key, DedupeBy(s, key, seen))
    decreases |s|
  {
    if s != [] {
      var k0 := key(s[0]);
      if k0 in seen {
        DedupeByKeptAreFirst(s[1..], key, seen);
        DedupeByKeptInOrder(s[1..], key, seen);
        KeptInOrderSkip(s, key, seen, DedupeBy(s[1..], key, seen));
      } else {
        DedupeByKeptAreFirst(s[1..], key, seen + {k0});
        DedupeByKeptInOrder(s[1..], key, seen + {k0});
        KeptInOrderKeep(s, key, seen, DedupeBy(s[1..], key, seen + {k0}));
      }
    }
  }

  /** The order is kept when a head with a seen key is skipped. */
  lemma KeptInOrderSkip<T, K>(s: seq<T>, key: T -> K, seen: set<K>, r: seq<T>)
    requires s != [] && key(s[0]) in seen
    requires KeptAreFirst(s[1..], key, seen, r) && KeptInOrder(s[1..], key, r)
    ensures KeptInOrder(s, key, r)
  {
    forall i, j | 0 <= i < j < |r| ensures FirstBefore(s, key, key(r[i]), key(r[j])) {
      FirstBeforeTail(s, key, key(r[i]), key(r[j]));
    }
  }

  /** The order is kept when a head with a new key is kept in front. */
  lemma KeptInOrderKeep<T, K>(s: seq<T>, key: T -> K, seen: set<K>, r': seq<T>)
    requires s != [] && key(s[0]) !in seen
    requires KeptAreFirst(s[1..], key, seen + {key(s[0])}, r') && KeptInOrder(s[1..], key, r')
    ensures KeptInOrder(s, key, [s[0]] + r')
  {
    var r := [s[0]] + r';
    assert Occurs(s, key, key(s[0]));
    forall i, j | 0 <= i < j < |r| ensures FirstBefore(s, key, key(r[i]), key(r[j])) {
      assert r[j] == r'[j - 1];
      FirstIndexTail(s, key, key(r[j]));
      if i > 0 {
        assert r[i] == r'[i - 1];
        FirstBeforeTail(s, key, key(r[i]), key(r[j]));
      }
    }
  }

  lemma {:induction false} DedupeByUnseenKept<T, K>(s: seq<T>, key: T -> K, seen: set<K>)
    ensures UnseenKept(s, key, seen, DedupeBy(s, key, seen))
    decreases |s|
  {
    if s != [] {
      var k0 := key(s[0]);
      var t := s[1..];
      if k0 in seen {
        var r := DedupeBy(t, key, seen);
        DedupeByUnseenKept(t, key, seen);
        forall i | 0 <= i < |s| && key(s[i]) !in seen
          ensures exists j :: 0 <= j < |r| && key(r[j]) == key(s[i])
        {
          assert i > 0 && key(t[i - 1]) == key(s[i]);
        }
      } else {
        var r' := DedupeBy(t, key, seen + {k0});
        var r := [s[0]] + r';
        DedupeByUnseenKept(t, key, seen + {k0});
        forall i | 0 <= i < |s| && key(s[i]) !in seen
          ensures exists j :: 0 <= j < |r| && key(r[j]) == key(s[i])
        {
          if key(s[i]) == k0 {
            assert key(r[0]) == key(s[i]);
          } else {
            assert i > 0 && key(t[i - 1]) == key(s[i]);
            var j' :| 0 <= j' < |r'| && key(r'[j']) == key(s[i]);
            assert key(r[j' + 1]) == key(s[i]);
          }
        }
      }
    }
  }

  /** First-occurrence de-duplication keeps at most one element per key. */
  lemma DedupeByKeysDistinct<T, K>(s: seq<T>, key: T -> K, seen: set<K>)
    ensures KeysDistinct(DedupeBy(s, key, seen), key)
  {
    DedupeByKeptInOrder(s, key, seen);
  }

  /** Every kept element is an element of the input. */
  lemma DedupeBySubset<T, K>(s: seq<T>, key: T -> K, seen: set<K>)
    ensures forall x :: x in DedupeBy(s, key, seen) ==> x in s
  {
    DedupeByKeptAreFirst(s, key, seen);
    var r := DedupeBy(s, key, seen);
    forall x | x in r ensures x in s {
      var j :| 0 <= j < |r| && r[j] == x;
      assert r[j] == s[FirstIndex(s, key, key(r[j]))];
    }
  }

  /** The key function that makes `DedupeBy` a plain de-duplication. */
  function Id<T>(x: T): T { x }

  /** Plain first-occurrence de-duplication (`key` the identity, nothing seen). */
  function Dedupe<T(==)>(s: seq<T>): seq<T> {
    DedupeBy(s, Id, {})
  }

  /** `Dedupe` has no duplicates. */
  lemma DedupeDistinct<T>(s: seq<T>)
    ensures forall i, j :: 0 <= i < j < |Dedupe(s)| ==> Dedupe(s)[i] != Dedupe(s)[j]
  {
    DedupeByKeysDistinct(s, Id, {});
  }

  /** `Dedupe` holds exactly the input's elements. */
  lemma DedupeMembers<T>(s: seq<T>)
    ensures forall x :: x in Dedupe(s) <==> x in s
  {
    var r := Dedupe(s);
    DedupeBySubset(s, Id, {});
    DedupeByUnseenKept(s, Id, {});
    forall x | x in s ensures x in r {
      var i :| 0 <= i < |s| && s[i] == x;
      assert Id(s[i]) !in {};
      var j :| 0 <= j < |r| && Id(r[j]) == Id(s[i]);
    }
  }

  /** `Dedupe` keeps the elements in the order of their first occurrence. */
  lemma DedupeFirstOrder<T>(s: seq<T>)
    ensures forall i, j :: 0 <= i < j < |Dedupe(s)| ==> FirstBefore(s, Id, Dedupe(s)[i], Dedupe(s)[j])
  {
    DedupeByKeptInOrder(s, Id, {});
  }

  /** `DedupeBy` taken one element at a time: the state a loop with a `seen`
      set reaches after the first `n` elements. */
  lemma {:induction false} DedupeByStep<T, K>(s: seq<T>, key: T -> K, seen: set<K>, x: T)
    ensures DedupeBy(s + [x], key, seen)
            == DedupeBy(s, key, seen) + (if key(x) in SeenAfter(s, key, seen) then [] else [x])
    decreases |s|
  {
    if s == [] {
      assert SeenAfter(s, key, seen) == seen;
      assert [x][1..] == [];
    } else {
      assert (s + [x])[0] == s[0];
      assert (s + [x])[1..] == s[1..] + [x];
      SeenAfterCons(s, key, seen);
      if key(s[0]) in seen {
        assert seen + {key(s[0])} == seen;
        DedupeByStep(s[1..], key, seen, x);
      } else {
        DedupeByStep(s[1..], key, seen + {key(s[0])}, x);
      }
    }
  }

  /** The `seen` set after the elements of `s`: the old one plus every key of `s`. */
  function SeenAfter<T, K(==)>(s: seq<T>, key: T -> K, seen: set<K>): set<K> {
    seen + set i | 0 <= i < |s| :: key(s[i])
  }

  /** Taking the head first and the tail after gives the same `seen` set. */
  lemma SeenAfterCons<T, K>(s: seq<T>, key: T -> K, seen: set<K>)
    requires s != []
    ensures SeenAfter(s, key, seen) == SeenAfter(s[1..], key, seen + {key(s[0])})
  {
    var l := set i | 0 <= i < |s| :: key(s[i]);
    var m := set i | 0 <= i < |s[1..]| :: key(s[1..][i]);
    forall k | k in l ensures k == key(s[0]) || k in m {
      var i :| 0 <= i < |s| && key(s[i]) == k;
      if i > 0 { assert key(s[1..][i - 1]) == k; }
    }
    forall k | k in m ensures k in l {
      var i :| 0 <= i < |s[1..]| && key(s[1..][i]) == k;
      assert key(s[i + 1]) == k;
    }
    assert key(s[0]) in l;
  }

  /** `SeenAfter` grows by one key per element. */
  lemma SeenAfterStep<T, K>(s: seq<T>, key: T -> K, seen: set<K>, x: T)
    ensures SeenAfter(s + [x], key, seen) == SeenAfter(s, key, seen) + {key(x)}
  {
    var l := set i | 0 <= i < |s + [x]| :: key((s + [x])[i]);
    var m := set i | 0 <= i < |s| :: key(s[i]);
    forall k | k in l ensures k in m + {key(x)} {
      var i :| 0 <= i < |s + [x]| && key((s + [x])[i]) == k;
      if i < |s| { assert key(s[i]) == k; }
    }
    forall k | k in m ensures k in l {
      var i :| 0 <= i < |s| && key(s[i]) == k;
      assert key((s + [x])[i]) == k;
    }
    assert key((s + [x])[|s|]) == key(x);
  }
}
