/** A Ruby `Hash` with symbol keys and integer values, as its list of entries in
    insertion order: the commission hash and the option-price hash are both of
    this kind, and their `keys` and `values.sum` are read in that order. */
module OrderedHash {

  type Hash<K> = seq<(K, int)>

  /** `h.keys`, in insertion order. */
  function Keys<K(==)>(h: Hash<K>): (ks: seq<K>)
    ensures |ks| == |h|
    ensures forall i {:trigger ks[i]} :: 0 <= i < |h| ==> ks[i] == h[i].0
  {
    if h == [] then [] else [h[0].0] + Keys(h[1..])
  }

  predicate Distinct<K(==)>(ks: seq<K>)
  {
    forall i, j :: 0 <= i < j < |ks| ==> ks[i] != ks[j]
  }

  lemma DistinctCons<K>(x: K, ks: seq<K>)
    ensures Distinct([x] + ks) <==> x !in ks && Distinct(ks)
  {
    var l := [x] + ks;
    if Distinct(l) {
      forall i, j | 0 <= i < j < |ks| ensures ks[i] != ks[j] {
        assert l[i + 1] != l[j + 1];
      }
      forall j | 0 <= j < |ks| ensures ks[j] != x {
        assert l[0] != l[j + 1];
      }
    }
  }

  /** A well-formed hash: no key occurs twice. */
  predicate IsHash<K(==)>(h: Hash<K>)
  {
    Distinct(Keys(h))
  }

  /** `h.values.sum`. */
  function Sum<K(==)>(h: Hash<K>): int
  {
    if h == [] then 0 else h[0].1 + Sum(h[1..])
  }

  /** `h.key?(k) ? h[k] : 0`. */
  function Get<K(==)>(h: Hash<K>, k: K): (v: int)
    ensures k !in Keys(h) ==> v == 0
    ensures k in Keys(h) ==> (k, v) in h
  {
    if h == [] then 0
    else if h[0].0 == k then h[0].1
    else Get(h[1..], k)
  }

  /** `h[k] = v`: the key then maps to `v`, and the value sum changes by the
      difference. */
  function Put<K(==)>(h: Hash<K>, k: K, v: int): (r: Hash<K>)
    ensures Get(r, k) == v
    ensures Sum(r) == Sum(h) - Get(h, k) + v
  {
    if h == [] then [(k, v)]
    else if h[0].0 == k then
      var r := [(k, v)] + h[1..];
      assert r[1..] == h[1..];
      r
    else
      var t := Put(h[1..], k, v);
      var r := [h[0]] + t;
      assert r[1..] == t;
      r
  }

  /** An existing key keeps its position; a new key is appended at the end. */
  lemma {:induction false} KeysAfterPut<K>(h: Hash<K>, k: K, v: int)
    ensures k in Keys(h) ==> Keys(Put(h, k, v)) == Keys(h)
    ensures k !in Keys(h) ==> Keys(Put(h, k, v)) == Keys(h) + [k]
  {
    if h == [] {
    } else if h[0].0 == k {
      var r := Put(h, k, v);
      assert r == [(k, v)] + h[1..];
      assert Keys(r) == [k] + Keys(h[1..]);
      assert Keys(h) == [k] + Keys(h[1..]);
    } else {
      KeysAfterPut(h[1..], k, v);
      KeysPutPastHead(h, k, v);
      ConsKeys(h[0].0, Keys(h[1..]), Keys(Put(h[1..], k, v)), k);
    }
  }

  /** The step of `KeysAfterPut`, on plain key sequences: a first key other than
      `k` is kept in front of whatever storing did to the rest. */
  lemma ConsKeys<K>(x: K, ks: seq<K>, put: seq<K>, k: K)
    requires x != k
    requires k in ks ==> put == ks
    requires k !in ks ==> put == ks + [k]
    ensures k in [x] + ks ==> [x] + put == [x] + ks
    ensures k !in [x] + ks ==> [x] + put == [x] + ks + [k]
  {
    assert k in [x] + ks <==> k in ks;
  }

  /** Storing under a key other than the first leaves the first entry in front. */
  lemma KeysPutPastHead<K>(h: Hash<K>, k: K, v: int)
    requires h != [] && h[0].0 != k
    ensures Keys(Put(h, k, v)) == [h[0].0] + Keys(Put(h[1..], k, v))
    ensures Keys(h) == [h[0].0] + Keys(h[1..])
  {
    assert Put(h, k, v)[1..] == Put(h[1..], k, v);
  }

  /** Storing keeps the keys distinct. */
  lemma HashAfterPut<K>(h: Hash<K>, k: K, v: int)
    requires IsHash(h)
    ensures IsHash(Put(h, k, v))
  {
    KeysAfterPut(h, k, v);
    var ks := Keys(h);
    if k !in ks {
      var kr := ks + [k];
      forall i, j | 0 <= i < j < |kr| ensures kr[i] != kr[j] {
        if j == |ks| { assert kr[i] == ks[i]; } else { assert kr[i] == ks[i] && kr[j] == ks[j]; }
      }
    }
  }

  /** Storing under `k` leaves every other key's value as it was. */
  lemma {:induction false} GetAfterPut<K>(h: Hash<K>, k: K, v: int, other: K)
    requires other != k
    ensures Get(Put(h, k, v), other) == Get(h, other)
  {
    if h != [] && h[0].0 != k {
      GetAfterPut(h[1..], k, v, other);
      assert Put(h, k, v)[1..] == Put(h[1..], k, v);
    } else if h != [] {
      assert Put(h, k, v)[1..] == h[1..];
    }
  }

  /** `h.values.sum` of a hash whose keys are among three distinct keys is the
      sum of the three lookups. */
  lemma {:induction false} SumOfThree<K>(h: Hash<K>, a: K, b: K, c: K)
    requires IsHash(h)
    requires a != b && b != c && a != c
    requires forall k :: k in Keys(h) ==> k == a || k == b || k == c
    ensures Sum(h) == Get(h, a) + Get(h, b) + Get(h, c)
  {
    if h != [] {
      var t := h[1..];
      DistinctCons(h[0].0, Keys(t));
      assert Keys(h) == [h[0].0] + Keys(t);
      forall k | k in Keys(t) ensures k == a || k == b || k == c {
        assert k in Keys(h);
      }
      SumOfThree(t, a, b, c);
      var k0 := h[0].0;
      assert k0 in Keys(h);
      assert Get(t, k0) == 0;
      if k0 == a {
        assert Get(h, a) == h[0].1 && Get(h, b) == Get(t, b) && Get(h, c) == Get(t, c);
      } else if k0 == b {
        assert Get(h, b) == h[0].1 && Get(h, a) == Get(t, a) && Get(h, c) == Get(t, c);
      } else {
        assert Get(h, c) == h[0].1 && Get(h, a) == Get(t, a) && Get(h, b) == Get(t, b);
      }
    }
  }

  /** The distinct elements of `s`, in the order of their first occurrence:
      the keys a hash ends up with when `s` is inserted into an empty hash. */
  function FirstSeen<K(==,!new)>(s: seq<K>): (r: seq<K>)
    ensures Distinct(r)
    ensures forall x :: x in r <==> x in s
  {
    if s == [] then []
    else
      var d := FirstSeen(s[..|s| - 1]);
      assert forall x :: x in s <==> x in s[..|s| - 1] || x == s[|s| - 1] by {
        assert s == s[..|s| - 1] + [s[|s| - 1]];
      }
      if s[|s| - 1] in d then d else d + [s[|s| - 1]]
  }

  /** Of two elements of `r`, the earlier one occurs in `s` at a position up
      to which the later one has not yet occurred. */
  ghost predicate FirstOccurrenceOrder<K>(s: seq<K>, r: seq<K>)
  {
    forall i, j :: 0 <= i < j < |r| ==>
      exists a :: 0 <= a < |s| && s[a] == r[i] && r[j] !in s[..a + 1]
  }

  /** `FirstSeen` lists the elements in the order of their first occurrence:
      of two listed elements, the earlier one occurs in `s` at a position up to
      which the later one has not yet occurred. */
  lemma {:induction false} FirstSeenOrder<K(!new)>(s: seq<K>)
    ensures FirstOccurrenceOrder(s, FirstSeen(s))
  {
    if s != [] {
      var init, x := s[..|s| - 1], s[|s| - 1];
      var d := FirstSeen(init);
      var r := FirstSeen(s);
      FirstSeenOrder(init);
      assert r == if x in d then d else d + [x];
      forall i, j | 0 <= i < j < |r|
        ensures exists a :: 0 <= a < |s| && s[a] == r[i] && r[j] !in s[..a + 1]
      {
        if j < |d| {
          assert r[i] == d[i] && r[j] == d[j];
          assert exists a :: 0 <= a < |init| && init[a] == d[i] && d[j] !in init[..a + 1];
          var a :| 0 <= a < |init| && init[a] == d[i] && d[j] !in init[..a + 1];
          assert s[..a + 1] == init[..a + 1];
          assert s[a] == r[i] && r[j] !in s[..a + 1];
        } else {
          assert r[i] == d[i] && r[j] == x && x !in d;
          assert d[i] in init;
          var a :| 0 <= a < |init| && init[a] == d[i];
          assert s[..a + 1] == init[..a + 1];
          assert x !in init;
          assert forall y :: y in init[..a + 1] ==> y in init;
          assert s[a] == r[i] && r[j] !in s[..a + 1];
        }
      }
    }
  }
}
