/** A map that remembers insertion order, as the Map of the source does. */
module OrderedMap {
  datatype OrdMap<!K(==,!new), V> = OrdMap(keys: seq<K>, at: map<K, V>) {
    ghost predicate Valid() {
      && Distinct(keys)
      && (forall k :: k in keys <==> k in at)
    }

    /** set: a new key goes to the end, a present one keeps its place. */
    function Put(k: K, v: V): OrdMap<K, V> {
      OrdMap(if k in at then keys else keys + [k], at[k := v])
    }

    function Delete(k: K): OrdMap<K, V> {
      OrdMap(Drop(keys, k), at - {k})
    }
  }

  function Empty<K(!new), V>(): OrdMap<K, V> { OrdMap([], map[]) }

  function Drop<K(==)>(keys: seq<K>, k: K): seq<K> {
    if keys == [] then [] else (if keys[0] == k then [] else [keys[0]]) + Drop(keys[1..], k)
  }

  /** The keys that satisfy p, in order. */
  function Filter<K>(keys: seq<K>, p: K -> bool): seq<K> {
    if keys == [] then [] else (if p(keys[0]) then [keys[0]] else []) + Filter(keys[1..], p)
  }

  ghost predicate Distinct<K>(keys: seq<K>) { forall i, j :: 0 <= i < j < |keys| ==> keys[i] != keys[j] }

  /** The last n elements. */
  function Newest<T>(s: seq<T>, n: nat): seq<T> { if |s| <= n then s else s[|s| - n..] }

  lemma {:induction false} DropMembers<K>(keys: seq<K>, k: K)
    ensures forall x :: x in Drop(keys, k) <==> x in keys && x != k
  {
    if keys != [] {
      DropMembers(keys[1..], k);
      assert keys == [keys[0]] + keys[1..];
    }
  }

  lemma {:induction false} DropDistinct<K>(keys: seq<K>, k: K)
    requires Distinct(keys)
    ensures Distinct(Drop(keys, k)) && |Drop(keys, k)| == |keys| - if k in keys then 1 else 0
  {
    if keys != [] {
      DropDistinct(keys[1..], k);
      DropMembers(keys[1..], k);
      assert keys == [keys[0]] + keys[1..];
      assert keys[0] !in keys[1..];
      var d := Drop(keys[1..], k);
      if keys[0] == k {
        assert Drop(keys, k) == d;
      } else {
        assert Drop(keys, k) == [keys[0]] + d && keys[0] !in d;
      }
    }
  }

  /** Deleting the oldest key just shortens the sequence. */
  lemma {:induction false} DropAbsent<K>(keys: seq<K>, k: K)
    requires k !in keys
    ensures Drop(keys, k) == keys
  {
    if keys != [] { DropAbsent(keys[1..], k); }
  }

  lemma {:induction false} DropAt<K>(keys: seq<K>, i: nat)
    requires i < |keys| && Distinct(keys)
    ensures Drop(keys, keys[i]) == keys[..i] + keys[i + 1..]
  {
    if i == 0 {
      DropAbsent(keys[1..], keys[0]);
    } else {
      DropAt(keys[1..], i - 1);
    }
  }

  lemma DeleteValid<K(!new), V>(m: OrdMap<K, V>, k: K)
    requires m.Valid()
    ensures m.Delete(k).Valid()
    ensures |m.Delete(k).keys| == |m.keys| - if k in m.at then 1 else 0
  {
    DropMembers(m.keys, k);
    DropDistinct(m.keys, k);
  }

  lemma PutValid<K(!new), V>(m: OrdMap<K, V>, k: K, v: V)
    requires m.Valid()
    ensures m.Put(k, v).Valid()
    ensures |m.Put(k, v).keys| == |m.keys| + if k in m.at then 0 else 1
  {
  }

  lemma {:induction false} FilterConcat<K>(xs: seq<K>, ys: seq<K>, p: K -> bool)
    ensures Filter(xs + ys, p) == Filter(xs, p) + Filter(ys, p)
  {
    if xs == [] {
      assert xs + ys == ys;
    } else {
      assert (xs + ys)[0] == xs[0] && (xs + ys)[1..] == xs[1..] + ys;
      FilterConcat(xs[1..], ys, p);
      var head := if p(xs[0]) then [xs[0]] else [];
      assert head + (Filter(xs[1..], p) + Filter(ys, p)) == (head + Filter(xs[1..], p)) + Filter(ys, p);
    }
  }

  lemma {:induction false} FilterMembers<K>(keys: seq<K>, p: K -> bool)
    ensures forall k :: k in Filter(keys, p) <==> k in keys && p(k)
  {
    if keys != [] {
      FilterMembers(keys[1..], p);
      assert keys == [keys[0]] + keys[1..];
    }
  }

  lemma {:induction false} FilterDistinct<K>(keys: seq<K>, p: K -> bool)
    requires Distinct(keys)
    ensures Distinct(Filter(keys, p))
  {
    if keys != [] {
      FilterDistinct(keys[1..], p);
      FilterMembers(keys[1..], p);
    }
  }

  lemma {:induction false} FilterAgree<K>(keys: seq<K>, p: K -> bool, q: K -> bool)
    requires forall k :: k in keys ==> p(k) == q(k)
    ensures Filter(keys, p) == Filter(keys, q)
  {
    if keys != [] { FilterAgree(keys[1..], p, q); }
  }

  /** Dropping a key drops it from every filter. */
  lemma {:induction false} FilterDrop<K>(keys: seq<K>, k: K, p: K -> bool)
    ensures Filter(Drop(keys, k), p) == Drop(Filter(keys, p), k)
  {
    if keys != [] {
      FilterDrop(keys[1..], k, p);
      var f := Filter(keys[1..], p);
      if p(keys[0]) {
        assert ([keys[0]] + f)[1..] == f;
      } else {
        assert [] + f == f;
      }
      var d := Drop(keys[1..], k);
      if keys[0] != k { assert ([keys[0]] + d)[1..] == d; } else { assert [] + d == d; }
    }
  }

  lemma {:induction false} FilterSplit<K>(keys: seq<K>, p: K -> bool, q: K -> bool)
    requires forall k :: k in keys ==> p(k) == !q(k)
    ensures |Filter(keys, p)| + |Filter(keys, q)| == |keys|
  {
    if keys != [] { FilterSplit(keys[1..], p, q); }
  }

  lemma FilterLast<K>(keys: seq<K>, k: K, p: K -> bool)
    ensures Filter(keys + [k], p) == Filter(keys, p) + if p(k) then [k] else []
  {
    FilterConcat(keys, [k], p);
  }

  /** A stricter filter undoes nothing of a weaker one before it. */
  lemma {:induction false} FilterNested<K>(keys: seq<K>, p: K -> bool, q: K -> bool)
    requires forall k :: k in keys && q(k) ==> p(k)
    ensures Filter(Filter(keys, p), q) == Filter(keys, q) && |Filter(keys, q)| <= |Filter(keys, p)|
  {
    if keys != [] {
      FilterNested(keys[1..], p, q);
      var kept := Filter(keys[1..], p);
      if p(keys[0]) {
        assert ([keys[0]] + kept)[1..] == kept;
      } else {
        assert [] + kept == kept;
      }
    }
  }

  lemma DropMiddle<K>(f: seq<K>, k: K, rest: seq<K>)
    requires Distinct(f + [k] + rest)
    ensures Drop(f + [k] + rest, k) == f + rest
  {
    var keys := f + [k] + rest;
    assert keys[|f|] == k && keys[..|f|] == f && keys[|f| + 1..] == rest;
    DropAt(keys, |f|);
  }

  /** What a loop that deletes the keys p rejects has left of ks when it has looked at the first i. */
  function Sifted<K>(ks: seq<K>, i: nat, p: K -> bool): seq<K>
    requires i <= |ks|
  {
    Filter(ks[..i], p) + ks[i..]
  }

  lemma SiftEnds<K>(ks: seq<K>, p: K -> bool)
    ensures Sifted(ks, 0, p) == ks && Sifted(ks, |ks|, p) == Filter(ks, p)
  {
    assert ks[..0] == [] && ks[0..] == ks && ks[..|ks|] == ks && ks[|ks|..] == [];
  }

  /** One more key looked at. */
  lemma SiftStep<K>(ks: seq<K>, i: nat, p: K -> bool)
    requires i < |ks| && Distinct(Sifted(ks, i, p))
    ensures ks[i] in Sifted(ks, i, p)
    ensures Sifted(ks, i + 1, p) == if p(ks[i]) then Sifted(ks, i, p) else Drop(Sifted(ks, i, p), ks[i])
  {
    var f, k, rest := Filter(ks[..i], p), ks[i], ks[i + 1..];
    assert ks[..i + 1] == ks[..i] + [k] && ks[i..] == [k] + rest;
    FilterLast(ks[..i], k, p);
    hide Filter, Drop;
    assert Sifted(ks, i, p) == f + [k] + rest;
    if p(k) {
      assert Sifted(ks, i + 1, p) == f + [k] + rest;
    } else {
      DropMiddle(f, k, rest);
      assert f + [] == f;
    }
  }

  // ----- maps cut down to some of their keys -----

  function In<K(!new)>(keep: set<K>): K -> bool { k => k in keep }

  /** The entries with these keys, in the order they had. */
  function Only<K(!new), V>(m: OrdMap<K, V>, keep: set<K>): OrdMap<K, V> {
    OrdMap(Filter(m.keys, In(keep)), map k | k in m.at && k in keep :: m.at[k])
  }

  function Elements<K>(s: seq<K>): set<K> { set k | k in s }

  lemma {:induction false} FilterAll<K>(keys: seq<K>, p: K -> bool)
    requires forall k :: k in keys ==> p(k)
    ensures Filter(keys, p) == keys
  {
    if keys != [] {
      FilterAll(keys[1..], p);
      assert keys == [keys[0]] + keys[1..];
    }
  }

  lemma {:induction false} FilterNone<K>(keys: seq<K>, p: K -> bool)
    requires forall k :: k in keys ==> !p(k)
    ensures Filter(keys, p) == []
  {
    if keys != [] { FilterNone(keys[1..], p); }
  }

  lemma {:induction false} DropFilter<K(!new)>(keys: seq<K>, keep: set<K>, k: K)
    ensures Drop(Filter(keys, In(keep)), k) == Filter(keys, In(keep - {k}))
  {
    if keys != [] {
      DropFilter(keys[1..], keep, k);
      var f := Filter(keys[1..], In(keep));
      if keys[0] in keep {
        assert ([keys[0]] + f)[1..] == f;
      } else {
        assert [] + f == f;
      }
    }
  }

  lemma OnlySelf<K(!new), V>(m: OrdMap<K, V>)
    requires m.Valid()
    ensures Only(m, m.at.Keys) == m
  {
    FilterAll(m.keys, In(m.at.Keys));
  }

  lemma OnlyValid<K(!new), V>(m: OrdMap<K, V>, keep: set<K>)
    requires m.Valid()
    ensures Only(m, keep).Valid() && |Only(m, keep).keys| <= |m.keys|
  {
    FilterDistinct(m.keys, In(keep));
    FilterMembers(m.keys, In(keep));
    FilterNested(m.keys, In(m.at.Keys), In(keep * m.at.Keys));
    FilterAll(m.keys, In(m.at.Keys));
    FilterAgree(m.keys, In(keep), In(keep * m.at.Keys));
  }

  lemma OnlyDelete<K(!new), V>(m: OrdMap<K, V>, keep: set<K>, k: K)
    ensures Only(m, keep).Delete(k) == Only(m, keep - {k})
  {
    DropFilter(m.keys, keep, k);
  }

  lemma OnlyOnly<K(!new), V>(m: OrdMap<K, V>, keep: set<K>, fewer: set<K>)
    requires fewer <= keep
    ensures Only(Only(m, keep), fewer) == Only(m, fewer)
  {
    FilterNested(m.keys, In(keep), In(fewer));
  }

  /** A valid map with just these of the keys, in the same order, and the same entries. */
  lemma OnlyIs<K(!new), V>(m: OrdMap<K, V>, n: OrdMap<K, V>, keep: set<K>)
    requires m.Valid() && n.Valid() && n.keys == Filter(m.keys, In(keep))
    requires forall k :: k in n.at ==> k in m.at && n.at[k] == m.at[k]
    ensures n == Only(m, keep)
  {
    FilterMembers(m.keys, In(keep));
    assert forall k :: k in n.at <==> k in n.keys;
  }

  lemma FilterSuffix<K(!new)>(f: seq<K>, m: nat)
    requires Distinct(f) && m <= |f|
    ensures Filter(f, In(Elements(f[m..]))) == f[m..]
  {
    var front, back := f[..m], f[m..];
    var q := In(Elements(back));
    hide Filter;
    assert f == front + back;
    FilterConcat(front, back, q);
    assert Filter(front, q) == [] by {
      assert forall k :: k in front ==> k !in back;
      FilterNone(front, q);
    }
    FilterAll(back, q);
  }

  /** The newest of the keys that p picks out are picked out by being among them. */
  lemma FilterNewest<K(!new)>(keys: seq<K>, p: K -> bool, n: nat)
    requires Distinct(keys)
    ensures Filter(keys, In(Elements(Newest(Filter(keys, p), n)))) == Newest(Filter(keys, p), n)
  {
    FilterDistinct(keys, p);
    FilterMembers(keys, p);
    hide Filter;
    var f := Filter(keys, p);
    var m := if |f| <= n then 0 else |f| - n;
    FilterSuffix(f, m);
    assert forall k :: k in f[m..] ==> k in f;
    FilterNested(keys, p, In(Elements(f[m..])));
  }
}
