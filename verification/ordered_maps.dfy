/** JavaScript's `Map`: a finite map that remembers insertion order.
    `set` on a key already present replaces its value in place, `delete`
    removes the entry, and `Array.from(m.values())` lists the values in
    insertion order. Modelled as a sequence of key/value pairs. */
module OrderedMaps {
  import opened Options

  type OMap<K, V> = seq<(K, V)>

  /** `m.get(k)`: the value of the first entry with key `k`. */
  function Get<K(==), V>(m: OMap<K, V>, k: K): Option<V>
  {
    if |m| == 0 then None
    else if m[0].0 == k then Some(m[0].1)
    else Get(m[1..], k)
  }

  /** `m.has(k)`. */
  predicate Has<K(==), V>(m: OMap<K, V>, k: K) {
    Get(m, k).Some?
  }

  /** No key occurs twice: every map built by `Set` and `Delete` from the
      empty map has this shape, and then `|m|` is `m.size`. */
  predicate Valid<K(==), V>(m: OMap<K, V>) {
    |m| == 0 || (!Has(m[1..], m[0].0) && Valid(m[1..]))
  }

  /** `Array.from(m.values())`. */
  function Values<K, V>(m: OMap<K, V>): (vs: seq<V>)
    ensures |vs| == |m|
    ensures forall i :: 0 <= i < |m| ==> vs[i] == m[i].1
  {
    seq(|m|, i requires 0 <= i < |m| => m[i].1)
  }

  /** The keys in insertion order, as `Array.from(m.keys())` lists them. */
  function Keys<K, V>(m: OMap<K, V>): (ks: seq<K>)
    ensures |ks| == |m|
    ensures forall i :: 0 <= i < |m| ==> ks[i] == m[i].0
  {
    seq(|m|, i requires 0 <= i < |m| => m[i].0)
  }

  /** Position of the first entry with key `k`; `|m|` when there is none. */
  function KeyIndex<K(==), V>(m: OMap<K, V>, k: K): (i: nat)
    ensures i <= |m|
    ensures i < |m| <==> Has(m, k)
    ensures i < |m| ==> m[i].0 == k && Get(m, k) == Some(m[i].1)
    ensures forall j :: 0 <= j < i ==> m[j].0 != k
  {
    if |m| == 0 then 0
    else if m[0].0 == k then 0
    else 1 + KeyIndex(m[1..], k)
  }

  /** Past a head entry with another key, positions shift by one. */
  lemma KeyIndexPastHead<K, V>(m: OMap<K, V>, k: K)
    requires |m| > 0 && m[0].0 != k
    ensures KeyIndex(m, k) == 1 + KeyIndex(m[1..], k)
    ensures Has(m, k) == Has(m[1..], k)
  {
  }

  /** `m.set(k, v)`: a present key keeps its position, a new key is appended. */
  function Set<K(==,!new), V>(m: OMap<K, V>, k: K, v: V): (r: OMap<K, V>)
    ensures Get(r, k) == Some(v)
    ensures forall j :: j != k ==> Get(r, j) == Get(m, j)
    ensures |r| == if Has(m, k) then |m| else |m| + 1
    ensures Valid(m) ==> Valid(r)
    ensures !Has(m, k) ==> r == m + [(k, v)]
    ensures Has(m, k) ==> r == m[..KeyIndex(m, k)] + [(k, v)] + m[KeyIndex(m, k) + 1..]
  {
    if |m| == 0 then [(k, v)]
    else if m[0].0 == k then [(k, v)] + m[1..]
    else
      var rest := Set(m[1..], k, v);
      assert ([m[0]] + rest)[1..] == rest;
      if Has(m, k) then
        ConsSplice(m, k, [(k, v)], rest);
        [m[0]] + rest
      else [m[0]] + rest
  }

  /** In a valid map, `set` on a present key changes exactly that key's
      entry, in place. */
  lemma SetInPlace<K(!new), V>(m: OMap<K, V>, k: K, v: V)
    requires Valid(m) && Has(m, k)
    ensures |Set(m, k, v)| == |m|
    ensures forall i :: 0 <= i < |m| ==>
      Set(m, k, v)[i] == (if m[i].0 == k then (k, v) else m[i])
  {
    ReplacedInPlace(m, k, v, Set(m, k, v));
  }

  /** Putting back the head of `m` in front of a splice at `k`'s entry of
      `m[1..]` gives the same splice at `k`'s entry of `m`. */
  lemma ConsSplice<K, V>(m: OMap<K, V>, k: K, mid: OMap<K, V>, rest: OMap<K, V>)
    requires |m| > 0 && m[0].0 != k && Has(m, k)
    requires rest == m[1..][..KeyIndex(m[1..], k)] + mid + m[1..][KeyIndex(m[1..], k) + 1..]
    ensures [m[0]] + rest == m[..KeyIndex(m, k)] + mid + m[KeyIndex(m, k) + 1..]
  {
    var i := KeyIndex(m[1..], k);
    assert KeyIndex(m, k) == i + 1;
    SpliceCons(m, i, mid);
  }

  /** Splicing commutes with putting back the head. */
  lemma SpliceCons<T>(m: seq<T>, i: nat, mid: seq<T>)
    requires i + 2 <= |m|
    ensures [m[0]] + (m[1..][..i] + mid + m[1..][i + 1..]) == m[..i + 1] + mid + m[i + 2..]
  {
    assert m[..i + 1] == [m[0]] + m[1..][..i];
    assert m[i + 2..] == m[1..][i + 1..];
  }

  /** In a valid map no entry after the first one with key `k` has key `k`. */
  lemma {:induction false} NoLaterKey<K, V>(m: OMap<K, V>, k: K)
    requires Valid(m)
    ensures forall j :: KeyIndex(m, k) < j < |m| ==> m[j].0 != k
  {
    if |m| > 0 {
      NoLaterKey(m[1..], k);
      if m[0].0 == k {
        assert KeyIndex(m[1..], k) == |m| - 1;
        forall j | 0 < j < |m| ensures m[j].0 != k { assert m[1..][j - 1] == m[j]; }
      } else {
        forall j | KeyIndex(m, k) < j < |m| ensures m[j].0 != k { assert m[1..][j - 1] == m[j]; }
      }
    }
  }

  /** Splicing `(k, v)` over the entry of `k` replaces exactly that entry. */
  lemma ReplacedInPlace<K, V>(m: OMap<K, V>, k: K, v: V, r: OMap<K, V>)
    requires Valid(m) && Has(m, k)
    requires r == m[..KeyIndex(m, k)] + [(k, v)] + m[KeyIndex(m, k) + 1..]
    ensures forall i :: 0 <= i < |m| ==> r[i] == (if m[i].0 == k then (k, v) else m[i])
  {
    NoLaterKey(m, k);
    var ki := KeyIndex(m, k);
    forall i | 0 <= i < |m| ensures r[i] == (if m[i].0 == k then (k, v) else m[i]) {
      if i < ki {
        assert r[i] == m[..ki][i];
      } else if i > ki {
        assert r[i] == m[ki + 1..][i - ki - 1];
      }
    }
  }

  /** `set` never moves a key: the key order is kept, a new key goes last. */
  lemma {:induction false} SetKeys<K(!new), V>(m: OMap<K, V>, k: K, v: V)
    ensures Keys(Set(m, k, v)) == if Has(m, k) then Keys(m) else Keys(m) + [k]
  {
    var r := Set(m, k, v);
    if Has(m, k) {
      var ki := KeyIndex(m, k);
      forall i | 0 <= i < |m| ensures r[i].0 == m[i].0 {
        if i < ki {
          assert r[i] == m[..ki][i];
        } else if i > ki {
          assert r[i] == m[ki + 1..][i - ki - 1];
        }
      }
    } else {
      assert forall i :: 0 <= i < |m| ==> r[i] == m[i];
    }
  }

  /** `m.delete(k)`: every entry with key `k` is dropped, the rest keep their order. */
  function Delete<K(==,!new), V>(m: OMap<K, V>, k: K): (r: OMap<K, V>)
    ensures Get(r, k) == None
    ensures forall j :: j != k ==> Get(r, j) == Get(m, j)
    ensures Valid(m) ==> Valid(r)
    ensures Valid(m) ==> |r| == if Has(m, k) then |m| - 1 else |m|
    ensures !Has(m, k) ==> r == m
    ensures Valid(m) && Has(m, k) ==> r == m[..KeyIndex(m, k)] + m[KeyIndex(m, k) + 1..]
  {
    if |m| == 0 then []
    else if m[0].0 == k then
      var r := Delete(m[1..], k);
      assert m[..0] + m[1..] == m[1..];
      r
    else
      var rest := Delete(m[1..], k);
      DeleteBehindHead(m, k, rest);
      [m[0]] + rest
  }

  /** The step of `Delete` past a head entry with another key: what the
      recursive call promises for `m[1..]` carries over to `m`. */
  lemma DeleteBehindHead<K(!new), V>(m: OMap<K, V>, k: K, rest: OMap<K, V>)
    requires |m| > 0 && m[0].0 != k
    requires Get(rest, k) == None
    requires forall j :: j != k ==> Get(rest, j) == Get(m[1..], j)
    requires Valid(m[1..]) ==> Valid(rest)
    requires Valid(m[1..]) ==> |rest| == if Has(m[1..], k) then |m| - 2 else |m| - 1
    requires !Has(m[1..], k) ==> rest == m[1..]
    requires Valid(m[1..]) && Has(m[1..], k) ==>
      rest == m[1..][..KeyIndex(m[1..], k)] + m[1..][KeyIndex(m[1..], k) + 1..]
    ensures Get([m[0]] + rest, k) == None
    ensures forall j :: j != k ==> Get([m[0]] + rest, j) == Get(m, j)
    ensures Valid(m) ==> Valid([m[0]] + rest)
    ensures Valid(m) ==> |[m[0]] + rest| == if Has(m, k) then |m| - 1 else |m|
    ensures !Has(m, k) ==> [m[0]] + rest == m
    ensures Valid(m) && Has(m, k) ==> [m[0]] + rest == m[..KeyIndex(m, k)] + m[KeyIndex(m, k) + 1..]
  {
    var r := [m[0]] + rest;
    assert r[1..] == rest;
    assert Has(m, k) == Has(m[1..], k);
    assert [m[0]] + m[1..] == m;
    forall j | j != k ensures Get(r, j) == Get(m, j) {
      if m[0].0 != j {
        assert Get(r, j) == Get(rest, j);
      }
    }
    if Valid(m) {
      assert Get(rest, m[0].0) == None;
      if Has(m, k) {
        ConsSplice(m, k, [], rest);
      }
    }
  }

  /** A present key's entry is an element of the sequence. */
  lemma {:induction false} GetIsEntry<K, V>(m: OMap<K, V>, k: K)
    requires Has(m, k)
    ensures (k, Get(m, k).value) in m
  {
    if m[0].0 != k {
      GetIsEntry(m[1..], k);
    }
  }

  /** In a valid map every entry is what `get` returns for its key. */
  lemma {:induction false} EntryIsGet<K, V>(m: OMap<K, V>, k: K, v: V)
    requires Valid(m) && (k, v) in m
    ensures Get(m, k) == Some(v)
  {
    if m[0] != (k, v) {
      assert (k, v) in m[1..];
      EntryIsGet(m[1..], k, v);
    }
  }

  /** `delete` keeps the order of the keys that remain. */
  lemma {:induction false} DeleteKeys<K(!new), V>(m: OMap<K, V>, k: K)
    requires Valid(m)
    ensures Keys(Delete(m, k)) ==
      if Has(m, k) then Keys(m)[..KeyIndex(m, k)] + Keys(m)[KeyIndex(m, k) + 1..] else Keys(m)
  {
    if Has(m, k) {
      var ki := KeyIndex(m, k);
      assert Delete(m, k) == m[..ki] + m[ki + 1..];
      KeysOfSplice(m, ki);
    }
  }

  /** Dropping entry `i` drops key `i`. */
  lemma {:induction false} KeysOfSplice<K, V>(m: OMap<K, V>, i: nat)
    requires i < |m|
    ensures Keys(m[..i] + m[i + 1..]) == Keys(m)[..i] + Keys(m)[i + 1..]
  {
    var r := m[..i] + m[i + 1..];
    forall j | 0 <= j < |r| ensures r[j].0 == (Keys(m)[..i] + Keys(m)[i + 1..])[j] {
      if j < i {
        assert r[j] == m[j];
      } else {
        assert r[j] == m[j + 1];
      }
    }
  }
}
