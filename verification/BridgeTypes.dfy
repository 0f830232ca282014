/** Vocabulary the modules share. */
module BridgeTypes {
  datatype Option<+T> = None | Some(value: T)

  const TWO_TO_16 := 0x1_0000
  const TWO_TO_32 := 0x1_0000_0000
  const TWO_TO_64 := 0x1_0000_0000_0000_0000

  type u8 = x: int | 0 <= x < 0x100
  type u16 = x: int | 0 <= x < TWO_TO_16
  type u32 = x: int | 0 <= x < TWO_TO_32
  type u64 = x: int | 0 <= x < TWO_TO_64

  type Bytes = seq<u8>

  /** A data-control offer, by the identity of its protocol object. */
  type OfferId = nat
  /** An X connection; identities are never reused. */
  type ClientId = nat
  /** A `ConvertSelection` an X client is waiting on. */
  type ConversionId = nat
  /** A monotonic `Instant`, in milliseconds. */
  type Millis = nat

  datatype Sel = Clipboard | Primary

  /** One value for each of the two bridged selections. */
  datatype Two<T> = Two(clipboard: T, primary: T) {
    function Get(k: Sel): T {
      if k == Clipboard then clipboard else primary
    }

    function Set(k: Sel, v: T): (r: Two<T>)
      ensures r.Get(k) == v
      ensures forall j: Sel :: j != k ==> r.Get(j) == Get(j)
    {
      if k == Clipboard then Two(v, primary) else Two(clipboard, v)
    }
  }

  function Concat(chunks: seq<Bytes>): Bytes {
    if chunks == [] then [] else chunks[0] + Concat(chunks[1..])
  }

  lemma {:induction false} ConcatSnoc(chunks: seq<Bytes>, c: Bytes)
    ensures Concat(chunks + [c]) == Concat(chunks) + c
  {
    if chunks == [] {
      assert Concat([c]) == c + Concat([c][1..]);
    } else {
      assert (chunks + [c])[1..] == chunks[1..] + [c];
      ConcatSnoc(chunks[1..], c);
    }
  }
}

/** The sum of the multisets held by a map, with what adding and removing a key does to it. */
module MapSum {
  ghost function Sum<K, V>(m: map<K, multiset<V>>): multiset<V> {
    if m == map[] then multiset{} else
      var k :| k in m;
      m[k] + Sum(m - {k})
  }

  lemma {:induction false} Without<K, V>(m: map<K, multiset<V>>, k: K)
    requires k in m
    ensures Sum(m) == m[k] + Sum(m - {k})
    decreases |m|
  {
    var j :| j in m && Sum(m) == m[j] + Sum(m - {j});
    if j != k {
      Without(m - {j}, k);
      Without(m - {k}, j);
      assert m - {j} - {k} == m - {k} - {j};
    }
  }

  lemma Updated<K, V>(m: map<K, multiset<V>>, k: K, v: multiset<V>)
    ensures k in m ==> Sum(m[k := v]) + m[k] == Sum(m) + v
    ensures k !in m ==> Sum(m[k := v]) == Sum(m) + v
  {
    hide Sum;
    Without(m[k := v], k);
    assert m[k := v] - {k} == m - {k};
    if k in m {
      Without(m, k);
    } else {
      assert m - {k} == m;
    }
  }

  lemma Member<K, V>(m: map<K, multiset<V>>, k: K)
    requires k in m
    ensures m[k] <= Sum(m)
  {
    hide Sum;
    Without(m, k);
  }
}
