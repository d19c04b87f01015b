/**
 The ordered associative container (std::map with integer keys) that both extent maps are built on.
 A container is the sequence of its entries in key order; an iterator is an index, and the end iterator is the length.
 */
module OrderedMap {

  datatype Entry<V> = Entry(key: nat, val: V)

  ghost predicate Before<V>(m: seq<Entry<V>>, i: int, j: int) {
    0 <= i < j < |m| ==> m[i].key < m[j].key
  }

  ghost predicate Sorted<V>(m: seq<Entry<V>>) {
    forall i, j :: Before(m, i, j)
  }

  /** The first entry whose key is not below k. */
  function LowerBound<V>(m: seq<Entry<V>>, k: nat): (i: nat)
    ensures i <= |m|
    ensures i > 0 ==> m[i - 1].key < k
    ensures i < |m| ==> k <= m[i].key
  {
    if m == [] || k <= m[0].key then 0 else 1 + LowerBound(m[1..], k)
  }

  /** The first entry whose key is above k. */
  function UpperBound<V>(m: seq<Entry<V>>, k: nat): (i: nat)
    ensures i <= |m|
    ensures i > 0 ==> m[i - 1].key <= k
    ensures i < |m| ==> k < m[i].key
  {
    LowerBound(m, k + 1)
  }

  predicate Has<V>(m: seq<Entry<V>>, k: nat) {
    var i := LowerBound(m, k);
    i < |m| && m[i].key == k
  }

  /** m[k] = v: overwrites an entry that has the key. */
  function Put<V>(m: seq<Entry<V>>, k: nat, v: V): seq<Entry<V>> {
    var i := LowerBound(m, k);
    if Has(m, k) then m[i := Entry(k, v)] else m[..i] + [Entry(k, v)] + m[i..]
  }

  /** m.insert((k, v)): does nothing when the key is taken. */
  function Add<V>(m: seq<Entry<V>>, k: nat, v: V): seq<Entry<V>> {
    var i := LowerBound(m, k);
    if Has(m, k) then m else m[..i] + [Entry(k, v)] + m[i..]
  }

  /** m.erase(k) */
  function Erase<V>(m: seq<Entry<V>>, k: nat): seq<Entry<V>> {
    var i := LowerBound(m, k);
    if Has(m, k) then m[..i] + m[i + 1..] else m
  }

  /** The iterator is determined by the two neighbouring keys. */
  lemma {:induction false} LowerBoundIs<V>(m: seq<Entry<V>>, k: nat, i: nat)
    requires Sorted(m) && i <= |m|
    requires i > 0 ==> m[i - 1].key < k
    requires i < |m| ==> k <= m[i].key
    ensures LowerBound(m, k) == i
  {
    var r := LowerBound(m, k);
    assert Before(m, r, i as int - 1) && Before(m, i, r as int - 1);
  }

  lemma {:induction false} SortedParts<V>(a: seq<Entry<V>>, b: seq<Entry<V>>)
    requires Sorted(a + b)
    ensures Sorted(a) && Sorted(b)
  {
    forall i, j ensures Before(a, i, j) && Before(b, i, j) {
      assert Before(a + b, i, j) && Before(a + b, |a| + i, |a| + j);
    }
  }

  lemma {:induction false} PutAt<V>(m: seq<Entry<V>>, i: nat, v: V)
    requires Sorted(m) && i < |m|
    ensures Has(m, m[i].key) && LowerBound(m, m[i].key) == i
    ensures Put(m, m[i].key, v) == m[i := Entry(m[i].key, v)]
  {
    assert Before(m, i as int - 1, i);
    LowerBoundIs(m, m[i].key, i);
  }

  lemma {:induction false} EraseAt<V>(m: seq<Entry<V>>, i: nat)
    requires Sorted(m) && i < |m|
    ensures Erase(m, m[i].key) == m[..i] + m[i + 1..]
  {
    assert Before(m, i as int - 1, i);
    LowerBoundIs(m, m[i].key, i);
  }

  lemma {:induction false} ConcatAssoc<T>(a: seq<T>, b: seq<T>, c: seq<T>)
    ensures (a + b) + c == a + (b + c)
  {
  }

  lemma {:induction false} Between<V>(head: seq<Entry<V>>, tail: seq<Entry<V>>, k: nat)
    requires Sorted(head + tail)
    requires head != [] ==> head[|head| - 1].key < k
    requires tail != [] ==> k <= tail[0].key
    ensures LowerBound(head + tail, k) == |head|
  {
    var m := head + tail;
    assert head != [] ==> m[|head| - 1] == head[|head| - 1];
    assert tail != [] ==> m[|head|] == tail[0];
    LowerBoundIs(m, k, |head|);
  }

  lemma {:induction false} AddBetween<V>(head: seq<Entry<V>>, tail: seq<Entry<V>>, k: nat, v: V)
    requires LowerBound(head + tail, k) == |head|
    ensures Has(head + tail, k) <==> tail != [] && tail[0].key == k
    ensures Add(head + tail, k, v) == head + (if tail != [] && tail[0].key == k then tail else [Entry(k, v)] + tail)
  {
    var m := head + tail;
    assert m[..|head|] == head && m[|head|..] == tail;
    ConcatAssoc(head, [Entry(k, v)], tail);
  }

  lemma {:induction false} SortedErase<V>(head: seq<Entry<V>>, e: Entry<V>, tail: seq<Entry<V>>)
    requires Sorted(head + ([e] + tail))
    ensures Sorted(head + tail)
    ensures Erase(head + ([e] + tail), e.key) == head + tail
  {
    var m := head + ([e] + tail);
    forall i, j ensures Before(head + tail, i, j) {
      assert Before(m, if i < |head| then i else i + 1, if j < |head| then j else j + 1);
    }
    EraseAt(m, |head|);
    assert m[..|head|] == head && m[|head| + 1..] == tail;
  }

  lemma {:induction false} SortedPut<V>(m: seq<Entry<V>>, i: nat, v: V)
    requires Sorted(m) && i < |m|
    ensures Sorted(m[i := Entry(m[i].key, v)])
  {
    var r := m[i := Entry(m[i].key, v)];
    forall j, k ensures Before(r, j, k) {
      assert Before(m, j, k);
    }
  }

  lemma {:induction false} SortedJoin<V>(a: seq<Entry<V>>, b: seq<Entry<V>>)
    requires Sorted(a) && Sorted(b)
    requires a != [] && b != [] ==> a[|a| - 1].key < b[0].key
    ensures Sorted(a + b)
  {
    forall i, j ensures Before(a + b, i, j) {
      assert Before(a, i, j) && Before(b, i - |a|, j - |a|);
      assert Before(a, i, |a| - 1) && Before(b, 0, j - |a|);
    }
  }

  lemma {:induction false} PutBetween<V>(head: seq<Entry<V>>, tail: seq<Entry<V>>, k: nat, v: V)
    requires Sorted(head + tail)
    requires head != [] ==> head[|head| - 1].key < k
    requires tail != [] ==> k <= tail[0].key
    ensures Put(head + tail, k, v)
         == head + ([Entry(k, v)] + (if tail != [] && tail[0].key == k then tail[1..] else tail))
    ensures Sorted(Put(head + tail, k, v))
  {
    var m := head + tail;
    Between(head, tail, k);
    assert m[..|head|] == head && m[|head|..] == tail;
    SortedParts(head, tail);
    if tail != [] && tail[0].key == k {
      assert m[|head| := Entry(k, v)] == head + ([Entry(k, v)] + tail[1..]);
      SortedPut(m, |head|, v);
    } else {
      SortedJoin([Entry(k, v)], tail);
      SortedJoin(head, [Entry(k, v)] + tail);
      ConcatAssoc(head, [Entry(k, v)], tail);
    }
  }

  /** The first entry of the rest. */
  lemma {:induction false} Peel<V>(head: seq<Entry<V>>, es: seq<Entry<V>>, k: nat)
    requires k <= |es|
    ensures |head + es[k..]| == |head| + |es| - k
    ensures k < |es| ==> head + es[k..] == head + ([es[k]] + es[k + 1..]) && (head + es[k..])[|head|] == es[k]
  {
    if k < |es| {
      assert es[k..] == [es[k]] + es[k + 1..];
    }
  }
}
