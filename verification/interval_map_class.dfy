/** The extent map as the program keeps it: one ordered map, edited in place through iterators. */
module IntervalMaps {
  import opened Wrappers
  import opened OrderedMap
  import opened Extents
  import IntervalCodec

  lemma {:induction false} ContainedSteps(m: seq<Extent>, q: nat, address: nat, end: nat, left: Extent, right: Extent)
    requires Sorted(m) && q < |m| && m[q].key < address <= end < End(m[q])
    requires left == ClippedAt(m[q], address) && right == Cut(m[q], end)
    requires q + 1 < |m| ==> End(m[q]) <= m[q + 1].key
    ensures LowerBound(m, m[q].key) == q
    ensures Add(Put(m, m[q].key, left.val), end, right.val) == (m[..q] + [left]) + ([right] + m[q + 1..])
    ensures left.val == m[q].val.(length := address - m[q].key)
    ensures right.val == Slice(m[q].val.location, end - m[q].key, End(m[q]) - end)
  {
    PutAt(m, q, left.val);
    SortedPut(m, q, left.val);
    var head := m[..q] + [left];
    assert m[q := left] == head + m[q + 1..];
    Between(head, m[q + 1..], end);
    AddBetween(head, m[q + 1..], end, right.val);
  }

  lemma {:induction false} LeftSteps(head: seq<Extent>, e: Extent, tail: seq<Extent>, at: nat)
    requires Sorted(head + ([e] + tail)) && e.key <= at <= End(e)
    requires tail != [] ==> End(e) == tail[0].key
    ensures var m := head + ([e] + tail);
            && Has(m, e.key) && LowerBound(m, e.key) == |head|
            && Add(Erase(m, e.key), at, Cut(e, at).val)
               == head + (if tail != [] && End(e) == at then tail else [Cut(e, at)] + tail)
  {
    var m := head + ([e] + tail);
    PutAt(m, |head|, e.val);
    SortedErase(head, e, tail);
    assert head != [] ==> m[|head| - 1].key < m[|head|].key;
    Between(head, tail, at);
    AddBetween(head, tail, at, Cut(e, at).val);
  }

  /** The entries when insert is about to add the new slice. */
  ghost function Opened(es: seq<Extent>, address: nat, length: nat): seq<Extent>
    requires WellFormed(es)
  {
    if es == [] then (if address > 0 then [Entry(0, Slice([], 0, address))] else [])
    else if Length(es) < address then
      var last := es[|es| - 1];
      Add(es, End(last), Slice([], 0, address - last.key + last.val.length))
    else Head(es, address) + Tail(es, address, length)
  }

  lemma {:induction false} OpenedAdd(es: seq<Extent>, address: nat, length: nat, location: seq<Location>)
    requires WellFormed(es)
    ensures Add(Opened(es, address, length), address, Slice(location, 0, length))
         == Inserted(es, address, length, location)
  {
    if es == [] {
    } else if address <= Length(es) {
      var head, tail := Head(es, address), Tail(es, address, length);
      HeadIs(es, address);
      TailGapless(es, address, length);
      SortedJoin(head, tail);
      Between(head, tail, address);
      AddBetween(head, tail, address, Slice(location, 0, length));
    }
  }

  /** An insert strictly inside one slice. */
  lemma {:induction false} OpenedSplit(es: seq<Extent>, q: nat, address: nat, length: nat)
    requires WellFormed(es) && q < |es| && es[q].key < address && address + length < End(es[q])
    requires LowerBound(es, address) == q + 1
    ensures Opened(es, address, length)
         == (es[..q] + [ClippedAt(es[q], address)]) + ([Cut(es[q], address + length)] + es[q + 1..])
    ensures q + 1 < |es| ==> End(es[q]) == es[q + 1].key
  {
    assert Joined(es, q);
    LengthCovers(es, q);
  }

  /** An insert that starts in the last slice, or at its end, and ends no earlier than it. */
  lemma {:induction false} OpenedLast(es: seq<Extent>, address: nat, length: nat)
    requires WellFormed(es) && es != [] && LowerBound(es, address) == |es|
    requires address <= Length(es) <= address + length
    ensures Opened(es, address, length) == es[|es| - 1 := ClippedAt(es[|es| - 1], address)]
    ensures Length(es) == address ==> ClippedAt(es[|es| - 1], address) == es[|es| - 1]
  {
    var n := |es| - 1;
    assert Tail(es, address, length) == [];
    assert es[n := ClippedAt(es[n], address)] == es[..n] + [ClippedAt(es[n], address)];
  }

  /** The map when the slice to be added starts behind the last one's start: a hole, a split, or a shorter slice. */
  ghost predicate OpenedBehind(es: seq<Extent>, address: nat, length: nat, r: seq<Extent>)
    requires es != [] && es[|es| - 1].key <= address
  {
    var n := |es| - 1;
    var last := es[n];
    if End(last) < address then r == Add(es, End(last), Slice([], 0, address - last.key + last.val.length))
    else if address + length < End(last) then
      r == (es[..n] + [ClippedAt(last, address)]) + ([Cut(last, address + length)] + es[n + 1..])
    else r == es[n := ClippedAt(last, address)] && (End(last) == address ==> r == es)
  }

  lemma {:induction false} OpenedAtEnd(es: seq<Extent>, address: nat, length: nat)
    requires WellFormed(es) && es != [] && LowerBound(es, address) == |es|
    ensures es[|es| - 1].key < address && OpenedBehind(es, address, length, Opened(es, address, length))
  {
    var n := |es| - 1;
    if address <= End(es[n]) {
      if address + length < End(es[n]) {
        OpenedSplit(es, n, address, length);
      } else {
        OpenedLast(es, address, length);
      }
    }
  }

  /** An insert that starts inside a slice that is not the last, and ends no earlier than it. */
  lemma {:induction false} OpenedUnaligned(es: seq<Extent>, address: nat, length: nat)
    requires WellFormed(es) && es != [] && var i := LowerBound(es, address); 0 < i < |es| && es[i].key != address
    requires End(es[LowerBound(es, address) - 1]) <= address + length
    ensures var i := LowerBound(es, address);
            var head := es[..i - 1] + [ClippedAt(es[i - 1], address)];
            && es[i - 1 := ClippedAt(es[i - 1], address)] == head + es[i..]
            && es[i].key <= address + length
            && address <= Length(es)
            && Opened(es, address, length) == head + CutFrom(es, i, address + length)
  {
    var i := LowerBound(es, address);
    LengthCovers(es, i);
    assert Joined(es, i - 1);
  }

  lemma {:induction false} LengthCovers(es: seq<Extent>, q: nat)
    requires WellFormed(es) && q < |es|
    ensures End(es[q]) <= Length(es)
  {
    assert Joined(es, q) && Before(es, q + 1, |es| - 1);
  }

  // ---------------------------------------------------------------------------------------------
  // get_slices
  // ---------------------------------------------------------------------------------------------

  /** The cells a list of slices stands for, in order. */
  function SliceCells(v: seq<Slice>): seq<Cell> {
    if v == [] then [] else SliceCells(v[..|v| - 1]) + Cells(v[|v| - 1])
  }

  function Min(a: nat, b: nat): nat {
    if a <= b then a else b
  }

  /** The part of a flat array that a request asks for, cut off at end of file. */
  function Window(f: seq<Cell>, address: nat, length: nat): seq<Cell> {
    f[Min(address, |f|)..Min(address + length, |f|)]
  }

  /** The requests that get_slices answers with cells that are not there: from the last slice to beyond end of file. */
  ghost predicate Overruns(es: seq<Extent>, address: nat, length: nat) {
    0 < length && es != [] && es[|es| - 1].key < address <= Length(es) < address + length
  }

  /** The part [x, y) of the flat array lies in entry q. */
  lemma {:induction false} FlatPiece(es: seq<Extent>, q: nat, x: nat, y: nat)
    requires WellFormed(es) && q < |es| && es[q].key <= x <= y <= End(es[q])
    ensures y <= |Flat(es)|
    ensures Flat(es)[x..y] == Cells(Slice(es[q].val.location, es[q].val.offset + (x - es[q].key), y - x))
  {
    FlatPrefix(es, q);
    FlatSplit(es, q);
    MiddleConcat(Flat(es[..q]), Cells(es[q].val), Flat(es[q + 1..]), x, y);
  }

  lemma {:induction false} MiddleConcat<T>(a: seq<T>, b: seq<T>, c: seq<T>, x: nat, y: nat)
    requires |a| <= x <= y <= |a| + |b|
    ensures (a + (b + c))[x..y] == b[x - |a|..y - |a|]
  {
  }

  /** One more slice of the answer: it continues the window from x to y. */
  lemma {:induction false} AppendPiece(es: seq<Extent>, q: nat, address: nat, x: nat, y: nat, v: seq<Slice>, s: Slice)
    requires WellFormed(es) && q < |es| && es[q].key <= x <= y <= End(es[q]) && address <= x
    requires address <= x <= |Flat(es)| && SliceCells(v) == Flat(es)[address..x]
    requires s == Slice(es[q].val.location, es[q].val.offset + (x - es[q].key), y - x)
    ensures y <= |Flat(es)| && SliceCells(v + [s]) == Flat(es)[address..y]
  {
    FlatPiece(es, q, x, y);
    assert (v + [s])[..|v|] == v;
    assert Flat(es)[address..y] == Flat(es)[address..x] + Flat(es)[x..y];
  }

  /** How far the answer reaches after the entries before it. */
  function Covered(es: seq<Extent>, it: nat, first: nat, address: nat, length: nat): nat
    requires first <= it <= |es|
  {
    if it == first then address else Min(address + length, End(es[it - 1]))
  }

  lemma {:induction false} OneSlice(s: Slice)
    ensures SliceCells([s]) == Cells(s)
  {
    assert [s][..0] == [];
  }

  /** The answer to a request that starts in the last slice is one slice of the requested length, not clipped. */
  lemma {:induction false} LastSliceAnswer(es: seq<Extent>, address: nat, length: nat, s: Slice)
    requires WellFormed(es) && es != [] && es[|es| - 1].key <= address <= Length(es)
    requires var e := es[|es| - 1]; s == Slice(e.val.location, e.val.offset + (address - e.key), length)
    ensures address + length <= Length(es) ==> SliceCells([s]) == Window(Flat(es), address, length)
    ensures address + length > Length(es) ==> |SliceCells([s])| > |Window(Flat(es), address, length)|
  {
    FlatWhole(es);
    OneSlice(s);
    if address + length <= Length(es) {
      FlatPiece(es, |es| - 1, address, address + length);
    }
  }

  /** Where the scan is: the entry it looks at starts inside the part asked for, which has been answered up to x. */
  ghost predicate Scanning(es: seq<Extent>, first: nat, it: nat, address: nat, length: nat, x: nat) {
    && first <= it <= |es| && first < |es|
    && es[first].key <= address <= End(es[first])
    && x == Covered(es, it, first, address, length)
    && address <= x <= Length(es) == |Flat(es)|
  }

  lemma {:induction false} ScanStep(es: seq<Extent>, first: nat, it: nat, address: nat, length: nat, x: nat)
    requires WellFormed(es) && Scanning(es, first, it, address, length, x)
    requires it < |es| && es[it].key < address + length
    ensures var y := Covered(es, it + 1, first, address, length);
            && x == (if es[it].key < address then address else es[it].key)
            && x <= y <= End(es[it])
            && Scanning(es, first, it + 1, address, length, y)
  {
    assert Joined(es, it as int - 1) && Before(es, first, it) && Before(es, first, it as int - 1);
    LengthCovers(es, it);
  }

  /** The part of entry e that a request asks for. */
  function Piece(e: Extent, address: nat, length: nat): Slice
    requires address <= End(e) && e.key <= address + length
  {
    var x := if e.key < address then address else e.key;
    Slice(e.val.location, e.val.offset + (x - e.key), Min(address + length, End(e)) - x)
  }

  /** What has been answered so far. */
  ghost predicate ScannedTo(es: seq<Extent>, address: nat, x: nat, v: seq<Slice>) {
    address <= x <= |Flat(es)| && SliceCells(v) == Flat(es)[address..x]
  }

  lemma {:induction false} ScanPiece(es: seq<Extent>, first: nat, it: nat, address: nat, length: nat, x: nat,
                                     v: seq<Slice>)
    requires WellFormed(es) && Scanning(es, first, it, address, length, x) && ScannedTo(es, address, x, v)
    requires it < |es| && es[it].key < address + length
    ensures var y := Covered(es, it + 1, first, address, length);
            && Scanning(es, first, it + 1, address, length, y)
            && address <= End(es[it])
            && ScannedTo(es, address, y, v + [Piece(es[it], address, length)])
  {
    ScanStep(es, first, it, address, length, x);
    AppendPiece(es, it, address, x, Covered(es, it + 1, first, address, length), v, Piece(es[it], address, length));
  }

  lemma {:induction false} ScanEnd(es: seq<Extent>, first: nat, it: nat, address: nat, length: nat, x: nat)
    requires WellFormed(es) && Scanning(es, first, it, address, length, x)
    requires it == |es| || address + length <= es[it].key
    requires it > first
    ensures x == Min(address + length, Length(es))
  {
    assert Joined(es, it as int - 1);
  }

  lemma {:induction false} ScanLast(es: seq<Extent>, first: nat, it: nat, address: nat, length: nat, x: nat)
    requires it < |es| && first <= it && Scanning(es, first, it + 1, address, length, x)
    requires address + length <= End(es[it])
    ensures x == Min(address + length, Length(es))
  {
  }

  class IntervalMap {
    var slices: seq<Extent>

    constructor ()
      ensures slices == []
    {
      slices := [];
    }

    method PutThenAdd(blockStart: nat, shorter: Slice, newBlockStart: nat, rest: Slice)
      modifies this
      ensures slices == Add(Put(old(slices), blockStart, shorter), newBlockStart, rest)
    {
      slices := Put(slices, blockStart, shorter);
      slices := Add(slices, newBlockStart, rest);
    }

    method EraseThenAdd(blockStart: nat, newBlockStart: nat, rest: Slice)
      modifies this
      ensures slices == Add(Erase(old(slices), blockStart), newBlockStart, rest)
    {
      slices := Erase(slices, blockStart);
      slices := Add(slices, newBlockStart, rest);
    }

    /** Case 1: the new slice lies inside the slice at q, which is split. */
    method InsertContained(blockStart: nat, blockLength: nat, address: nat, length: nat, ghost q: nat)
      requires Sorted(slices) && q < |slices| && slices[q].key == blockStart && slices[q].val.length == blockLength
      requires blockStart < address && address + length < blockStart + blockLength
      requires q + 1 < |slices| ==> blockStart + blockLength <= slices[q + 1].key
      modifies this
      ensures slices == (old(slices)[..q] + [ClippedAt(old(slices)[q], address)])
                        + ([Cut(old(slices)[q], address + length)] + old(slices)[q + 1..])
    {
      ghost var left, right := ClippedAt(slices[q], address), Cut(slices[q], address + length);
      ContainedSteps(slices, q, address, address + length, left, right);
      var s := slices[LowerBound(slices, blockStart)].val;
      var newLength := address - blockStart;
      var shorter := s.(length := newLength);
      var rest := Slice(s.location, newLength + length, blockLength - newLength - length);
      assert shorter == left.val && rest == right.val;
      PutThenAdd(blockStart, shorter, blockStart + newLength + length, rest);
    }

    /** Case 2: the new slice covers the right part of the slice at q, which is shortened. */
    method InsertRight(blockStart: nat, address: nat, ghost q: nat)
      requires Sorted(slices) && q < |slices| && slices[q].key == blockStart <= address
      modifies this
      ensures Sorted(slices)
      ensures slices == old(slices)[q := ClippedAt(old(slices)[q], address)]
    {
      PutAt(slices, q, slices[q].val.(length := address - blockStart));
      SortedPut(slices, q, slices[q].val.(length := address - blockStart));
      var s := slices[LowerBound(slices, blockStart)].val;
      slices := Put(slices, blockStart, s.(length := address - blockStart));
    }

    /** Case 3: the new slice covers the left part of slice e, which moves to the end of the new one. */
    method InsertLeft(blockStart: nat, blockLength: nat, address: nat, length: nat,
                      ghost head: seq<Extent>, ghost e: Extent, ghost tail: seq<Extent>)
      requires Sorted(slices) && slices == head + ([e] + tail)
      requires e.key == blockStart <= address + length <= blockStart + blockLength == End(e)
      requires tail != [] ==> End(e) == tail[0].key
      modifies this
      ensures slices == head + (if tail != [] && End(e) == address + length then tail
                                else [Cut(e, address + length)] + tail)
    {
      var newOffset := address + length - blockStart;
      var newLength := blockLength - newOffset;
      LeftSteps(head, e, tail, address + length);
      var location := slices[LowerBound(slices, blockStart)].val.location;
      assert Slice(location, newOffset, newLength) == Cut(e, address + length).val;
      EraseThenAdd(blockStart, blockStart + newOffset, Slice(location, newOffset, newLength));
    }

    /** Case 5: the new slice covers a slice, which goes. */
    method InsertOverwriteInterval(blockStart: nat, ghost head: seq<Extent>, ghost e: Extent, ghost tail: seq<Extent>)
      requires Sorted(slices) && slices == head + ([e] + tail) && e.key == blockStart
      modifies this
      ensures slices == head + tail && Sorted(slices)
    {
      SortedErase(head, e, tail);
      slices := Erase(slices, blockStart);
    }

    method InsertInterval(address: nat, length: nat, location: seq<Location>)
      modifies this
      ensures slices == Add(old(slices), address, Slice(location, 0, length))
    {
      slices := Add(slices, address, Slice(location, 0, length));
    }

    /**
     The loop that both branches of insert run: from the iterator on, erase what ends before the new slice does.
     (Erasing the entry before the iterator lowers the iterator's rank by one.)
     */
    method EraseFrom(start: nat, end: nat, ghost head: seq<Extent>, ghost es: seq<Extent>, ghost i: nat,
                     ghost stop: nat)
      requires Sorted(slices) && i <= |es| && start == |head| && slices == head + es[i..] && stop == Reach(es, i, end)
      modifies this
      ensures Sorted(slices) && slices == head + es[stop..]
    {
      var it := start;
      ghost var k := i;
      Peel(head, es, k);
      while it != |slices| && End(slices[it]) < end
        invariant it == start && i <= k <= |es| && Sorted(slices)
        invariant slices == head + es[k..] && |slices| == |head| + |es| - k
        invariant k < |es| ==> slices[it] == es[k]
        invariant forall j :: i <= j < k ==> End(es[j]) < end
        decreases |slices|
      {
        var blockStart := slices[it].key;
        Peel(head, es, k);
        it := it + 1;
        InsertOverwriteInterval(blockStart, head, es[k], es[k + 1..]);
        it := it - 1;
        k := k + 1;
        Peel(head, es, k);
      }
      ReachIs(es, i, end, k);
    }

    /** Cut what the new slice covers of the slice it ends in. */
    method CutFirst(it: nat, address: nat, length: nat,
                    ghost head: seq<Extent>, ghost es: seq<Extent>, ghost k: nat, ghost r: seq<Extent>)
      requires Sorted(slices) && it == |head| && k <= |es| && slices == head + es[k..]
      requires CutThere(es, k, address + length, r)
      modifies this
      ensures slices == head + r
    {
      Peel(head, es, k);
      if it != |slices| {
        InsertLeft(slices[it].key, slices[it].val.length, address, length, head, es[k], es[k + 1..]);
      }
    }

    /** The loop, which stops at entry k, and the cut of that entry. */
    method EraseAndCut(start: nat, address: nat, length: nat, ghost head: seq<Extent>, ghost es: seq<Extent>,
                       ghost i: nat, ghost k: nat, ghost r: seq<Extent>)
      requires Sorted(slices) && i <= |es| && start == |head| && slices == head + es[i..]
      requires k == Reach(es, i, address + length) && CutThere(es, k, address + length, r)
      modifies this
      ensures slices == head + r
    {
      EraseFrom(start, address + length, head, es, i, k);
      CutFirst(start, address, length, head, es, k, r);
    }

    /** Erase what the new slice covers, and cut what it covers in part. */
    method OverwriteFrom(start: nat, address: nat, length: nat,
                         ghost head: seq<Extent>, ghost es: seq<Extent>, ghost i: nat, ghost r: seq<Extent>)
      requires Sorted(slices) && Gapless(es) && i <= |es| && (i < |es| ==> es[i].key <= address + length)
      requires start == |head| && slices == head + es[i..] && r == CutFrom(es, i, address + length)
      modifies this
      ensures slices == head + r
    {
      ghost var k := Reach(es, i, address + length);
      CutFromIs(es, i, address + length, k, r);
      EraseAndCut(start, address, length, head, es, i, k, r);
    }

    /** insert, behind the start of the last slice: leave a hole, split the slice, or shorten it. */
    method OpenEnd(address: nat, length: nat, ghost r: seq<Extent>)
      requires Sorted(slices) && slices != [] && slices[|slices| - 1].key < address
      requires OpenedBehind(slices, address, length, r)
      modifies this
      ensures slices == r
    {
      var it := |slices| - 1;
      var blockStart, blockLength := slices[it].key, slices[it].val.length;
      if blockStart + blockLength < address {
        // a gap, to be filled (with a length that is only right when the last slice is empty)
        slices := Add(slices, blockStart + blockLength, Slice([], 0, address - blockStart + blockLength));
      } else if address + length < blockStart + blockLength {
        InsertContained(blockStart, blockLength, address, length, it);
      } else {
        if blockStart + blockLength != address {
          InsertRight(blockStart, address, it);
        }
      }
    }

    /** insert, from inside a slice that is not the last: split it, or shorten it and clear what is behind it. */
    method OpenInside(after: nat, address: nat, length: nat, ghost es: seq<Extent>)
      requires WellFormed(es) && es == slices && es != [] && after == LowerBound(es, address)
      requires 0 < after < |es| && es[after].key != address
      modifies this
      ensures slices == Opened(es, address, length)
    {
      var it := after - 1;
      var blockStart, blockLength := slices[it].key, slices[it].val.length;
      LengthCovers(es, after);
      if address + length < blockStart + blockLength {
        OpenedSplit(es, it, address, length);
        InsertContained(blockStart, blockLength, address, length, it);
      } else {
        OpenedUnaligned(es, address, length);
        InsertRight(blockStart, address, it);
        it := it + 1;
        OverwriteFrom(it, address, length, es[..it - 1] + [ClippedAt(es[it - 1], address)], es, it,
                      CutFrom(es, it, address + length));
      }
    }

    /** insert, from the start of a slice: clear what it covers. */
    method OpenAt(it: nat, address: nat, length: nat, ghost es: seq<Extent>)
      requires WellFormed(es) && es == slices && it == LowerBound(es, address)
      requires it < |es| && es[it].key == address
      modifies this
      ensures slices == Opened(es, address, length)
    {
      LengthCovers(es, it);
      assert es == es[..it] + es[it..];
      OverwriteFrom(it, address, length, es[..it], es, it, CutFrom(es, it, address + length));
    }

    /** The branches of insert, each up to its last call, which adds the slice. */
    method Open(address: nat, length: nat, ghost es: seq<Extent>)
      requires WellFormed(es) && es == slices
      modifies this
      ensures slices == Opened(es, address, length)
    {
      var it := LowerBound(slices, address);
      if |slices| == 0 {
        if address > 0 {
          slices := Add(slices, 0, Slice([], 0, address));
        }
      } else if it == |slices| {
        OpenedAtEnd(es, address, length);
        OpenEnd(address, length, Opened(es, address, length));
      } else if slices[it].key != address {
        OpenInside(it, address, length, es);
      } else {
        OpenAt(it, address, length, es);
      }
    }

    /** insert(address, length, location) */
    method Insert(address: nat, length: nat, location: seq<Location>)
      requires WellFormed(slices)
      modifies this
      ensures slices == Inserted(old(slices), address, length, location)
    {
      ghost var es := slices;
      Open(address, length, es);
      OpenedAdd(es, address, length, location);
      InsertInterval(address, length, location);
    }

    method Truncate(length: nat)
      requires WellFormed(slices)
      modifies this
      ensures slices == Truncated(old(slices), length)
    {
      if |slices| == 0 {
        return;
      }
      ghost var es := slices;
      TruncatePoint(es, length);
      var it := UpperBound(slices, length);
      it := it - 1;
      if length < slices[it].key + slices[it].val.length {
        slices := slices[it := Entry(slices[it].key, slices[it].val.(length := length - slices[it].key))];
      }
      it := it + 1;
      if it != |slices| {
        slices := slices[..it];
      }
      assert es[..it - 1] + [es[it - 1]] == es[..it];
    }

    method Size() returns (length: nat)
      requires WellFormed(slices)
      ensures length == |Flat(slices)|
    {
      FlatWhole(slices);
      if |slices| == 0 {
        return 0;
      }
      var it := |slices| - 1;
      length := slices[it].key + slices[it].val.length;
    }

    /** The part of one slice that a request asks for, and whether that is the whole request. */
    method Take(it: nat, address: nat, length: nat) returns (s: Slice, last: bool)
      requires it < |slices| && slices[it].key < address + length && address <= End(slices[it])
      ensures s == Piece(slices[it], address, length)
      ensures last <==> slices[it].key <= address && address + length <= End(slices[it])
    {
      s := slices[it].val;
      var blockAddress, blockLength, blockOffset := slices[it].key, s.length, s.offset;
      var newOffset, newLength;
      last := false;
      if blockAddress <= address && address + length <= blockAddress + blockLength {
        return Slice(s.location, address - blockAddress + blockOffset, length), true;
      } else if blockAddress < address {
        newOffset := address - blockAddress + blockOffset;
        newLength := blockAddress + blockLength - address;
      } else {
        newOffset := if blockAddress < address then address - blockAddress else blockOffset;
        newLength := if blockAddress + blockLength <= address + length then blockLength
                     else address + length - blockAddress;
      }
      s := Slice(s.location, newOffset, newLength);
    }

    /** The loop of get_slices, from the iterator at the entry the request starts in. */
    method ScanFrom(first: nat, address: nat, length: nat) returns (v: seq<Slice>)
      requires WellFormed(slices) && Scanning(slices, first, first, address, length, address)
      requires slices[first].key < address + length
      ensures ScannedTo(slices, address, Min(address + length, Length(slices)), v)
    {
      v := [];
      var it := first;
      ghost var x := address;
      while it != |slices| && slices[it].key < address + length
        invariant Scanning(slices, first, it, address, length, x) && ScannedTo(slices, address, x, v)
        invariant it == first ==> slices[it].key < address + length
      {
        ScanPiece(slices, first, it, address, length, x, v);
        x := Covered(slices, it + 1, first, address, length);
        var s, last := Take(it, address, length);
        v := v + [s];
        if last {
          ScanLast(slices, first, it, address, length, x);
          return;
        }
        it := it + 1;
      }
      ScanEnd(slices, first, it, address, length, x);
    }

    /**
     get_slices(address, length): the slices concatenate, in order, to exactly the part of the flat array asked for,
     unless the request starts in the last slice (beyond its first byte) and runs past end of file: then they are one
     slice of the length asked for, of which only the first part is there.
     */
    method GetSlices(address: nat, length: nat) returns (v: seq<Slice>)
      requires WellFormed(slices)
      ensures !Overruns(slices, address, length) ==> SliceCells(v) == Window(Flat(slices), address, length)
      ensures Overruns(slices, address, length) ==>
                && |SliceCells(v)| > |Window(Flat(slices), address, length)|
                && var e := slices[|slices| - 1];
                   v == [Slice(e.val.location, e.val.offset + (address - e.key), length)]
    {
      v := [];
      FlatWhole(slices);
      var it := LowerBound(slices, address);
      assert (|slices| == 0 || length == 0 || Length(slices) < address) ==> Window(Flat(slices), address, length) == [];
      if |slices| == 0 || length == 0 {
        return;
      }
      if it == |slices| {
        it := it - 1;
        var s := slices[it].val;
        if slices[it].key + s.length < address {
          return;
        }
        s := Slice(s.location, address - slices[it].key + s.offset, length);
        LastSliceAnswer(slices, address, length, s);
        v := v + [s];
        assert v == [s];
        return;
      }
      assert Before(slices, it, |slices| - 1);
      assert !Overruns(slices, address, length);
      if slices[it].key != address {
        assert Joined(slices, it as int - 1);
        it := it - 1;
      }
      LengthCovers(slices, it);
      v := ScanFrom(it, address, length);
    }

    method Clear()
      modifies this
      ensures slices == []
    {
      slices := [];
    }

    method PackSize() returns (words: nat)
      ensures words == |IntervalCodec.Pack(slices)|
    {
      words := 1;
      var it := 0;
      while it != |slices|
        invariant it <= |slices| && words == IntervalCodec.PackSize(slices[..it])
      {
        assert slices[..it + 1][..it] == slices[..it];
        words := words + 3 + 2 * |slices[it].val.location|;
        it := it + 1;
      }
      assert slices[..it] == slices;
      IntervalCodec.PackSizeIs(slices);
    }

    method Pack() returns (w: seq<nat>)
      ensures w == IntervalCodec.Pack(slices)
    {
      w := [|slices|];
      var it := 0;
      while it != |slices|
        invariant it <= |slices| && w == [|slices|] + IntervalCodec.PackSlices(slices[..it])
      {
        IntervalCodec.PackOneMore(slices, it);
        ConcatAssoc([|slices|], IntervalCodec.PackSlices(slices[..it]), IntervalCodec.PackSlice(slices[it].val));
        w := w + IntervalCodec.PackSlice(slices[it].val);
        it := it + 1;
      }
      assert slices[..it] == slices;
    }

    /** Insert one slice that was read, behind those before it. */
    method AppendSlice(s: Slice, address: nat)
      requires WellFormed(slices) && address <= Length(slices)
      modifies this
      ensures slices == Inserted(old(slices), address, s.length, s.location)
      ensures WellFormed(slices) && address + s.length <= Length(slices)
    {
      IntervalCodec.AppendReaches(slices, address, s.length, s.location);
      Insert(address, s.length, s.location);
    }

    /** One turn of unpacking: read a slice and insert it at the running address. */
    method UnpackSlice(w: seq<nat>, address: nat, ghost n: nat) returns (ok: bool, rest: seq<nat>, next: nat)
      requires n > 0 && WellFormed(slices) && address <= Length(slices)
      modifies this
      ensures WellFormed(slices) && next <= Length(slices)
      ensures IntervalCodec.Finish(IntervalCodec.ReadSlices(w, n), old(slices), address)
           == if ok then IntervalCodec.Finish(IntervalCodec.ReadSlices(rest, n - 1), slices, next) else None
    {
      var read := IntervalCodec.ReadSlice(w);
      if read.None? {
        IntervalCodec.FinishStop(w, n, slices, address);
        return false, w, address;
      }
      ghost var es := slices;
      var (s, more) := read.value;
      AppendSlice(s, address);
      IntervalCodec.FinishStep(w, n, s, more, es, address, slices, address + s.length);
      return true, more, address + s.length;
    }

    /** Refill the map from a buffer; the rest of the buffer is handed back. Fails when the buffer runs out. */
    method Unpack(w: seq<nat>) returns (ok: bool, rest: seq<nat>)
      modifies this
      ensures ok <==> IntervalCodec.Unpack(w).Some?
      ensures ok ==> IntervalCodec.Unpack(w) == Some((slices, rest))
    {
      Clear();
      if |w| == 0 {
        return false, w;
      }
      rest := w[1..];
      var address: nat, i: nat := 0, 0;
      while i < w[0]
        invariant i <= w[0] && WellFormed(slices) && address <= Length(slices)
        invariant IntervalCodec.Finish(IntervalCodec.ReadSlices(rest, w[0] - i), slices, address)
               == IntervalCodec.Unpack(w)
      {
        ok, rest, address := UnpackSlice(rest, address, w[0] - i);
        if !ok {
          return;
        }
        i := i + 1;
      }
      ok := true;
    }
  }
}
