/**
 The offset map of one block: which part of the append-only log holds which part of the block.
 A map is keyed by offset, but the slices also carry their own offset, and some updates move a slice without re-keying
 it. Updated and Resized say what the program computes; None stands for its undefined behaviour (an iterator used past
 the end).
 */
module Blocks {
  import opened Wrappers
  import opened OrderedMap

  datatype Slice = Slice(offset: nat, length: nat, diskOffset: int) {
    function End(): nat {
      offset + length
    }
  }

  type Part = Entry<Slice>

  ghost predicate Linked(es: seq<Part>, i: int) {
    0 <= i < |es| ==>
      && es[i].val.length > 0
      && (i + 1 < |es| ==> es[i].val.End() == es[i + 1].val.offset)
  }

  /** Non-empty slices that follow one another. */
  ghost predicate Chained(es: seq<Part>) {
    forall i :: Linked(es, i)
  }

  /** A block without gaps: its slices, in key order, cover it from offset 0 on. Keys may be stale. */
  ghost predicate WellFormed(es: seq<Part>) {
    Sorted(es) && Chained(es) && (es != [] ==> es[0].val.offset == 0)
  }

  ghost predicate KeyedAt(es: seq<Part>, i: int) {
    0 <= i < |es| ==> es[i].key == es[i].val.offset
  }

  /** Every slice is filed under its own offset, as it is whenever a block has just been loaded. */
  ghost predicate Keyed(es: seq<Part>) {
    forall i :: KeyedAt(es, i)
  }

  /** The true length of the block. */
  function Size(es: seq<Part>): nat {
    if es == [] then 0 else es[|es| - 1].val.End()
  }

  /** The length the program computes: from the last key. */
  function Length(es: seq<Part>): nat {
    if es == [] then 0 else es[|es| - 1].key + es[|es| - 1].val.length
  }

  // ---------------------------------------------------------------------------------------------
  // The meaning of an offset map: for each byte of the block, its place in the log
  // ---------------------------------------------------------------------------------------------

  function Extent(start: int, length: nat): (r: seq<int>)
    ensures |r| == length
  {
    seq(length, j requires 0 <= j < length => start + j)
  }

  function Spread(es: seq<Part>): seq<int> {
    if es == [] then [] else Extent(es[0].val.diskOffset, es[0].val.length) + Spread(es[1..])
  }

  function Places(es: seq<Part>): seq<int> {
    Spread(es)
  }

  lemma {:induction false} PlacesConcat(a: seq<Part>, b: seq<Part>)
    ensures Places(a + b) == Places(a) + Places(b)
  {
    if a == [] {
      assert a + b == b;
    } else {
      assert (a + b)[1..] == a[1..] + b;
      PlacesConcat(a[1..], b);
      ConcatAssoc(Extent(a[0].val.diskOffset, a[0].val.length), Places(a[1..]), Places(b));
    }
  }

  lemma {:induction false} ChainedParts(a: seq<Part>, b: seq<Part>)
    requires Chained(a + b)
    ensures Chained(a) && Chained(b)
    ensures a != [] && b != [] ==> a[|a| - 1].val.End() == b[0].val.offset
  {
    forall i ensures Linked(a, i) && Linked(b, i) {
      assert Linked(a + b, i) && Linked(a + b, |a| + i);
    }
    assert Linked(a + b, |a| - 1);
  }

  lemma {:induction false} ChainedJoin(a: seq<Part>, b: seq<Part>)
    requires Chained(a) && Chained(b)
    requires a != [] && b != [] ==> a[|a| - 1].val.End() == b[0].val.offset
    ensures Chained(a + b)
  {
    forall i ensures Linked(a + b, i) {
      assert Linked(a, i) && Linked(b, i - |a|);
    }
  }

  lemma {:induction false} ChainedSplit(es: seq<Part>, q: nat)
    requires Chained(es) && q <= |es|
    ensures Chained(es[..q]) && Chained(es[q..])
    ensures 0 < q < |es| ==> es[q - 1].val.End() == es[q].val.offset
  {
    assert es == es[..q] + es[q..];
    ChainedParts(es[..q], es[q..]);
  }

  lemma {:induction false} PlacesLength(es: seq<Part>)
    requires Chained(es) && es != []
    ensures |Places(es)| == es[|es| - 1].val.End() - es[0].val.offset
  {
    if |es| > 1 {
      ChainedSplit(es, 1);
      PlacesLength(es[1..]);
    } else {
      assert Places(es[1..]) == [];
    }
  }

  lemma {:induction false} PlacesSize(es: seq<Part>)
    requires WellFormed(es)
    ensures |Places(es)| == Size(es)
  {
    if es != [] {
      PlacesLength(es);
    }
  }

  lemma {:induction false} PlacesPrefix(es: seq<Part>, q: nat)
    requires WellFormed(es) && q < |es|
    ensures |Places(es[..q])| == es[q].val.offset
  {
    ChainedSplit(es, q);
    if q > 0 {
      PlacesLength(es[..q]);
    }
  }

  lemma {:induction false} PlacesSplit(es: seq<Part>, q: nat)
    requires q < |es|
    ensures Places(es) == Places(es[..q]) + (Extent(es[q].val.diskOffset, es[q].val.length) + Places(es[q + 1..]))
  {
    var b := es[q..];
    assert es == es[..q] + b && b[1..] == es[q + 1..];
    PlacesConcat(es[..q], b);
  }

  // ---------------------------------------------------------------------------------------------
  // update
  // ---------------------------------------------------------------------------------------------

  /** A slice with its left end moved to `at` (to the right, or, when it should not be, to the left). Not re-keyed. */
  function MoveStart(e: Part, at: nat): Part
    requires at <= e.val.End()
  {
    Entry(e.key, Slice(at, e.val.End() - at, e.val.diskOffset + (at - e.val.offset)))
  }

  function Rekeyed(e: Part): Part {
    Entry(e.val.offset, e.val)
  }

  function ShortenTo(e: Part, at: nat): Part
    requires e.val.offset <= at
  {
    Entry(e.key, e.val.(length := at - e.val.offset))
  }

  /** The first slice from index i on that ends after `at`. */
  function Beyond(es: seq<Part>, i: nat, at: nat): (q: nat)
    requires i <= |es|
    ensures i <= q <= |es|
    ensures forall k :: i <= k < q ==> es[k].val.End() <= at
    ensures q < |es| ==> at < es[q].val.End()
    decreases |es| - i
  {
    if i == |es| || at < es[i].val.End() then i else Beyond(es, i + 1, at)
  }

  lemma {:induction false} BeyondIs(es: seq<Part>, i: nat, at: nat, q: nat)
    requires i <= q <= |es| && (forall k :: i <= k < q ==> es[k].val.End() <= at) && (q < |es| ==> at < es[q].val.End())
    ensures Beyond(es, i, at) == q
    decreases q - i
  {
    if i < q {
      BeyondIs(es, i + 1, at, q);
    }
  }

  /** Slices i.. after those that end by `at` are erased and the next one is made to start there. */
  function Trimmed(es: seq<Part>, i: nat, at: nat): seq<Part>
    requires i <= |es|
  {
    var q := Beyond(es, i, at);
    if q == |es| then [] else [MoveStart(es[q], at)] + es[q + 1..]
  }

  /** The only update that runs off the end: over the whole last slice, from its start, and beyond it. */
  predicate RunsOff(es: seq<Part>, offset: nat, length: nat)
    requires WellFormed(es) && Keyed(es)
  {
    var i := LowerBound(es, offset);
    0 < i == |es| - 1 && es[i].key == offset && es[i].val.End() < offset + length
  }

  /** What the program leaves in front of the new slice. */
  function Front(es: seq<Part>, offset: nat): seq<Part>
    requires WellFormed(es) && Keyed(es) && offset <= Size(es)
  {
    var i := LowerBound(es, offset);
    Boundaries(es, offset);
    if es == [] || i == 0 then []
    else if i < |es| && es[i].key == offset then es[..i]
    else es[..i - 1] + [ShortenTo(es[i - 1], offset)]
  }

  /** What the program puts behind the new slice. */
  function Rest(es: seq<Part>, offset: nat, length: nat): seq<Part>
    requires WellFormed(es) && Keyed(es) && offset <= Size(es)
  {
    var i, end := LowerBound(es, offset), offset + length;
    Boundaries(es, offset);
    if es == [] then []
    else if i == 0 then
      if es[0].val.End() <= end then Trimmed(es, 1, end) else [Rekeyed(MoveStart(es[0], end))] + es[1..]
    else if i == |es| then
      if end < es[i - 1].val.End() then [Rekeyed(MoveStart(es[i - 1], end))] else []
    else if es[i].key != offset then Trimmed(es, i, end)
    else if end < es[i].val.End() then
      // the tail of the split slice keeps the place of its head
      [Entry(end, Slice(end, es[i].val.End() - end, es[i].val.diskOffset))] + es[i + 1..]
    else if end == es[i].val.End() then es[i + 1..]
    else if i + 1 == |es| then []
    else Trimmed(es, i + 2, end)  // the slice that follows is erased unseen
  }

  /** The map after update(offset, length, diskOffset). */
  function Updated(es: seq<Part>, offset: nat, length: nat, diskOffset: int): Option<seq<Part>>
    requires WellFormed(es) && Keyed(es) && length > 0 && offset <= Size(es)
  {
    if RunsOff(es, offset, length) then None
    else Some(Front(es, offset) + ([Entry(offset, Slice(offset, length, diskOffset))] + Rest(es, offset, length)))
  }

  lemma {:induction false} UpdatedEmpty(length: nat, diskOffset: int)
    requires length > 0
    ensures Updated([], 0, length, diskOffset) == Some([Entry(0, Slice(0, length, diskOffset))])
  {
    var e := [Entry(0, Slice(0, length, diskOffset))];
    assert [] + (e + []) == e;
  }

  lemma {:induction false} Boundaries(es: seq<Part>, offset: nat)
    requires WellFormed(es) && Keyed(es) && offset <= Size(es)
    ensures var i := LowerBound(es, offset);
            && (es != [] && i == 0 ==> offset == 0)
            && (i > 0 ==> es[i - 1].val.offset < offset <= es[i - 1].val.End())
            && (0 < i < |es| ==> es[i - 1].val.End() == es[i].val.offset == es[i].key)
  {
    var i := LowerBound(es, offset);
    assert Linked(es, i as int - 1) && KeyedAt(es, i) && KeyedAt(es, i as int - 1) && KeyedAt(es, 0);
  }

  /** Two slices that are neighbours in the log too. */
  predicate Contiguous(a: Part, b: Part) {
    a.val.diskOffset + a.val.length == b.val.diskOffset
  }

  /** When erasing from slice i on, and moving the next slice's start to `at`, leaves the rest of the block in place. */
  ghost predicate Caught(es: seq<Part>, i: nat, at: nat)
    requires 0 < i <= |es|
  {
    if i == |es| then Size(es) <= at else es[i].val.offset <= at || Contiguous(es[i - 1], es[i])
  }

  /** The guard under which update does what it is for, branch by branch. */
  ghost predicate Sound(es: seq<Part>, offset: nat, length: nat)
    requires WellFormed(es) && Keyed(es)
  {
    var i, end := LowerBound(es, offset), offset + length;
    if i == 0 || i == |es| then true
    else if es[i].key != offset then Caught(es, i, end)
    else if end < es[i].val.End() then false
    else end == es[i].val.End() || (i + 1 < |es| && Caught(es, i + 2, end))
  }

  lemma {:induction false} TailPlaces(es: seq<Part>, q: nat, at: nat)
    requires WellFormed(es) && q < |es| && es[q].val.offset <= at <= es[q].val.End()
    ensures at <= |Places(es)|
    ensures Places([MoveStart(es[q], at)] + es[q + 1..]) == Places(es)[at..]
  {
    var e, more := es[q], es[q + 1..];
    PlacesPrefix(es, q);
    PlacesSplit(es, q);
    CutConcat(Places(es[..q]), Extent(e.val.diskOffset, e.val.length), Places(more), at);
    assert ([MoveStart(e, at)] + more)[1..] == more;
    assert Extent(e.val.diskOffset, e.val.length)[at - e.val.offset..]
        == Extent(e.val.diskOffset + (at - e.val.offset), e.val.End() - at);
  }

  lemma {:induction false} HeadPlaces(es: seq<Part>, q: nat, at: nat)
    requires WellFormed(es) && q < |es| && es[q].val.offset <= at <= es[q].val.End()
    ensures at <= |Places(es)|
    ensures Places(es[..q] + [ShortenTo(es[q], at)]) == Places(es)[..at]
  {
    var e, more := es[q], es[q + 1..];
    PlacesPrefix(es, q);
    PlacesSplit(es, q);
    CutConcat(Places(es[..q]), Extent(e.val.diskOffset, e.val.length), Places(more), at);
    PlacesConcat(es[..q], [ShortenTo(e, at)]);
    OnePlace(ShortenTo(e, at));
    assert Extent(e.val.diskOffset, e.val.length)[..at - e.val.offset] == Extent(e.val.diskOffset, at - e.val.offset);
  }

  lemma {:induction false} OnePlace(e: Part)
    ensures Places([e]) == Extent(e.val.diskOffset, e.val.length)
  {
    assert [e][1..] == [] && Places([]) == [];
  }

  lemma {:induction false} ExtentSplit(start: int, a: nat, b: nat)
    ensures Extent(start, a + b) == Extent(start, a) + Extent(start + a, b)
  {
  }

  /** Two extents followed by the same rest are equal only when they start at the same place. */
  lemma {:induction false} DifferentStart(x: int, y: int, a: nat, f: seq<int>, g: seq<int>)
    requires a > 0 && x != y
    ensures Extent(x, a) + f != Extent(y, a) + g
  {
    assert (Extent(x, a) + f)[0] == x && (Extent(y, a) + g)[0] == y;
  }

  lemma {:induction false} LeadPlaces(e: Part, more: seq<Part>)
    ensures Places([e] + more) == Extent(e.val.diskOffset, e.val.length) + Places(more)
  {
    assert ([e] + more)[1..] == more;
  }

  lemma {:induction false} ShiftedExtent(x: int, y: int, gap: nat, place: int, length: nat, more: seq<int>)
    requires gap > 0 && x + gap == place
    ensures Extent(x, gap + length) + more == Extent(y, gap) + (Extent(place, length) + more) <==> x == y
  {
    var rest := Extent(place, length) + more;
    ExtentSplit(x, gap, length);
    ConcatAssoc(Extent(x, gap), Extent(place, length), more);
    if x != y {
      DifferentStart(x, y, gap, rest, rest);
    }
  }

  /** The rest of the block from inside slice q on, as slice q's remainder and the slices behind it. */
  lemma {:induction false} TailIs(es: seq<Part>, q: nat, at: nat, more: seq<Part>)
    requires WellFormed(es) && q < |es| && es[q].val.offset <= at <= es[q].val.End() && more == es[q + 1..]
    ensures After(Places(es), at)
         == Extent(es[q].val.diskOffset + (at - es[q].val.offset), es[q].val.End() - at) + Places(more)
  {
    TailPlaces(es, q, at);
    LeadPlaces(MoveStart(es[q], at), more);
  }

  lemma {:induction false} SuffixIs(es: seq<Part>, i: nat, more: seq<Part>)
    requires i < |es| && more == es[i + 1..]
    ensures Places(es[i..]) == Extent(es[i].val.diskOffset, es[i].val.length) + Places(more)
  {
    assert es[i..][1..] == more;
  }

  /** A slice whose start is moved to the left takes over the tail of the slice before it. */
  lemma {:induction false} OverreachPlaces(es: seq<Part>, i: nat, at: nat)
    requires WellFormed(es) && 0 < i < |es| && es[i - 1].val.offset <= at < es[i].val.offset
    ensures Places([MoveStart(es[i], at)] + es[i + 1..]) == After(Places(es), at) <==> Contiguous(es[i - 1], es[i])
  {
    var b, e, more := es[i - 1], es[i], es[i + 1..];
    assert Linked(es, i - 1);
    var gap := e.val.offset - at;
    TailIs(es, i - 1, at, es[i..]);
    SuffixIs(es, i, more);
    LeadPlaces(MoveStart(e, at), more);
    ShiftedExtent(e.val.diskOffset - gap, b.val.diskOffset + (at - b.val.offset), gap,
                  e.val.diskOffset, e.val.length, Places(more));
  }

  /** When everything from slice i on is erased. */
  lemma {:induction false} NothingLeft(es: seq<Part>, i: nat, at: nat)
    requires WellFormed(es) && 0 < i <= |es| && es[i - 1].val.offset <= at && Beyond(es, i, at) == |es|
    ensures [] == After(Places(es), at) <==> Caught(es, i, at)
  {
    PlacesSize(es);
    assert Linked(es, i);
    if Size(es) > at {
      assert |After(Places(es), at)| > 0;
    }
  }

  lemma {:induction false} TrimmedPlaces(es: seq<Part>, i: nat, at: nat)
    requires WellFormed(es) && 0 < i <= |es| && es[i - 1].val.offset <= at
    ensures Places(Trimmed(es, i, at)) == After(Places(es), at) <==> Caught(es, i, at)
  {
    var q := Beyond(es, i, at);
    if q == |es| {
      assert Places([]) == [];
      NothingLeft(es, i, at);
    } else if es[q].val.offset <= at {
      TrimmedInside(es, i, at, q);
    } else {
      StopsAtFirst(es, i, at, q);
      OverreachPlaces(es, i, at);
    }
  }

  lemma {:induction false} StopsAtFirst(es: seq<Part>, i: nat, at: nat, q: nat)
    requires WellFormed(es) && 0 < i <= q < |es| && q == Beyond(es, i, at) && at < es[q].val.offset
    ensures q == i && Trimmed(es, i, at) == [MoveStart(es[i], at)] + es[i + 1..]
    ensures !(es[i].val.offset <= at) && (Caught(es, i, at) <==> Contiguous(es[i - 1], es[i]))
  {
    assert Linked(es, q - 1);
  }

  /** When the slice the erasing stops at contains the place to cut at. */
  lemma {:induction false} TrimmedInside(es: seq<Part>, i: nat, at: nat, q: nat)
    requires WellFormed(es) && 0 < i <= q < |es| && q == Beyond(es, i, at) && es[q].val.offset <= at
    ensures Places([MoveStart(es[q], at)] + es[q + 1..]) == After(Places(es), at) && Caught(es, i, at)
  {
    TailPlaces(es, q, at);
    if i < q {
      OffsetsIncrease(es, i, q);
    }
  }

  lemma {:induction false} SameMiddle<T>(head: seq<T>, data: seq<T>, f: seq<T>, g: seq<T>)
    ensures head + (data + f) == head + (data + g) <==> f == g
  {
    if head + (data + f) == head + (data + g) {
      assert f == (head + (data + f))[|head| + |data|..];
      assert g == (head + (data + g))[|head| + |data|..];
    }
  }

  /** The map with a new slice in it is right exactly when what follows the slice is. */
  lemma {:induction false} Assembled(es: seq<Part>, head: seq<Part>, e: Part, tail: seq<Part>, r: seq<Part>)
    requires r == head + ([e] + tail) && e.val.offset <= |Places(es)|
    requires Places(head) == Places(es)[..e.val.offset]
    ensures Places(r) == Spliced(Places(es), e.val.offset, Extent(e.val.diskOffset, e.val.length))
       <==> Places(tail) == After(Places(es), e.val.End())
  {
    PlacesConcat(head, [e] + tail);
    LeadPlaces(e, tail);
    SameMiddle(Places(head), Extent(e.val.diskOffset, e.val.length), Places(tail), After(Places(es), e.val.End()));
  }

  lemma {:induction false} FrontPlaces(es: seq<Part>, offset: nat)
    requires WellFormed(es) && Keyed(es) && offset <= Size(es)
    ensures offset <= |Places(es)| && Places(Front(es, offset)) == Places(es)[..offset]
  {
    var i := LowerBound(es, offset);
    Boundaries(es, offset);
    PlacesSize(es);
    if es == [] || i == 0 {
    } else if i < |es| && es[i].key == offset {
      PlacesPrefix(es, i);
      PlacesSplit(es, i);
    } else {
      HeadPlaces(es, i - 1, offset);
    }
  }

  lemma {:induction false} SplitLosesPlace(es: seq<Part>, i: nat, end: nat)
    requires WellFormed(es) && i < |es| && es[i].val.offset < end < es[i].val.End()
    ensures Places([Entry(end, Slice(end, es[i].val.End() - end, es[i].val.diskOffset))] + es[i + 1..])
         != After(Places(es), end)
  {
    var e, more := es[i], es[i + 1..];
    var part := Entry(end, Slice(end, e.val.End() - end, e.val.diskOffset));
    TailPlaces(es, i, end);
    assert ([part] + more)[1..] == more && ([MoveStart(e, end)] + more)[1..] == more;
    DifferentStart(e.val.diskOffset, e.val.diskOffset + (end - e.val.offset), e.val.End() - end,
                   Places(more), Places(more));
  }

  lemma {:induction false} RestAtStart(es: seq<Part>, length: nat)
    requires WellFormed(es) && Keyed(es) && length > 0 && es != [] && LowerBound(es, 0) == 0
    ensures Places(Rest(es, 0, length)) == After(Places(es), length)
  {
    assert Linked(es, 0);
    if es[0].val.End() <= length {
      PlacesSize(es);
      assert Linked(es, 1);
      TrimmedPlaces(es, 1, length);
    } else {
      TailPlaces(es, 0, length);
      RekeyPlaces(MoveStart(es[0], length), es[1..]);
    }
  }

  lemma {:induction false} RestAtEnd(es: seq<Part>, offset: nat, length: nat)
    requires WellFormed(es) && Keyed(es) && length > 0 && offset <= Size(es)
    requires 0 < LowerBound(es, offset) == |es|
    ensures Places(Rest(es, offset, length)) == After(Places(es), offset + length)
  {
    var last, end := es[|es| - 1], offset + length;
    Boundaries(es, offset);
    PlacesSize(es);
    if end < last.val.End() {
      TailIs(es, |es| - 1, end, []);
      LeadPlaces(Rekeyed(MoveStart(last, end)), []);
      assert [Rekeyed(MoveStart(last, end))] + [] == [Rekeyed(MoveStart(last, end))];
    }
  }

  lemma {:induction false} RestAtEdges(es: seq<Part>, offset: nat, length: nat)
    requires WellFormed(es) && Keyed(es) && length > 0 && offset <= Size(es)
    requires LowerBound(es, offset) == 0 || LowerBound(es, offset) == |es|
    ensures Places(Rest(es, offset, length)) == After(Places(es), offset + length)
  {
    Boundaries(es, offset);
    if es == [] {
    } else if LowerBound(es, offset) == 0 {
      RestAtStart(es, length);
    } else {
      RestAtEnd(es, offset, length);
    }
  }

  /** What is put behind a write that starts at slice i or inside slice i - 1, and whether that is right. */
  ghost predicate PutsBehind(es: seq<Part>, i: nat, offset: nat, end: nat, r: seq<Part>, sound: bool)
    requires 0 < i < |es|
  {
    if es[i].key != offset then r == Trimmed(es, i, end) && (sound <==> Caught(es, i, end))
    else if end < es[i].val.End() then
      r == [Entry(end, Slice(end, es[i].val.End() - end, es[i].val.diskOffset))] + es[i + 1..] && !sound
    else if end == es[i].val.End() then r == es[i + 1..] && sound
    else i + 1 < |es| && r == Trimmed(es, i + 2, end) && (sound <==> Caught(es, i + 2, end))
  }

  lemma {:induction false} RestPutsBehind(es: seq<Part>, offset: nat, length: nat, i: nat)
    requires WellFormed(es) && Keyed(es) && offset <= Size(es) && !RunsOff(es, offset, length)
    requires 0 < i < |es| && i == LowerBound(es, offset)
    ensures PutsBehind(es, i, offset, offset + length, Rest(es, offset, length), Sound(es, offset, length))
  {
    Boundaries(es, offset);
  }

  lemma {:induction false} EndsWithSlice(es: seq<Part>, i: nat, more: seq<Part>)
    requires WellFormed(es) && i < |es| && more == es[i + 1..]
    ensures Places(more) == After(Places(es), es[i].val.End())
  {
    TailIs(es, i, es[i].val.End(), more);
    assert Extent(es[i].val.diskOffset + es[i].val.length, 0) == [];
    assert [] + Places(more) == Places(more);
  }

  lemma {:induction false} RestInside(es: seq<Part>, i: nat, offset: nat, end: nat, r: seq<Part>, sound: bool)
    requires WellFormed(es) && Keyed(es) && 0 < i < |es| && PutsBehind(es, i, offset, end, r, sound)
    requires es[i - 1].val.offset < offset < end && (es[i].key == offset ==> es[i].val.offset == offset)
    ensures Places(r) == After(Places(es), end) <==> sound
  {
    if es[i].key != offset {
      TrimmedPlaces(es, i, end);
    } else if end < es[i].val.End() {
      SplitLosesPlace(es, i, end);
    } else if end == es[i].val.End() {
      EndsWithSlice(es, i, r);
    } else {
      assert Linked(es, i);
      TrimmedPlaces(es, i + 2, end);
    }
  }

  lemma {:induction false} RekeyPlaces(e: Part, more: seq<Part>)
    ensures Places([Rekeyed(e)] + more) == Places([e] + more)
  {
    assert ([Rekeyed(e)] + more)[1..] == more && ([e] + more)[1..] == more;
  }

  lemma {:induction false} RestRight(es: seq<Part>, offset: nat, length: nat, r: seq<Part>, sound: bool)
    requires WellFormed(es) && Keyed(es) && length > 0 && offset <= Size(es) && !RunsOff(es, offset, length)
    requires r == Rest(es, offset, length) && (sound <==> Sound(es, offset, length))
    ensures Places(r) == After(Places(es), offset + length) <==> sound
  {
    var i := LowerBound(es, offset);
    Boundaries(es, offset);
    if 0 < i < |es| {
      RestPutsBehind(es, offset, length, i);
      RestInside(es, i, offset, offset + length, r, sound);
    } else {
      RestAtEdges(es, offset, length);
    }
  }

  /**
   Main result on update: it is defined and puts the new bytes, and only them, in place of the old ones, exactly
   under the guard Sound.
   */
  lemma {:induction false} UpdateRefines(es: seq<Part>, offset: nat, length: nat, diskOffset: int)
    requires WellFormed(es) && Keyed(es) && length > 0 && offset <= Size(es)
    ensures var u := Updated(es, offset, length, diskOffset);
            && offset <= |Places(es)|
            && (u.Some? && Places(u.value) == Spliced(Places(es), offset, Extent(diskOffset, length))
                <==> Sound(es, offset, length))
  {
    FrontPlaces(es, offset);
    var u := Updated(es, offset, length, diskOffset);
    if u.Some? {
      RestRight(es, offset, length, Rest(es, offset, length), Sound(es, offset, length));
      var e := Entry(offset, Slice(offset, length, diskOffset));
      Assembled(es, Front(es, offset), e, Rest(es, offset, length), u.value);
    }
  }

  // ---------------------------------------------------------------------------------------------
  // What every update leaves, sound or not, in terms of the old block's places
  // ---------------------------------------------------------------------------------------------

  /**
   What is left behind a write that ends at `end` and takes everything in front of slice `from` with it: nothing; or the
   rest of the old block; or, when the write ends earlier, slice `from` and what lies in front of its place in the log.
   */
  ghost predicate ReachesBack(es: seq<Part>, p: seq<int>, from: nat, end: nat, rest: seq<int>) {
    if from >= |es| then rest == []
    else if es[from].val.offset <= end then rest == After(p, end)
    else
      var b := es[from].val.offset;
      b < |p| && rest == Extent(p[b] - (b - end), b - end) + p[b..]
  }

  /** What is left behind a write, by the slice i that lies at or behind its start. */
  ghost predicate LeavesBehind(es: seq<Part>, p: seq<int>, i: nat, offset: nat, end: nat, rest: seq<int>) {
    if i == 0 || i >= |es| then rest == After(p, end)
    else if es[i].val.offset != offset then ReachesBack(es, p, i, end, rest)
    else
      var e := es[i].val.End();
      if end < e then
        // the part of the slice that is not overwritten reads as the start of the slice
        e <= |p| && offset + (e - end) <= |p| && rest == p[offset..offset + (e - end)] + p[e..]
      else if end == e then rest == After(p, end)
      else ReachesBack(es, p, i + 2, end, rest)
  }

  lemma {:induction false} PushedBack(es: seq<Part>, i: nat, at: nat, more: seq<Part>)
    requires WellFormed(es) && i < |es| && at < es[i].val.offset && more == es[i + 1..]
    ensures var b, p := es[i].val.offset, Places(es);
            b < |p| && Places([MoveStart(es[i], at)] + more) == Extent(p[b] - (b - at), b - at) + p[b..]
  {
    var e, b, p := es[i], es[i].val.offset, Places(es);
    assert Linked(es, i);
    TailPlaces(es, i, b);
    TailIs(es, i, b, more);
    var here := Extent(e.val.diskOffset, e.val.length);
    assert p[b..] == here + Places(more) && p[b] == (here + Places(more))[0] == here[0] by {
      assert b < |p|;
    }
    LeadPlaces(MoveStart(e, at), more);
    ExtentSplit(e.val.diskOffset - (b - at), b - at, e.val.length);
    ConcatAssoc(Extent(e.val.diskOffset - (b - at), b - at), here, Places(more));
  }

  lemma {:induction false} TrimmedLeaves(es: seq<Part>, i: nat, at: nat, r: seq<Part>)
    requires WellFormed(es) && 0 < i <= |es| && es[i - 1].val.offset <= at && r == Trimmed(es, i, at)
    ensures ReachesBack(es, Places(es), i, at, Places(r))
  {
    if i == |es| {
      assert Places([]) == [];
    } else if es[i].val.offset <= at {
      TrimmedPlaces(es, i, at);
    } else {
      assert Linked(es, i);
      BeyondIs(es, i, at, i);
      PushedBack(es, i, at, es[i + 1..]);
    }
  }

  /** The first places of a slice, within the block. */
  lemma {:induction false} SlicePart(es: seq<Part>, i: nat, o: nat, n: nat)
    requires WellFormed(es) && i < |es| && o == es[i].val.offset && n <= es[i].val.length
    ensures o + n <= |Places(es)| && Places(es)[o..o + n] == Extent(es[i].val.diskOffset, n)
  {
    var here, more := Extent(es[i].val.diskOffset, es[i].val.length), Places(es[i + 1..]);
    PlacesPrefix(es, i);
    PlacesSplit(es, i);
    CutConcat(Places(es[..i]), here, more, o);
    PartOf(Places(es), o, here, more, n);
    ExtentPrefix(es[i].val.diskOffset, es[i].val.length, n);
  }

  lemma {:induction false} BehindSlice(es: seq<Part>, i: nat, e: nat, more: seq<Part>)
    requires WellFormed(es) && i < |es| && e == es[i].val.End() && more == es[i + 1..]
    ensures e <= |Places(es)| && Places(es)[e..] == Places(more)
  {
    TailPlaces(es, i, e);
    EndsWithSlice(es, i, more);
  }

  lemma {:induction false} SplitLeaves(es: seq<Part>, i: nat, end: nat, more: seq<Part>)
    requires WellFormed(es) && i < |es| && es[i].val.offset < end < es[i].val.End() && more == es[i + 1..]
    ensures var o, e, p := es[i].val.offset, es[i].val.End(), Places(es);
            && e <= |p|
            && Places([Entry(end, Slice(end, e - end, es[i].val.diskOffset))] + more) == p[o..o + (e - end)] + p[e..]
  {
    var e := es[i].val.End();
    SlicePart(es, i, es[i].val.offset, e - end);
    BehindSlice(es, i, e, more);
    LeadPlaces(Entry(end, Slice(end, e - end, es[i].val.diskOffset)), more);
  }

  lemma {:induction false} PartOf<T>(p: seq<T>, o: nat, here: seq<T>, more: seq<T>, n: nat)
    requires o <= |p| && p[o..] == here + more && n <= |here|
    ensures o + n <= |p| && p[o..o + n] == here[..n]
  {
    assert p[o..o + n] == p[o..][..n];
  }

  lemma {:induction false} ExtentPrefix(start: int, a: nat, b: nat)
    requires b <= a
    ensures Extent(start, a)[..b] == Extent(start, b)
  {
  }

  lemma {:induction false} BehindLeaves(es: seq<Part>, i: nat, offset: nat, end: nat, r: seq<Part>, sound: bool)
    requires WellFormed(es) && Keyed(es) && 0 < i < |es| && PutsBehind(es, i, offset, end, r, sound)
    requires es[i - 1].val.offset < offset < end && es[i].key == es[i].val.offset
    ensures LeavesBehind(es, Places(es), i, offset, end, Places(r))
  {
    if es[i].key != offset {
      TrimmedLeaves(es, i, end, r);
    } else if end < es[i].val.End() {
      SplitLeaves(es, i, end, es[i + 1..]);
      TailPlaces(es, i, es[i].val.End());
    } else if end == es[i].val.End() {
      EndsWithSlice(es, i, r);
    } else {
      assert Linked(es, i);
      TrimmedLeaves(es, i + 2, end, r);
    }
  }

  lemma {:induction false} RestLeaves(es: seq<Part>, offset: nat, length: nat, i: nat, r: seq<Part>)
    requires WellFormed(es) && Keyed(es) && length > 0 && offset <= Size(es) && !RunsOff(es, offset, length)
    requires i == LowerBound(es, offset) && r == Rest(es, offset, length)
    ensures LeavesBehind(es, Places(es), i, offset, offset + length, Places(r))
  {
    Boundaries(es, offset);
    if 0 < i < |es| {
      RestPutsBehind(es, offset, length, i);
      BehindLeaves(es, i, offset, offset + length, r, Sound(es, offset, length));
    } else {
      RestAtEdges(es, offset, length);
    }
  }

  lemma {:induction false} JoinedPlaces(front: seq<Part>, e: Part, rest: seq<Part>, r: seq<Part>)
    requires r == front + ([e] + rest)
    ensures Places(r) == Places(front) + (Extent(e.val.diskOffset, e.val.length) + Places(rest))
  {
    PlacesConcat(front, [e] + rest);
    LeadPlaces(e, rest);
  }

  lemma {:induction false} PartsOf<T>(a: seq<T>, b: seq<T>, c: seq<T>, q: seq<T>, m: nat, n: nat)
    requires q == a + (b + c) && m == |a| && n == |a| + |b|
    ensures n <= |q| && q[..m] == a && q[m..n] == b && q[n..] == c
  {
  }

  lemma {:induction false} LeavesAll(es: seq<Part>, offset: nat, length: nat, e: Part, i: nat, r: seq<Part>)
    requires WellFormed(es) && Keyed(es) && length > 0 && offset <= Size(es) && !RunsOff(es, offset, length)
    requires e.val.offset == offset && e.val.length == length && i == LowerBound(es, offset)
    requires r == Front(es, offset) + ([e] + Rest(es, offset, length))
    ensures var end, p, q := offset + length, Places(es), Places(r);
            && offset <= |p| && end <= |q| && q[..offset] == p[..offset]
            && q[offset..end] == Extent(e.val.diskOffset, length) && LeavesBehind(es, p, i, offset, end, q[end..])
  {
    var front, rest := Front(es, offset), Rest(es, offset, length);
    FrontPlaces(es, offset);
    JoinedPlaces(front, e, rest, r);
    RestLeaves(es, offset, length, i, rest);
    PartsOf(Places(front), Extent(e.val.diskOffset, length), Places(rest), Places(r), offset, offset + length);
  }

  lemma {:induction false} RunsOffWhen(es: seq<Part>, offset: nat, length: nat, i: nat)
    requires WellFormed(es) && Keyed(es) && i == LowerBound(es, offset)
    ensures RunsOff(es, offset, length)
       <==> 0 < i == |es| - 1 && es[i].val.offset == offset && es[i].val.End() < offset + length
  {
    assert KeyedAt(es, i);
  }

  /**
   What every update leaves, in every branch: the old bytes in front of the write, the bytes written, and behind them
   what LeavesBehind says. It is undefined exactly over the whole last slice from its start, and beyond.
   */
  lemma {:induction false} UpdateLeaves(es: seq<Part>, offset: nat, length: nat, diskOffset: int)
    requires WellFormed(es) && Keyed(es) && length > 0 && offset <= Size(es)
    ensures var u, i, end := Updated(es, offset, length, diskOffset), LowerBound(es, offset), offset + length;
            && (u.None? <==> 0 < i == |es| - 1 && es[i].val.offset == offset && es[i].val.End() < end)
            && (u.Some? ==>
                  var p, q := Places(es), Places(u.value);
                  && offset <= |p| && end <= |q| && q[..offset] == p[..offset]
                  && q[offset..end] == Extent(diskOffset, length)
                  && LeavesBehind(es, p, i, offset, end, q[end..]))
  {
    var u, i := Updated(es, offset, length, diskOffset), LowerBound(es, offset);
    RunsOffWhen(es, offset, length, i);
    if u.Some? {
      LeavesAll(es, offset, length, Entry(offset, Slice(offset, length, diskOffset)), i, u.value);
    }
  }

  /**
   A write from the start of a slice, not the first, that ends inside it: what is left of the slice reads as its start,
   and the slices behind it as before.
   */
  lemma {:induction false} SplitReadsStart(es: seq<Part>, i: nat, length: nat, diskOffset: int)
    requires WellFormed(es) && Keyed(es) && 0 < i < |es| && 0 < length < es[i].val.length
    ensures es[i].val.offset <= Size(es)
    ensures var o, e := es[i].val.offset, es[i].val.End();
            var p, u := Places(es), Updated(es, o, length, diskOffset);
            && u.Some? && e <= |p|
            && Places(u.value) == p[..o] + (Extent(diskOffset, length) + (p[o..e - length] + p[e..]))
  {
    StartsAt(es, i);
    UpdateLeaves(es, es[i].val.offset, length, diskOffset);
    SplitWhole(es, i, length, diskOffset, Places(Updated(es, es[i].val.offset, length, diskOffset).value));
  }

  lemma {:induction false} StartsAt(es: seq<Part>, i: nat)
    requires WellFormed(es) && Keyed(es) && i < |es|
    ensures LowerBound(es, es[i].val.offset) == i && es[i].val.offset <= Size(es)
  {
    assert KeyedAt(es, i) && Before(es, i - 1, i) && Linked(es, |es| - 1);
    LowerBoundIs(es, es[i].key, i);
    if i < |es| - 1 {
      OffsetsIncrease(es, i, |es| - 1);
    }
  }

  lemma {:induction false} SplitWhole(es: seq<Part>, i: nat, length: nat, diskOffset: int, q: seq<int>)
    requires WellFormed(es) && 0 < i < |es| && 0 < length < es[i].val.length
    requires var o, end, p := es[i].val.offset, es[i].val.offset + length, Places(es);
             && o <= |p| && end <= |q| && q[..o] == p[..o] && q[o..end] == Extent(diskOffset, length)
             && LeavesBehind(es, p, i, o, end, q[end..])
    ensures var o, e, p := es[i].val.offset, es[i].val.End(), Places(es);
            e <= |p| && q == p[..o] + (Extent(diskOffset, length) + (p[o..e - length] + p[e..]))
  {
    var o, end := es[i].val.offset, es[i].val.offset + length;
    assert q == q[..o] + (q[o..end] + q[end..]);
  }

  /**
   A write inside a slice, neither the first byte of it nor the last, with another slice behind it: what is left of the
   slice behind the write is replaced by what lies in the log in front of the next slice's place.
   */
  lemma {:induction false} TailReachesBack(es: seq<Part>, i: nat, offset: nat, length: nat, diskOffset: int)
    requires WellFormed(es) && Keyed(es) && 0 < i < |es| && length > 0
    requires es[i - 1].val.offset < offset && offset + length < es[i].val.offset
    ensures offset <= Size(es)
    ensures var b, end := es[i].val.offset, offset + length;
            var p, u := Places(es), Updated(es, offset, length, diskOffset);
            && u.Some? && b < |p|
            && Places(u.value) == p[..offset] + (Extent(diskOffset, length)
                                                 + (Extent(p[b] - (b - end), b - end) + p[b..]))
  {
    StartsInside(es, i, offset);
    UpdateLeaves(es, offset, length, diskOffset);
    TailWhole(es, i, offset, length, diskOffset, Places(Updated(es, offset, length, diskOffset).value));
  }

  lemma {:induction false} StartsInside(es: seq<Part>, i: nat, offset: nat)
    requires WellFormed(es) && Keyed(es) && 0 < i < |es| && es[i - 1].val.offset < offset < es[i].val.offset
    ensures LowerBound(es, offset) == i && offset <= Size(es)
  {
    StartsAt(es, i);
    assert KeyedAt(es, i) && KeyedAt(es, i - 1);
    LowerBoundIs(es, offset, i);
  }

  lemma {:induction false} TailWhole(es: seq<Part>, i: nat, offset: nat, length: nat, diskOffset: int, q: seq<int>)
    requires WellFormed(es) && 0 < i < |es| && offset + length < es[i].val.offset
    requires var end, p := offset + length, Places(es);
             && offset <= |p| && end <= |q|
             && q[..offset] == p[..offset] && q[offset..end] == Extent(diskOffset, length)
             && LeavesBehind(es, p, i, offset, end, q[end..])
    ensures var b, end, p := es[i].val.offset, offset + length, Places(es);
            b < |p| && q == p[..offset] + (Extent(diskOffset, length) + (Extent(p[b] - (b - end), b - end) + p[b..]))
  {
    var end := offset + length;
    assert q == q[..offset] + (q[offset..end] + q[end..]);
  }

  lemma {:induction false} SortedSplit(es: seq<Part>, q: nat)
    requires Sorted(es) && q <= |es|
    ensures Sorted(es[..q]) && Sorted(es[q..])
  {
    assert es == es[..q] + es[q..];
    SortedParts(es[..q], es[q..]);
  }

  /** A slice put in place of the one at q, under a key that keeps the order and an end that keeps the chain. */
  lemma {:induction false} ReplaceFirst(es: seq<Part>, q: nat, e: Part)
    requires WellFormed(es) && q < |es| && e.val.length > 0 && e.val.End() == es[q].val.End()
    requires q + 1 < |es| ==> e.key < es[q + 1].key
    ensures Sorted([e] + es[q + 1..]) && Chained([e] + es[q + 1..])
  {
    SortedSplit(es, q + 1);
    ChainedSplit(es, q + 1);
    SortedJoin([e], es[q + 1..]);
    ChainedJoin([e], es[q + 1..]);
  }

  ghost predicate Follows(es: seq<Part>, key: nat, offset: nat) {
    Sorted(es) && Chained(es) && (es != [] ==> key < es[0].key && es[0].val.offset == offset)
  }

  lemma {:induction false} TrimmedShape(es: seq<Part>, i: nat, at: nat, key: nat)
    requires WellFormed(es) && 0 < i <= |es| && key < at && (i < |es| ==> key < es[i].key)
    ensures Follows(Trimmed(es, i, at), key, at)
  {
    var q := Beyond(es, i, at);
    if q < |es| {
      assert Before(es, i, q) && Before(es, q, q + 1);
      ReplaceFirst(es, q, MoveStart(es[q], at));
    }
  }

  lemma {:induction false} RestShape(es: seq<Part>, offset: nat, length: nat)
    requires WellFormed(es) && Keyed(es) && length > 0 && offset <= Size(es)
    ensures Follows(Rest(es, offset, length), offset, offset + length)
  {
    var i, end := LowerBound(es, offset), offset + length;
    Boundaries(es, offset);
    if es == [] {
    } else if i == 0 {
      assert Linked(es, 0) && KeyedAt(es, 0) && KeyedAt(es, 1);
      if es[0].val.End() <= end {
        TrimmedShape(es, 1, end, offset);
      } else {
        ReplaceFirst(es, 0, Rekeyed(MoveStart(es[0], end)));
      }
    } else if 0 < i < |es| {
      RestShapeInside(es, offset, length);
    }
  }

  lemma {:induction false} BehindShape(es: seq<Part>, i: nat, offset: nat, end: nat, r: seq<Part>, sound: bool)
    requires WellFormed(es) && Keyed(es) && 0 < i < |es| && PutsBehind(es, i, offset, end, r, sound)
    requires offset < end && offset <= es[i].key
    ensures Follows(r, offset, end)
  {
    assert Linked(es, i) && KeyedAt(es, i) && KeyedAt(es, i + 1) && Before(es, i, i + 2);
    if es[i].key != offset {
      TrimmedShape(es, i, end, offset);
    } else if end < es[i].val.End() {
      ReplaceFirst(es, i, Entry(end, Slice(end, es[i].val.End() - end, es[i].val.diskOffset)));
    } else if end == es[i].val.End() {
      SuffixShape(es, i + 1);
    } else {
      TrimmedShape(es, i + 2, end, offset);
    }
  }

  lemma {:induction false} RestShapeInside(es: seq<Part>, offset: nat, length: nat)
    requires WellFormed(es) && Keyed(es) && length > 0 && offset <= Size(es) && 0 < LowerBound(es, offset) < |es|
    ensures Follows(Rest(es, offset, length), offset, offset + length)
  {
    var i, rest := LowerBound(es, offset), Rest(es, offset, length);
    Boundaries(es, offset);
    if RunsOff(es, offset, length) {
      assert rest == [];
    } else {
      RestPutsBehind(es, offset, length, i);
      BehindShape(es, i, offset, offset + length, rest, Sound(es, offset, length));
    }
  }

  lemma {:induction false} SuffixShape(es: seq<Part>, q: nat)
    requires WellFormed(es) && Keyed(es) && 0 < q <= |es|
    ensures Follows(es[q..], es[q - 1].key, es[q - 1].val.End())
  {
    SortedSplit(es, q);
    ChainedSplit(es, q);
    assert Before(es, q - 1, q);
  }

  lemma {:induction false} FrontShape(es: seq<Part>, offset: nat)
    requires WellFormed(es) && Keyed(es) && offset <= Size(es)
    ensures var f := Front(es, offset);
            && WellFormed(f)
            && (if f == [] then offset == 0 else f[|f| - 1].key < offset && f[|f| - 1].val.End() == offset)
  {
    var i := LowerBound(es, offset);
    Boundaries(es, offset);
    if es != [] && i > 0 {
      assert KeyedAt(es, i - 1);
      SortedSplit(es, i);
      ChainedSplit(es, i);
      if !(i < |es| && es[i].key == offset) {
        SortedSplit(es, i - 1);
        ChainedSplit(es, i - 1);
        assert Before(es, i - 2, i - 1);
        SortedJoin(es[..i - 1], [ShortenTo(es[i - 1], offset)]);
        ChainedJoin(es[..i - 1], [ShortenTo(es[i - 1], offset)]);
      }
    }
  }

  /** Whatever update does wrong, the block stays one without gaps. */
  lemma {:induction false} UpdateKeepsShape(es: seq<Part>, offset: nat, length: nat, diskOffset: int)
    requires WellFormed(es) && Keyed(es) && length > 0 && offset <= Size(es)
    ensures var u := Updated(es, offset, length, diskOffset); u.Some? ==> WellFormed(u.value) && u.value != []
  {
    var e := Entry(offset, Slice(offset, length, diskOffset));
    var front, rest := Front(es, offset), Rest(es, offset, length);
    FrontShape(es, offset);
    RestShape(es, offset, length);
    SortedJoin([e], rest);
    ChainedJoin([e], rest);
    SortedJoin(front, [e] + rest);
    ChainedJoin(front, [e] + rest);
  }

  // ---------------------------------------------------------------------------------------------
  // Storing and loading
  // ---------------------------------------------------------------------------------------------

  /** The stored form: the slices in key order, without the keys. */
  function Stored(es: seq<Part>): (v: seq<Slice>)
    ensures |v| == |es|
  {
    seq(|es|, i requires 0 <= i < |es| => es[i].val)
  }

  /** Loading files each slice under its own offset, in turn. */
  function Loaded(v: seq<Slice>): seq<Part> {
    if v == [] then [] else var s := v[|v| - 1]; Put(Loaded(v[..|v| - 1]), s.offset, s)
  }

  function Refiled(es: seq<Part>): (r: seq<Part>)
    ensures |r| == |es|
  {
    seq(|es|, i requires 0 <= i < |es| => Rekeyed(es[i]))
  }

  lemma {:induction false} OffsetsIncrease(es: seq<Part>, i: nat, j: nat)
    requires Chained(es) && i < j < |es|
    ensures es[i].val.offset < es[j].val.offset
    decreases j - i
  {
    assert Linked(es, j - 1);
    if i < j - 1 {
      OffsetsIncrease(es, i, j - 1);
    }
  }

  lemma {:induction false} RefiledShape(es: seq<Part>)
    requires WellFormed(es)
    ensures WellFormed(Refiled(es)) && Keyed(Refiled(es))
    ensures Length(Refiled(es)) == Size(Refiled(es)) == Size(es)
  {
    var r := Refiled(es);
    forall i, j ensures Before(r, i, j) {
      if 0 <= i < j < |es| {
        OffsetsIncrease(es, i, j);
      }
    }
    forall i ensures Linked(r, i) && KeyedAt(r, i) {
      assert Linked(es, i);
    }
  }

  lemma {:induction false} RefiledPlaces(es: seq<Part>)
    ensures Places(Refiled(es)) == Places(es)
  {
    if es != [] {
      RefiledPlaces(es[1..]);
      assert Refiled(es)[1..] == Refiled(es[1..]);
    }
  }

  lemma {:induction false} PutLast(es: seq<Part>, s: Slice)
    requires Sorted(es) && (es != [] ==> es[|es| - 1].key < s.offset)
    ensures Put(es, s.offset, s) == es + [Entry(s.offset, s)]
  {
    LowerBoundIs(es, s.offset, |es|);
  }

  lemma {:induction false} LoadedPrefix(es: seq<Part>, n: nat)
    requires WellFormed(es) && n <= |es|
    ensures Loaded(Stored(es)[..n]) == Refiled(es)[..n]
  {
    if n > 0 {
      LoadedPrefix(es, n - 1);
      RefiledShape(es);
      SortedSplit(Refiled(es), n - 1);
      assert Before(Refiled(es), n - 2, n - 1);
      assert Stored(es)[..n][..n - 1] == Stored(es)[..n - 1];
      PutLast(Refiled(es)[..n - 1], Stored(es)[n - 1]);
    }
  }

  /**
   Storing and loading repairs the keys: every slice is filed under its true offset, every byte keeps its place in the
   log, and the length the program computes is the true one.
   */
  lemma {:induction false} ReloadRepairs(es: seq<Part>)
    requires WellFormed(es)
    ensures var r := Loaded(Stored(es));
            WellFormed(r) && Keyed(r) && Places(r) == Places(es) && Length(r) == Size(es)
  {
    LoadedPrefix(es, |es|);
    assert Stored(es)[..|es|] == Stored(es) && Refiled(es)[..|es|] == Refiled(es);
    RefiledShape(es);
    RefiledPlaces(es);
  }

  // ---------------------------------------------------------------------------------------------
  // The length the program computes after an update
  // ---------------------------------------------------------------------------------------------

  /** The index from which update erases behind the new slice, in the branches that erase there. */
  function TrimsFrom(es: seq<Part>, offset: nat, length: nat): Option<nat> {
    var i, end := LowerBound(es, offset), offset + length;
    if i == |es| then None
    else if i == 0 then if es[0].val.End() <= end then Some(1) else None
    else if es[i].key != offset then Some(i)
    else if es[i].val.End() < end then Some(i + 2)
    else None
  }

  /**
   When update moves the last slice's start away from its key: the write ends before the block does, other than at the
   last key, and the last slice is the one at which the erasing stops. It stops there because the write reaches into
   it, or because there is no other slice behind the index from which it erases.
   */
  ghost predicate MovesLast(es: seq<Part>, offset: nat, length: nat) {
    var from, end, n := TrimsFrom(es, offset, length), offset + length, |es|;
    && from.Some? && from.value < n
    && es[n - 1].key != end < Size(es)
    && (es[n - 1].key < end || from.value == n - 1)
  }

  /** What the computed length of a well-formed map comes to, for a last slice that was moved to `at` or not. */
  ghost predicate LengthComesTo(r: seq<Part>, key: nat, end: nat, at: nat, moved: bool)
    requires r != []
  {
    if moved then Length(r) + at == key + end && Size(r) == end else Length(r) == Size(r)
  }

  lemma {:induction false} LastEndIs(es: seq<Part>, i: nat, at: nat)
    requires WellFormed(es) && Keyed(es) && i < |es|
    ensures Beyond(es, i, at) == |es| - 1
       <==> at < Size(es) && (es[|es| - 1].key <= at || i == |es| - 1)
    ensures Beyond(es, i, at) == |es| <==> Size(es) <= at
  {
    var n, q := |es|, Beyond(es, i, at);
    assert Linked(es, n - 2) && KeyedAt(es, n - 1);
    if q + 1 < n {
      assert Linked(es, q);
      if q + 1 < n - 1 {
        OffsetsIncrease(es, q + 1, n - 1);
      }
    }
  }

  lemma {:induction false} TrimmedLength(es: seq<Part>, i: nat, at: nat, r: seq<Part>, moved: bool)
    requires WellFormed(es) && Keyed(es) && 0 < i <= |es| && r == Trimmed(es, i, at)
    requires moved <==> i < |es| && es[|es| - 1].key != at < Size(es) && (es[|es| - 1].key < at || i == |es| - 1)
    ensures if r == [] then !moved else LengthComesTo(r, es[|es| - 1].key, Size(es), at, moved)
  {
    if i < |es| {
      LastEndIs(es, i, at);
      assert KeyedAt(es, |es| - 1);
    }
  }

  /** Behind the new slice, branch by branch. */
  lemma {:induction false} RestLength(es: seq<Part>, offset: nat, length: nat, r: seq<Part>, moved: bool)
    requires WellFormed(es) && Keyed(es) && length > 0 && offset <= Size(es) && !RunsOff(es, offset, length)
    requires r == Rest(es, offset, length) && es != [] && (moved <==> MovesLast(es, offset, length))
    ensures if r == [] then !moved else LengthComesTo(r, es[|es| - 1].key, Size(es), offset + length, moved)
  {
    var i, end := LowerBound(es, offset), offset + length;
    Boundaries(es, offset);
    assert KeyedAt(es, |es| - 1);
    var from := TrimsFrom(es, offset, length);
    if from.Some? {
      assert r == Trimmed(es, from.value, end);
      TrimmedLength(es, from.value, end, r, moved);
    }
  }

  /** The last slice decides both lengths. */
  lemma {:induction false} LengthOfEnd(a: seq<Part>, b: seq<Part>)
    requires b != []
    ensures Length(a + b) == Length(b) && Size(a + b) == Size(b)
  {
  }

  /**
   Main result on the length that update reports: it is exact unless the update moves the last slice. Then the block
   is as long as before, and the reported length is the last key plus what is left of the last slice.
   */
  lemma {:induction false} LengthExact(es: seq<Part>, offset: nat, length: nat, diskOffset: int)
    requires WellFormed(es) && Keyed(es) && length > 0 && offset <= Size(es)
    ensures var u := Updated(es, offset, length, diskOffset);
            u.Some? ==>
              && |Places(u.value)| == Size(u.value)
              && (Length(u.value) == |Places(u.value)| <==> !MovesLast(es, offset, length))
              && (MovesLast(es, offset, length) ==>
                    && |Places(u.value)| == |Places(es)|
                    && Length(u.value) == es[|es| - 1].key + (Size(es) - (offset + length)))
  {
    var u := Updated(es, offset, length, diskOffset);
    if u.Some? {
      var e, rest := Entry(offset, Slice(offset, length, diskOffset)), Rest(es, offset, length);
      UpdateKeepsShape(es, offset, length, diskOffset);
      PlacesSize(es);
      PlacesSize(u.value);
      LengthOfEnd(Front(es, offset), [e] + rest);
      if rest != [] {
        LengthOfEnd([e], rest);
      }
      if es != [] {
        RestLength(es, offset, length, rest, MovesLast(es, offset, length));
      }
    }
  }

  // ---------------------------------------------------------------------------------------------
  // set_len
  // ---------------------------------------------------------------------------------------------

  /** The first slice whose key and length reach `length`. */
  function Reaching(es: seq<Part>, i: nat, length: nat): (q: nat)
    requires i <= |es|
    ensures i <= q <= |es|
    ensures forall k :: i <= k < q ==> es[k].key + es[k].val.length < length
    ensures q < |es| ==> length <= es[q].key + es[q].val.length
    decreases |es| - i
  {
    if i == |es| || length <= es[i].key + es[i].val.length then i else Reaching(es, i + 1, length)
  }

  lemma {:induction false} ReachingIs(es: seq<Part>, i: nat, length: nat, q: nat)
    requires i <= q <= |es| && (forall k :: i <= k < q ==> es[k].key + es[k].val.length < length)
    requires q < |es| ==> length <= es[q].key + es[q].val.length
    ensures Reaching(es, i, length) == q
    decreases q - i
  {
    if i < q {
      ReachingIs(es, i + 1, length, q);
    }
  }

  /**
   The map after set_len(length). It is undefined when no slice reaches the length (the iterator is advanced past the
   end) and when slices follow the one that does (they are erased under the loop's own iterator).
   */
  function Resized(es: seq<Part>, length: nat): Option<seq<Part>>
    requires WellFormed(es) && Keyed(es) && length > 0
  {
    var q := Reaching(es, 0, length);
    ReachingStart(es, length);
    if q + 1 == |es| then Some(es[q := Entry(es[q].key, es[q].val.(length := length - es[q].key))]) else None
  }

  lemma {:induction false} ReachingStart(es: seq<Part>, length: nat)
    requires WellFormed(es) && Keyed(es) && length > 0
    ensures var q := Reaching(es, 0, length);
            q < |es| ==> es[q].key < length && es[q].key == es[q].val.offset
  {
    var q := Reaching(es, 0, length);
    assert KeyedAt(es, q) && KeyedAt(es, q as int - 1) && Linked(es, q as int - 1);
  }

  /** Main result on set_len: it is defined and cuts the block exactly when the cut falls in the last slice. */
  lemma {:induction false} ResizeRefines(es: seq<Part>, length: nat)
    requires WellFormed(es) && Keyed(es) && length > 0
    ensures var u := Resized(es, length);
            && (u.Some? <==> es != [] && es[|es| - 1].val.offset < length <= Size(es))
            && (u.Some? ==> WellFormed(u.value) && Keyed(u.value)
                            && length <= |Places(es)| && Places(u.value) == Places(es)[..length])
  {
    var q, n := Reaching(es, 0, length), |es|;
    ReachingStart(es, length);
    if q + 1 == n {
      var r := Resized(es, length).value;
      HeadPlaces(es, q, length);
      assert r == es[..q] + [ShortenTo(es[q], length)];
      SortedPut(es, q, es[q].val.(length := length - es[q].key));
      forall i ensures Linked(r, i) && KeyedAt(r, i) {
        assert Linked(es, i) && KeyedAt(es, i);
      }
    } else if q + 1 < n {
      assert KeyedAt(es, q) && Linked(es, q);
      if q + 1 < n - 1 {
        OffsetsIncrease(es, q + 1, n - 1);
      }
    } else if n > 0 {
      assert KeyedAt(es, n - 1);
    }
  }

  // ---------------------------------------------------------------------------------------------
  // What part of the log a map reaches into, whether or not its updates were sound
  // ---------------------------------------------------------------------------------------------

  ghost predicate EndsBy(es: seq<Part>, i: int, limit: int) {
    0 <= i < |es| ==> es[i].val.diskOffset + es[i].val.length <= limit
  }

  /** No slice reaches beyond `limit` in the log. */
  ghost predicate Within(es: seq<Part>, limit: int) {
    forall i :: EndsBy(es, i, limit)
  }

  lemma {:induction false} WithinJoin(a: seq<Part>, b: seq<Part>, limit: int)
    requires Within(a, limit) && Within(b, limit)
    ensures Within(a + b, limit)
  {
    forall i ensures EndsBy(a + b, i, limit) {
      assert EndsBy(a, i, limit) && EndsBy(b, i - |a|, limit);
    }
  }

  lemma {:induction false} WithinSplit(es: seq<Part>, q: nat, limit: int)
    requires Within(es, limit) && q <= |es|
    ensures Within(es[..q], limit) && Within(es[q..], limit)
  {
    forall i ensures EndsBy(es[..q], i, limit) && EndsBy(es[q..], i, limit) {
      assert EndsBy(es, i, limit) && EndsBy(es, q + i, limit);
    }
  }

  lemma {:induction false} OneWithin(e: Part, limit: int)
    requires e.val.diskOffset + e.val.length <= limit
    ensures Within([e], limit)
  {
    forall i ensures EndsBy([e], i, limit) {
    }
  }

  lemma {:induction false} ReplacedWithin(es: seq<Part>, q: nat, e: Part, limit: int)
    requires Within(es, limit) && q < |es| && e.val.diskOffset + e.val.length <= limit
    ensures Within([e] + es[q + 1..], limit)
  {
    OneWithin(e, limit);
    WithinSplit(es, q + 1, limit);
    WithinJoin([e], es[q + 1..], limit);
  }

  lemma {:induction false} TrimmedWithin(es: seq<Part>, i: nat, at: nat, limit: int)
    requires Within(es, limit) && i <= |es|
    ensures Within(Trimmed(es, i, at), limit)
  {
    var q := Beyond(es, i, at);
    if q < |es| {
      assert EndsBy(es, q, limit);
      ReplacedWithin(es, q, MoveStart(es[q], at), limit);
    } else {
      WithinSplit(es, 0, limit);
      assert Trimmed(es, i, at) == es[..0];
    }
  }

  lemma {:induction false} FrontWithin(es: seq<Part>, offset: nat, limit: int)
    requires WellFormed(es) && Keyed(es) && offset <= Size(es) && Within(es, limit)
    ensures Within(Front(es, offset), limit)
  {
    var i := LowerBound(es, offset);
    Boundaries(es, offset);
    WithinSplit(es, i, limit);
    if es != [] && i > 0 && !(i < |es| && es[i].key == offset) {
      assert EndsBy(es, i - 1, limit);
      WithinSplit(es, i - 1, limit);
      OneWithin(ShortenTo(es[i - 1], offset), limit);
      WithinJoin(es[..i - 1], [ShortenTo(es[i - 1], offset)], limit);
    }
  }

  lemma {:induction false} RestWithin(es: seq<Part>, offset: nat, length: nat, limit: int)
    requires WellFormed(es) && Keyed(es) && offset <= Size(es) && Within(es, limit)
    ensures Within(Rest(es, offset, length), limit)
  {
    var i, end, rest := LowerBound(es, offset), offset + length, Rest(es, offset, length);
    Boundaries(es, offset);
    if rest == [] {
    } else if i == 0 {
      assert EndsBy(es, 0, limit);
      if es[0].val.End() <= end {
        TrimmedWithin(es, 1, end, limit);
      } else {
        ReplacedWithin(es, 0, Rekeyed(MoveStart(es[0], end)), limit);
      }
    } else if i == |es| {
      assert EndsBy(es, i - 1, limit);
      OneWithin(Rekeyed(MoveStart(es[i - 1], end)), limit);
    } else {
      RestWithinInside(es, offset, length, limit);
    }
  }

  lemma {:induction false} BehindWithin(es: seq<Part>, i: nat, offset: nat, end: nat, r: seq<Part>, sound: bool,
                                       limit: int)
    requires Within(es, limit) && 0 < i < |es| && PutsBehind(es, i, offset, end, r, sound)
    requires es[i].key == offset ==> es[i].val.offset <= end
    ensures Within(r, limit)
  {
    assert EndsBy(es, i, limit);
    if es[i].key != offset {
      TrimmedWithin(es, i, end, limit);
    } else if end < es[i].val.End() {
      ReplacedWithin(es, i, Entry(end, Slice(end, es[i].val.End() - end, es[i].val.diskOffset)), limit);
    } else if end == es[i].val.End() {
      WithinSplit(es, i + 1, limit);
    } else {
      TrimmedWithin(es, i + 2, end, limit);
    }
  }

  lemma {:induction false} RestWithinInside(es: seq<Part>, offset: nat, length: nat, limit: int)
    requires WellFormed(es) && Keyed(es) && offset <= Size(es) && Within(es, limit)
    requires 0 < LowerBound(es, offset) < |es|
    ensures Within(Rest(es, offset, length), limit)
  {
    var i, rest := LowerBound(es, offset), Rest(es, offset, length);
    Boundaries(es, offset);
    if RunsOff(es, offset, length) {
      assert rest == [];
    } else {
      RestPutsBehind(es, offset, length, i);
      BehindWithin(es, i, offset, offset + length, rest, Sound(es, offset, length), limit);
    }
  }

  /** Sound or not, an update reaches no further into the log than the old map and the new slice do. */
  lemma {:induction false} UpdatedWithin(es: seq<Part>, offset: nat, length: nat, diskOffset: int, limit: int)
    requires WellFormed(es) && Keyed(es) && length > 0 && offset <= Size(es)
    requires Within(es, limit) && diskOffset + length <= limit
    ensures var u := Updated(es, offset, length, diskOffset); u.Some? ==> Within(u.value, limit)
  {
    var e, rest := Entry(offset, Slice(offset, length, diskOffset)), Rest(es, offset, length);
    FrontWithin(es, offset, limit);
    RestWithin(es, offset, length, limit);
    OneWithin(e, limit);
    WithinJoin([e], rest, limit);
    WithinJoin(Front(es, offset), [e] + rest, limit);
  }

  lemma {:induction false} ResizedWithin(es: seq<Part>, length: nat, limit: int)
    requires WellFormed(es) && Keyed(es) && length > 0 && Within(es, limit)
    ensures var u := Resized(es, length); u.Some? ==> Within(u.value, limit)
  {
    var u := Resized(es, length);
    ReachingStart(es, length);
    if u.Some? {
      forall i ensures EndsBy(u.value, i, limit) {
        assert EndsBy(es, i, limit);
      }
    }
  }

  lemma {:induction false} LoadedWithin(es: seq<Part>, limit: int)
    requires WellFormed(es) && Within(es, limit)
    ensures Within(Loaded(Stored(es)), limit)
  {
    LoadedPrefix(es, |es|);
    assert Stored(es)[..|es|] == Stored(es) && Refiled(es)[..|es|] == Refiled(es);
    forall i ensures EndsBy(Refiled(es), i, limit) {
      assert EndsBy(es, i, limit);
    }
  }

  lemma {:induction false} PlacesWithin(es: seq<Part>, limit: int, j: nat)
    requires Within(es, limit) && j < |Places(es)|
    ensures Places(es)[j] < limit
  {
    assert EndsBy(es, 0, limit);
    if j >= es[0].val.length {
      WithinSplit(es, 1, limit);
      PlacesWithin(es[1..], limit, j - es[0].val.length);
    }
  }

  /** The place of the last byte of a slice. */
  lemma {:induction false} LastPlace(es: seq<Part>, i: nat)
    requires WellFormed(es) && i < |es|
    ensures es[i].val.diskOffset + es[i].val.length - 1 in Places(es)
  {
    var front, here := Places(es[..i]), Extent(es[i].val.diskOffset, es[i].val.length);
    PlacesSplit(es, i);
    assert Linked(es, i);
    var k := |front| + (|here| - 1);
    assert Places(es)[k] == here[|here| - 1];
  }
}
