/**
 The extent map of a file: address -> (replica list, offset into the block).
 Every operation is given twice: as a function on the entries, which the theorems are about, and as a method of the
 class IntervalMap, which edits its field step by step as the program does and is proved to compute that function.
 */
module Extents {
  import opened Wrappers
  import opened OrderedMap

  datatype Location = Location(server: nat, block: nat)

  datatype Slice = Slice(location: seq<Location>, offset: nat, length: nat)

  type Extent = Entry<Slice>

  function End(e: Extent): nat {
    e.key + e.val.length
  }

  ghost predicate Joined(es: seq<Extent>, i: int) {
    0 <= i < |es| - 1 ==> End(es[i]) == es[i + 1].key
  }

  /** Each entry ends where the next one starts. */
  ghost predicate Gapless(es: seq<Extent>) {
    Sorted(es) && forall i :: Joined(es, i)
  }

  /** What every run keeps: no hole and no overlap from address 0 on. (An empty slice can then only be the last.) */
  ghost predicate WellFormed(es: seq<Extent>) {
    Gapless(es) && (es != [] ==> es[0].key == 0)
  }

  function Length(es: seq<Extent>): nat {
    if es == [] then 0 else End(es[|es| - 1])
  }

  // ---------------------------------------------------------------------------------------------
  // The meaning of an extent map: a flat array of cells
  // ---------------------------------------------------------------------------------------------

  /** Where one byte of the file lives: at `offset` in each of the blocks listed. */
  datatype Cell = Cell(location: seq<Location>, offset: nat)

  function Cells(s: Slice): (c: seq<Cell>)
    ensures |c| == s.length
  {
    seq(s.length, j requires 0 <= j < s.length => Cell(s.location, s.offset + j))
  }

  function Flat(es: seq<Extent>): seq<Cell> {
    if es == [] then [] else Cells(es[0].val) + Flat(es[1..])
  }

  function Locations(f: seq<Cell>): (r: seq<seq<Location>>)
    ensures |r| == |f|
  {
    seq(|f|, j requires 0 <= j < |f| => f[j].location)
  }

  /** The flat array's own write: pad with unreplicated cells up to the address, then overwrite. */
  function Padded(f: seq<Cell>, address: nat): (r: seq<Cell>)
    ensures |r| == if address <= |f| then |f| else address
  {
    if address <= |f| then f else f + Cells(Slice([], 0, address - |f|))
  }

  function Overwritten(f: seq<Cell>, address: nat, data: seq<Cell>): seq<Cell> {
    Spliced(Padded(f, address), address, data)
  }

  lemma {:induction false} FlatConcat(a: seq<Extent>, b: seq<Extent>)
    ensures Flat(a + b) == Flat(a) + Flat(b)
  {
    if a == [] {
      assert a + b == b;
    } else {
      assert (a + b)[1..] == a[1..] + b;
      FlatConcat(a[1..], b);
      ConcatAssoc(Cells(a[0].val), Flat(a[1..]), Flat(b));
    }
  }

  lemma {:induction false} GaplessParts(a: seq<Extent>, b: seq<Extent>)
    requires Gapless(a + b)
    ensures Gapless(a) && Gapless(b)
    ensures a != [] && b != [] ==> End(a[|a| - 1]) == b[0].key
  {
    SortedParts(a, b);
    forall i ensures Joined(a, i) && Joined(b, i) {
      assert Joined(a + b, i) && Joined(a + b, |a| + i);
    }
    assert Joined(a + b, |a| - 1);
  }

  lemma {:induction false} GaplessJoin(a: seq<Extent>, b: seq<Extent>)
    requires Gapless(a) && Gapless(b)
    requires a != [] && b != [] ==> End(a[|a| - 1]) == b[0].key && a[|a| - 1].key < b[0].key
    ensures Gapless(a + b)
  {
    SortedJoin(a, b);
    forall i ensures Joined(a + b, i) {
      assert Joined(a, i) && Joined(b, i - |a|);
    }
  }

  lemma {:induction false} GaplessTail(es: seq<Extent>)
    requires Gapless(es) && es != []
    ensures Gapless(es[1..])
    ensures |es| > 1 ==> End(es[0]) == es[1].key
  {
    assert es == [es[0]] + es[1..];
    GaplessParts([es[0]], es[1..]);
  }

  lemma {:induction false} FlatLength(es: seq<Extent>)
    requires Gapless(es) && es != []
    ensures |Flat(es)| == End(es[|es| - 1]) - es[0].key
  {
    if |es| > 1 {
      GaplessTail(es);
      FlatLength(es[1..]);
    } else {
      assert Flat(es[1..]) == [];
    }
  }

  // ---------------------------------------------------------------------------------------------
  // insert
  // ---------------------------------------------------------------------------------------------

  /** What is left of an entry to the right of `at`. The entry's own offset is dropped, as the program does. */
  function Cut(e: Extent, at: nat): Extent
    requires e.key <= at <= End(e)
  {
    Entry(at, Slice(e.val.location, at - e.key, End(e) - at))
  }

  /** The first entry from index i on that ends at or after `at`. */
  function Reach(es: seq<Extent>, i: nat, at: nat): (q: nat)
    requires i <= |es|
    ensures i <= q <= |es|
    ensures forall k :: i <= k < q ==> End(es[k]) < at
    ensures q < |es| ==> at <= End(es[q])
    decreases |es| - i
  {
    if i == |es| || at <= End(es[i]) then i else Reach(es, i + 1, at)
  }

  lemma {:induction false} ReachIs(es: seq<Extent>, i: nat, at: nat, q: nat)
    requires i <= q <= |es| && (forall k :: i <= k < q ==> End(es[k]) < at) && (q < |es| ==> at <= End(es[q]))
    ensures Reach(es, i, at) == q
  {
  }

  /** Entries i.. after those that end before `at` are erased and the first that reaches it is cut (at a free key). */
  function CutFrom(es: seq<Extent>, i: nat, at: nat): seq<Extent>
    requires Gapless(es) && i <= |es| && (i < |es| ==> es[i].key <= at)
  {
    var q := Reach(es, i, at);
    ReachStart(es, i, at);
    if q == |es| then []
    else if End(es[q]) == at && q + 1 < |es| then es[q + 1..]
    else [Cut(es[q], at)] + es[q + 1..]
  }

  lemma {:induction false} ReachStart(es: seq<Extent>, i: nat, at: nat)
    requires Gapless(es) && i <= |es| && (i < |es| ==> es[i].key <= at)
    ensures var q := Reach(es, i, at);
            && (q < |es| ==> es[q].key <= at)
            && (q > i && q < |es| ==> es[q].key < at)
  {
    assert Joined(es, Reach(es, i, at) as int - 1);
  }

  /** What CutFrom leaves, by the entry the erasing stops at. */
  ghost predicate CutThere(es: seq<Extent>, k: nat, end: nat, r: seq<Extent>) {
    k <= |es| &&
    if k == |es| then r == []
    else
      && es[k].key <= end <= End(es[k]) && (k + 1 < |es| ==> End(es[k]) == es[k + 1].key)
      && r == (if k + 1 < |es| && End(es[k]) == end then es[k + 1..] else [Cut(es[k], end)] + es[k + 1..])
  }

  lemma {:induction false} CutFromIs(es: seq<Extent>, i: nat, end: nat, k: nat, r: seq<Extent>)
    requires Gapless(es) && i <= |es| && (i < |es| ==> es[i].key <= end) && k == Reach(es, i, end)
    requires r == CutFrom(es, i, end)
    ensures CutThere(es, k, end, r)
    ensures k == |es| > i ==> End(es[k - 1]) < end
  {
    ReachStart(es, i, end);
    assert Joined(es, k);
  }

  /** std::map::insert in front of a tail: ignored when the tail starts at the same key. */
  function Placed(e: Extent, tail: seq<Extent>): seq<Extent> {
    if tail != [] && tail[0].key == e.key then tail else [e] + tail
  }

  function ClippedAt(e: Extent, at: nat): Extent
    requires e.key <= at
  {
    Entry(e.key, e.val.(length := at - e.key))
  }

  /** The entries after insert(address, length, location). */
  function Inserted(es: seq<Extent>, address: nat, length: nat, location: seq<Location>): seq<Extent>
    requires WellFormed(es)
  {
    var slice := Entry(address, Slice(location, 0, length));
    if es == [] then (if address > 0 then [Entry(0, Slice([], 0, address))] else []) + [slice]
    else if Length(es) < address then
      var last := es[|es| - 1];
      Add(Add(es, End(last), Slice([], 0, address - last.key + last.val.length)), address, slice.val)
    else
      Head(es, address) + Placed(slice, Tail(es, address, length))
  }

  lemma {:induction false} LengthReached(es: seq<Extent>, address: nat)
    requires WellFormed(es) && es != [] && address <= Length(es)
    ensures var i := LowerBound(es, address);
            && (i < |es| && i > 0 ==> End(es[i - 1]) == es[i].key)
            && (i < |es| || i > 0)
            && (i == 0 ==> address == 0)
  {
    var i := LowerBound(es, address);
    assert Joined(es, i as int - 1);
  }

  /** What an in-file insert leaves to the left of the new slice. */
  function Head(es: seq<Extent>, address: nat): seq<Extent>
    requires WellFormed(es) && es != [] && address <= Length(es)
  {
    var i := LowerBound(es, address);
    LengthReached(es, address);
    if i < |es| && es[i].key == address then es[..i] else es[..i - 1] + [ClippedAt(es[i - 1], address)]
  }

  /** What an in-file insert leaves to the right of the new slice. */
  function Tail(es: seq<Extent>, address: nat, length: nat): seq<Extent>
    requires WellFormed(es) && es != [] && address <= Length(es)
  {
    var i := LowerBound(es, address);
    var end := address + length;
    LengthReached(es, address);
    if !(i < |es| && es[i].key == address) && end < End(es[i - 1]) then [Cut(es[i - 1], end)] + es[i..]
    else CutFrom(es, i, end)
  }

  /** The slices whose surviving bytes insert re-bases: their own offset is replaced by one that assumes it was 0. */
  ghost predicate Rebased(es: seq<Extent>, k: nat, address: nat, length: nat)
    requires k < |es|
  {
    var end := address + length;
    && end < End(es[k])
    && (es[k].key < end || (es[k].key == end && (length == 0 || (k > 0 && es[k - 1].key < address))))
  }

  /** The guard under which offsets survive an insert. */
  ghost predicate OffsetsKept(es: seq<Extent>, address: nat, length: nat) {
    forall k: nat :: k < |es| && Rebased(es, k, address, length) ==> es[k].val.offset == 0
  }

  lemma {:induction false} CutCells(e: Extent, at: nat)
    requires e.key <= at <= End(e)
    ensures Locations(Cells(Cut(e, at).val)) == Locations(Cells(e.val)[at - e.key..])
    ensures Cells(Cut(e, at).val) == Cells(e.val)[at - e.key..] <==> at == End(e) || e.val.offset == 0
  {
    if at < End(e) {
      assert Cells(Cut(e, at).val)[0] == Cell(e.val.location, at - e.key);
      assert Cells(e.val)[at - e.key..][0] == Cell(e.val.location, e.val.offset + (at - e.key));
    }
  }

  /** Two flat arrays list the same replicas, and are equal exactly under the condition. */
  ghost predicate Agree(f: seq<Cell>, g: seq<Cell>, kept: bool) {
    Locations(f) == Locations(g) && (f == g <==> kept)
  }

  lemma {:induction false} LocationsConcat(f: seq<Cell>, g: seq<Cell>)
    ensures Locations(f + g) == Locations(f) + Locations(g)
  {
  }

  lemma {:induction false} SamePrefix<T>(a: seq<T>, b: seq<T>, c: seq<T>)
    requires |a| == |b|
    ensures a + c == b + c <==> a == b
  {
    if a + c == b + c {
      assert a == (a + c)[..|a|] && b == (b + c)[..|b|];
    }
  }

  lemma {:induction false} GaplessSplit(es: seq<Extent>, q: nat)
    requires Gapless(es) && q <= |es|
    ensures Gapless(es[..q]) && Gapless(es[q..])
    ensures 0 < q < |es| ==> End(es[q - 1]) == es[q].key
  {
    assert es == es[..q] + es[q..];
    GaplessParts(es[..q], es[q..]);
  }

  lemma {:induction false} FlatPrefix(es: seq<Extent>, q: nat)
    requires WellFormed(es) && q < |es|
    ensures |Flat(es[..q])| == es[q].key
  {
    GaplessSplit(es, q);
    if q > 0 {
      FlatLength(es[..q]);
    }
  }

  lemma {:induction false} FlatWhole(es: seq<Extent>)
    requires WellFormed(es)
    ensures |Flat(es)| == Length(es)
  {
    if es != [] {
      FlatLength(es);
    }
  }

  /** The flat array, split at entry q. */
  lemma {:induction false} FlatSplit(es: seq<Extent>, q: nat)
    requires q < |es|
    ensures Flat(es) == Flat(es[..q]) + (Cells(es[q].val) + Flat(es[q + 1..]))
  {
    var b := es[q..];
    assert es == es[..q] + b && b[1..] == es[q + 1..];
    FlatConcat(es[..q], b);
  }

  /** Cutting one slice and dropping all to its left keeps the replica lists, and the offsets when it is based at 0. */
  lemma {:induction false} CutFlat(es: seq<Extent>, q: nat, at: nat)
    requires WellFormed(es) && q < |es| && es[q].key <= at <= End(es[q])
    ensures var tail := [Cut(es[q], at)] + es[q + 1..];
            && at <= |Flat(es)|
            && Agree(Flat(tail), Flat(es)[at..], at == End(es[q]) || es[q].val.offset == 0)
  {
    var cut, more := Cut(es[q], at), es[q + 1..];
    var d := at - es[q].key;
    FlatPrefix(es, q);
    FlatSplit(es, q);
    CutConcat(Flat(es[..q]), Cells(es[q].val), Flat(more), at);
    assert ([cut] + more)[1..] == more;
    CutCells(es[q], at);
    LocationsConcat(Cells(cut.val), Flat(more));
    LocationsConcat(Cells(es[q].val)[d..], Flat(more));
    SamePrefix(Cells(cut.val), Cells(es[q].val)[d..], Flat(more));
  }

  lemma {:induction false} CutGapless(es: seq<Extent>, q: nat, at: nat)
    requires Gapless(es) && q < |es| && es[q].key <= at <= End(es[q])
    requires at < End(es[q]) || q + 1 == |es|
    ensures Gapless([Cut(es[q], at)] + es[q + 1..])
  {
    GaplessSplit(es, q + 1);
    GaplessJoin([Cut(es[q], at)], es[q + 1..]);
  }

  lemma {:induction false} FlatSuffix(es: seq<Extent>, q: nat)
    requires WellFormed(es) && q < |es|
    ensures es[q].key <= |Flat(es)| && Flat(es[q..]) == Flat(es)[es[q].key..]
  {
    FlatPrefix(es, q);
    assert es == es[..q] + es[q..];
    FlatConcat(es[..q], es[q..]);
  }

  lemma {:induction false} CutBehindFlat(es: seq<Extent>, at: nat)
    requires WellFormed(es) && Length(es) <= at
    ensures Agree(Flat([]), After(Flat(es), at), true)
  {
    FlatWhole(es);
  }

  lemma {:induction false} CutBetweenFlat(es: seq<Extent>, q: nat, at: nat)
    requires WellFormed(es) && q + 1 < |es| && End(es[q]) == at
    ensures Agree(Flat(es[q + 1..]), After(Flat(es), at), true)
  {
    assert Joined(es, q);
    FlatWhole(es);
    GaplessSplit(es, q + 1);
    FlatSuffix(es, q + 1);
  }

  lemma {:induction false} CutInsideFlat(es: seq<Extent>, q: nat, at: nat, r: seq<Extent>)
    requires WellFormed(es) && q < |es| && es[q].key <= at <= End(es[q]) && r == [Cut(es[q], at)] + es[q + 1..]
    ensures Agree(Flat(r), After(Flat(es), at), at < End(es[q]) ==> es[q].val.offset == 0)
  {
    FlatWhole(es);
    CutFlat(es, q, at);
  }

  lemma {:induction false} CutThereFlat(es: seq<Extent>, q: nat, at: nat, r: seq<Extent>)
    requires WellFormed(es) && CutThere(es, q, at, r) && (q == |es| ==> Length(es) <= at)
    ensures Agree(Flat(r), After(Flat(es), at), q < |es| && at < End(es[q]) ==> es[q].val.offset == 0)
  {
    if q == |es| {
      CutBehindFlat(es, at);
    } else if End(es[q]) == at && q + 1 < |es| {
      CutBetweenFlat(es, q, at);
    } else {
      CutInsideFlat(es, q, at, r);
    }
  }

  lemma {:induction false} CutFromFlat(es: seq<Extent>, i: nat, at: nat)
    requires WellFormed(es) && i <= |es| && (if i < |es| then es[i].key <= at else Length(es) <= at)
    ensures var q := Reach(es, i, at);
            Agree(Flat(CutFrom(es, i, at)), After(Flat(es), at), q < |es| && at < End(es[q]) ==> es[q].val.offset == 0)
  {
    var q, r := Reach(es, i, at), CutFrom(es, i, at);
    CutFromIs(es, i, at, q, r);
    CutThereFlat(es, q, at, r);
  }

  lemma {:induction false} CutFromGapless(es: seq<Extent>, i: nat, at: nat)
    requires WellFormed(es) && i <= |es| && (i < |es| ==> es[i].key <= at)
    ensures var c := CutFrom(es, i, at); Gapless(c) && (c != [] ==> c[0].key == at)
  {
    var q := Reach(es, i, at);
    ReachStart(es, i, at);
    if q < |es| {
      GaplessSplit(es, q + 1);
      if End(es[q]) != at || q + 1 == |es| {
        CutGapless(es, q, at);
      }
    }
  }

  lemma {:induction false} HeadFlat(es: seq<Extent>, i: nat, at: nat)
    requires WellFormed(es) && 0 < i <= |es| && es[i - 1].key <= at <= End(es[i - 1])
    ensures at <= |Flat(es)|
    ensures Flat(es[..i - 1] + [ClippedAt(es[i - 1], at)]) == Flat(es)[..at]
  {
    var b := es[i - 1];
    FlatPrefix(es, i - 1);
    FlatSplit(es, i - 1);
    CutConcat(Flat(es[..i - 1]), Cells(b.val), Flat(es[i..]), at);
    FlatConcat(es[..i - 1], [ClippedAt(b, at)]);
    assert Flat([ClippedAt(b, at)]) == Cells(ClippedAt(b, at).val) + Flat([]);
    assert Cells(ClippedAt(b, at).val) == Cells(b.val)[..at - b.key];
  }

  lemma {:induction false} HeadGapless(es: seq<Extent>, i: nat, at: nat)
    requires WellFormed(es) && 0 < i <= |es| && es[i - 1].key <= at
    ensures Gapless(es[..i - 1] + [ClippedAt(es[i - 1], at)])
  {
    var c := ClippedAt(es[i - 1], at);
    GaplessSplit(es, i - 1);
    if i > 1 {
      assert Before(es, i - 2, i - 1);
    }
    GaplessJoin(es[..i - 1], [c]);
  }

  /** The slice whose bytes are re-based, if there is one: the first to reach the end of the insert. */
  function Straddler(es: seq<Extent>, address: nat, length: nat): (q: nat)
    requires WellFormed(es) && es != [] && address <= Length(es)
    ensures q <= |es|
  {
    var i := LowerBound(es, address);
    LengthReached(es, address);
    if i < |es| && es[i].key == address then Reach(es, i, address + length)
    else if address + length < End(es[i - 1]) then i - 1
    else Reach(es, i, address + length)
  }

  /** What is left of slice k when all slices from i up to q are erased and the write ends at `end`, in slice q. */
  lemma {:induction false} RebasedFrom(es: seq<Extent>, i: nat, address: nat, length: nat, q: nat, k: nat)
    requires WellFormed(es) && i <= q <= |es| && k < |es|
    requires forall j :: i <= j < q ==> End(es[j]) < address + length
    requires q < |es| ==> es[q].key <= address + length <= End(es[q]) && (q > i ==> es[q].key < address + length)
    requires i < |es| ==> address <= es[i].key
    requires i > 0 ==> es[i - 1].key < address && End(es[i - 1]) <= address + length
    requires q == i < |es| && es[q].key == address + length ==> length == 0 || (i > 0 && es[i - 1].key < address)
    ensures Rebased(es, k, address, length) <==> k == q && address + length < End(es[q])
  {
    if k < i {
      assert Before(es, k, i - 1) && Joined(es, k) && Before(es, k + 1, i - 1);
    } else if k > q {
      assert Joined(es, k - 1) && Joined(es, q) && Before(es, q, k) && Before(es, q + 1, k) && Before(es, i, q);
    }
  }

  lemma {:induction false} RebasedIs(es: seq<Extent>, address: nat, length: nat, k: nat)
    requires WellFormed(es) && es != [] && address <= Length(es) && k < |es|
    ensures var q := Straddler(es, address, length);
            Rebased(es, k, address, length) <==> k == q && address + length < End(es[q])
  {
    LengthReached(es, address);
    var i, q := LowerBound(es, address), Straddler(es, address, length);
    if q == i as int - 1 && address + length < End(es[q]) {
      RebasedInside(es, i, address, length, k);
    } else {
      assert Joined(es, i as int - 1);
      ReachStart(es, i, address + length);
      RebasedFrom(es, i, address, length, q, k);
    }
  }

  /** A write inside slice i - 1 that ends there too. */
  lemma {:induction false} RebasedInside(es: seq<Extent>, i: nat, address: nat, length: nat, k: nat)
    requires WellFormed(es) && 0 < i <= |es| && k < |es|
    requires es[i - 1].key < address && address + length < End(es[i - 1])
    ensures Rebased(es, k, address, length) <==> k == i - 1
  {
    assert Joined(es, i - 1);
    if k < i - 1 {
      assert Joined(es, k) && Before(es, k + 1, i - 1);
    } else if k >= i {
      assert Before(es, i, k);
    }
  }

  lemma {:induction false} HeadIs(es: seq<Extent>, address: nat)
    requires WellFormed(es) && es != [] && address <= Length(es)
    ensures var head := Head(es, address);
            && WellFormed(head)
            && (if head == [] then address == 0 else End(head[|head| - 1]) == address && head[|head| - 1].key < address)
            && address <= |Flat(es)| && Flat(head) == Flat(es)[..address]
  {
    var i := LowerBound(es, address);
    LengthReached(es, address);
    if i < |es| && es[i].key == address {
      GaplessSplit(es, i);
      FlatPrefix(es, i);
      FlatSplit(es, i);
    } else {
      HeadGapless(es, i, address);
      HeadFlat(es, i, address);
    }
  }

  /** The two ways insert deals with its right end: it cuts the slice it starts in, or erases from slice i on. */
  ghost predicate TailThere(es: seq<Extent>, i: nat, end: nat, q: nat, tail: seq<Extent>)
    requires WellFormed(es)
  {
    if q < |es| && es[q].key <= end < End(es[q]) && tail == [Cut(es[q], end)] + es[q + 1..] then true
    else
      && i <= |es| && (if i < |es| then es[i].key <= end else Length(es) <= end)
      && q == Reach(es, i, end) && tail == CutFrom(es, i, end)
  }

  lemma {:induction false} TailCases(es: seq<Extent>, address: nat, length: nat)
    requires WellFormed(es) && es != [] && address <= Length(es)
    ensures TailThere(es, LowerBound(es, address), address + length, Straddler(es, address, length),
                      Tail(es, address, length))
  {
    LengthReached(es, address);
  }

  lemma {:induction false} TailThereFlat(es: seq<Extent>, i: nat, end: nat, q: nat, tail: seq<Extent>)
    requires WellFormed(es) && TailThere(es, i, end, q, tail)
    ensures Agree(Flat(tail), After(Flat(es), end), q < |es| && end < End(es[q]) ==> es[q].val.offset == 0)
  {
    if q < |es| && es[q].key <= end < End(es[q]) && tail == [Cut(es[q], end)] + es[q + 1..] {
      CutInsideFlat(es, q, end, tail);
    } else {
      CutFromFlat(es, i, end);
    }
  }

  lemma {:induction false} TailFlat(es: seq<Extent>, address: nat, length: nat)
    requires WellFormed(es) && es != [] && address <= Length(es)
    ensures var q, end := Straddler(es, address, length), address + length;
            Agree(Flat(Tail(es, address, length)), After(Flat(es), end),
                  q < |es| && end < End(es[q]) ==> es[q].val.offset == 0)
  {
    TailCases(es, address, length);
    TailThereFlat(es, LowerBound(es, address), address + length, Straddler(es, address, length),
                  Tail(es, address, length));
  }

  lemma {:induction false} TailGapless(es: seq<Extent>, address: nat, length: nat)
    requires WellFormed(es) && es != [] && address <= Length(es)
    ensures Gapless(Tail(es, address, length))
    ensures var tail := Tail(es, address, length); tail != [] ==> tail[0].key == address + length
  {
    var i, end := LowerBound(es, address), address + length;
    LengthReached(es, address);
    var tail := Tail(es, address, length);
    if !(i < |es| && es[i].key == address) && end < End(es[i - 1]) {
      var q := i - 1;
      assert tail == [Cut(es[q], end)] + es[q + 1..];
      CutGapless(es, q, end);
    } else {
      assert tail == CutFrom(es, i, end);
      CutFromGapless(es, i, end);
    }
  }

  lemma {:induction false} PlacedIs(e: Extent, tail: seq<Extent>)
    requires Gapless(tail) && (tail != [] ==> tail[0].key == End(e))
    ensures Gapless(Placed(e, tail)) && Placed(e, tail)[0].key == e.key
    ensures Flat(Placed(e, tail)) == Cells(e.val) + Flat(tail)
  {
    if tail != [] && tail[0].key == e.key {
      assert Cells(e.val) == [];
    } else {
      GaplessJoin([e], tail);
      assert ([e] + tail)[1..] == tail;
    }
  }

  lemma {:induction false} InsertInFile(es: seq<Extent>, address: nat, length: nat, location: seq<Location>)
    requires WellFormed(es) && es != [] && address <= Length(es)
    ensures var ins := Inserted(es, address, length, location);
            && WellFormed(ins)
            && Flat(ins) == Flat(Head(es, address))
                            + (Cells(Slice(location, 0, length)) + Flat(Tail(es, address, length)))
  {
    var head, tail := Head(es, address), Tail(es, address, length);
    var e := Entry(address, Slice(location, 0, length));
    HeadIs(es, address);
    TailGapless(es, address, length);
    PlacedIs(e, tail);
    GaplessJoin(head, Placed(e, tail));
    FlatConcat(head, Placed(e, tail));
  }

  lemma {:induction false} InsertEmpty(address: nat, length: nat, location: seq<Location>)
    ensures var ins := Inserted([], address, length, location);
            WellFormed(ins) && Flat(ins) == Overwritten([], address, Cells(Slice(location, 0, length)))
  {
    var e := Entry(address, Slice(location, 0, length));
    var hole := Entry(0, Slice([], 0, address));
    assert Flat([e]) == Cells(e.val) + Flat([]);
    if address > 0 {
      assert Flat([hole]) == Cells(hole.val) + Flat([]);
      GaplessJoin([hole], [e]);
      FlatConcat([hole], [e]);
    }
  }

  lemma {:induction false} AddAtEnd(es: seq<Extent>, key: nat, s: Slice)
    requires Sorted(es) && (es != [] ==> es[|es| - 1].key < key)
    ensures Add(es, key, s) == es + [Entry(key, s)]
    ensures Sorted(es + [Entry(key, s)])
  {
    LowerBoundIs(es, key, |es|);
    SortedJoin(es, [Entry(key, s)]);
  }

  lemma {:induction false} Disjoined(es: seq<Extent>, e: Extent)
    requires es != [] && End(es[|es| - 1]) != e.key
    ensures !Gapless(es + [e])
  {
    assert !Joined(es + [e], |es| - 1);
  }

  lemma {:induction false} AddTaken(es: seq<Extent>, s: Slice)
    requires Sorted(es) && es != []
    ensures Add(es, es[|es| - 1].key, s) == es
  {
    PutAt(es, |es| - 1, s);
  }

  lemma {:induction false} AddHole(es: seq<Extent>, hole: Slice, address: nat)
    requires WellFormed(es) && es != [] && Length(es) < address
    requires hole.length == address - es[|es| - 1].key + es[|es| - 1].val.length
    ensures var one := Add(es, Length(es), hole);
            Sorted(one) && one != [] && one[|one| - 1].key < address && End(one[|one| - 1]) != address
  {
    if es[|es| - 1].val.length == 0 {
      AddTaken(es, hole);
    } else {
      AddAtEnd(es, Length(es), hole);
    }
  }

  lemma {:induction false} PastEndIs(es: seq<Extent>, address: nat, length: nat, location: seq<Location>, hole: Slice)
    requires WellFormed(es) && es != [] && Length(es) < address
    requires hole == Slice([], 0, address - es[|es| - 1].key + es[|es| - 1].val.length)
    ensures Inserted(es, address, length, location)
         == Add(Add(es, Length(es), hole), address, Slice(location, 0, length))
  {
  }

  lemma {:induction false} BehindHole(one: seq<Extent>, address: nat, s: Slice)
    requires Sorted(one) && one != [] && one[|one| - 1].key < address && End(one[|one| - 1]) != address
    ensures !Gapless(Add(one, address, s))
  {
    AddAtEnd(one, address, s);
    Disjoined(one, Entry(address, s));
  }

  lemma {:induction false} InsertPastEnd(es: seq<Extent>, address: nat, length: nat, location: seq<Location>)
    requires WellFormed(es) && es != [] && Length(es) < address
    ensures !WellFormed(Inserted(es, address, length, location))
  {
    var hole := Slice([], 0, address - es[|es| - 1].key + es[|es| - 1].val.length);
    PastEndIs(es, address, length, location, hole);
    AddHole(es, hole, address);
    BehindHole(Add(es, Length(es), hole), address, Slice(location, 0, length));
  }

  lemma {:induction false} OverwriteFlat(f: seq<Cell>, address: nat, data: seq<Cell>, tail: seq<Cell>, kept: bool)
    requires address <= |f| && Agree(tail, After(f, address + |data|), kept)
    ensures Agree(f[..address] + (data + tail), Overwritten(f, address, data), kept)
  {
    var head, g := f[..address] + data, After(f, address + |data|);
    ConcatAssoc(f[..address], data, tail);
    ConcatAssoc(f[..address], data, g);
    LocationsConcat(head, tail);
    LocationsConcat(head, g);
    SameSuffix(head, tail, g);
  }

  lemma {:induction false} OffsetsKeptIff(es: seq<Extent>, address: nat, length: nat)
    requires WellFormed(es) && es != [] && address <= Length(es)
    ensures var q := Straddler(es, address, length);
            OffsetsKept(es, address, length) <==> (q < |es| && address + length < End(es[q]) ==> es[q].val.offset == 0)
  {
    var q := Straddler(es, address, length);
    forall k: nat | k < |es|
      ensures Rebased(es, k, address, length) <==> k == q && address + length < End(es[q])
    {
      RebasedIs(es, address, length, k);
    }
  }

  lemma {:induction false} TailKept(es: seq<Extent>, address: nat, length: nat)
    requires WellFormed(es) && es != [] && address <= Length(es)
    ensures Agree(Flat(Tail(es, address, length)), After(Flat(es), address + length), OffsetsKept(es, address, length))
  {
    TailFlat(es, address, length);
    OffsetsKeptIff(es, address, length);
  }

  lemma {:induction false} InsertInFileRefines(es: seq<Extent>, address: nat, length: nat, location: seq<Location>)
    requires WellFormed(es) && es != [] && address <= Length(es)
    ensures WellFormed(Inserted(es, address, length, location))
    ensures Agree(Flat(Inserted(es, address, length, location)),
                  Overwritten(Flat(es), address, Cells(Slice(location, 0, length))), OffsetsKept(es, address, length))
  {
    var f, data, tail := Flat(es), Cells(Slice(location, 0, length)), Flat(Tail(es, address, length));
    HeadIs(es, address);
    TailKept(es, address, length);
    OverwriteFlat(f, address, data, tail, OffsetsKept(es, address, length));
    InsertInFile(es, address, length, location);
  }

  /**
   Main result on insert. The map stays well formed exactly when the write leaves no hole (or the map is empty); it then
   means the flat array overwritten at that address, as far as replica lists go always, and as far as offsets go
   exactly when no slice that survives to the right of the write is based at a nonzero offset.
   */
  lemma {:induction false} InsertRefines(es: seq<Extent>, address: nat, length: nat, location: seq<Location>)
    requires WellFormed(es)
    ensures var ins := Inserted(es, address, length, location);
            var written := Overwritten(Flat(es), address, Cells(Slice(location, 0, length)));
            && (WellFormed(ins) <==> es == [] || address <= Length(es))
            && (WellFormed(ins) ==> Agree(Flat(ins), written, OffsetsKept(es, address, length)))
  {
    if es == [] {
      InsertEmpty(address, length, location);
    } else if Length(es) < address {
      InsertPastEnd(es, address, length, location);
    } else {
      InsertInFileRefines(es, address, length, location);
    }
  }

  // ---------------------------------------------------------------------------------------------
  // What every insert leaves, offsets that are not kept included
  // ---------------------------------------------------------------------------------------------

  /** A slice as insert re-bases it: as if it had been based at 0. */
  function Grounded(e: Extent): Extent {
    Entry(e.key, e.val.(offset := 0))
  }

  /** The map with the slices that the insert re-bases taken to be based at 0. */
  ghost function GroundedBy(es: seq<Extent>, address: nat, length: nat): (r: seq<Extent>)
    ensures |r| == |es|
  {
    seq(|es|, k requires 0 <= k < |es| => if Rebased(es, k, address, length) then Grounded(es[k]) else es[k])
  }

  lemma {:induction false} GroundedAt(es: seq<Extent>, address: nat, length: nat, q: nat)
    requires WellFormed(es) && es != [] && address <= Length(es) && q == Straddler(es, address, length)
    ensures GroundedBy(es, address, length)
         == if q < |es| && address + length < End(es[q]) then es[q := Grounded(es[q])] else es
  {
    forall k: nat | k < |es|
      ensures Rebased(es, k, address, length) <==> k == q && address + length < End(es[q])
    {
      RebasedIs(es, address, length, k);
    }
  }

  lemma {:induction false} GroundedShape(es: seq<Extent>, q: nat)
    requires WellFormed(es) && q < |es|
    ensures WellFormed(es[q := Grounded(es[q])])
  {
    var z := es[q := Grounded(es[q])];
    forall i, j ensures Before(z, i, j) {
      assert Before(es, i, j);
    }
    forall i ensures Joined(z, i) {
      assert Joined(es, i);
    }
  }

  /** What is cut off slice q from the left does not depend on its offset. */
  lemma {:induction false} CutGrounded(es: seq<Extent>, q: nat, end: nat, r: seq<Extent>, z: seq<Extent>)
    requires WellFormed(es) && q < |es| && z == es[q := Grounded(es[q])] && end < End(es[q])
    requires CutThere(es, q, end, r)
    ensures WellFormed(z) && Flat(r) == After(Flat(z), end)
  {
    GroundedShape(es, q);
    assert z[q + 1..] == es[q + 1..];
    CutThereFlat(z, q, end, r);
  }

  lemma {:induction false} TailGrounded(es: seq<Extent>, i: nat, end: nat, q: nat, tail: seq<Extent>, z: seq<Extent>)
    requires WellFormed(es) && TailThere(es, i, end, q, tail)
    requires z == if q < |es| && end < End(es[q]) then es[q := Grounded(es[q])] else es
    ensures Flat(tail) == After(Flat(z), end)
  {
    if q < |es| && es[q].key <= end < End(es[q]) && tail == [Cut(es[q], end)] + es[q + 1..] {
      assert Joined(es, q);
      CutGrounded(es, q, end, tail, z);
    } else {
      CutFromIs(es, i, end, q, tail);
      if q < |es| && end < End(es[q]) {
        CutGrounded(es, q, end, tail, z);
      } else {
        CutFromFlat(es, i, end);
      }
    }
  }

  /**
   What every insert leaves, byte by byte: the old cells in front of it, the new ones, and behind them the old ones,
   where the bytes of a re-based slice have the offsets they would have if the slice had been based at 0.
   */
  lemma {:induction false} InsertLeaves(es: seq<Extent>, address: nat, length: nat, location: seq<Location>)
    requires WellFormed(es) && es != [] && address <= Length(es)
    ensures address <= |Flat(es)|
    ensures Flat(Inserted(es, address, length, location))
         == Flat(es)[..address] + (Cells(Slice(location, 0, length))
                                   + After(Flat(GroundedBy(es, address, length)), address + length))
  {
    HeadIs(es, address);
    TailLeaves(es, address, length);
    InsertInFile(es, address, length, location);
  }

  lemma {:induction false} TailLeaves(es: seq<Extent>, address: nat, length: nat)
    requires WellFormed(es) && es != [] && address <= Length(es)
    ensures Flat(Tail(es, address, length)) == After(Flat(GroundedBy(es, address, length)), address + length)
  {
    GroundedAt(es, address, length, Straddler(es, address, length));
    TailBy(es, address, length, LowerBound(es, address), Straddler(es, address, length), Tail(es, address, length),
           GroundedBy(es, address, length));
  }

  lemma {:induction false} TailBy(es: seq<Extent>, address: nat, length: nat, i: nat, q: nat, tail: seq<Extent>,
                                  z: seq<Extent>)
    requires WellFormed(es) && es != [] && address <= Length(es)
    requires i == LowerBound(es, address) && q == Straddler(es, address, length) && tail == Tail(es, address, length)
    requires z == if q < |es| && address + length < End(es[q]) then es[q := Grounded(es[q])] else es
    ensures Flat(tail) == After(Flat(z), address + length)
  {
    TailCases(es, address, length);
    TailGrounded(es, i, address + length, q, tail, z);
  }

  /** What an insert behind the end leaves: a hole, if the last slice is not empty, and the new slice. */
  lemma {:induction false} PastEndLeaves(es: seq<Extent>, address: nat, length: nat, location: seq<Location>)
    requires WellFormed(es) && es != [] && Length(es) < address
    ensures var last, slice := es[|es| - 1], Entry(address, Slice(location, 0, length));
            Inserted(es, address, length, location)
            == if last.val.length == 0 then es + [slice]
               else es + [Entry(Length(es), Slice([], 0, address - last.key + last.val.length))] + [slice]
  {
    var last := es[|es| - 1];
    var hole := Slice([], 0, address - last.key + last.val.length);
    PastEndIs(es, address, length, location, hole);
    AddHole(es, hole, address);
    if last.val.length == 0 {
      AddTaken(es, hole);
    } else {
      AddAtEnd(es, Length(es), hole);
    }
    AddAtEnd(Add(es, Length(es), hole), address, Slice(location, 0, length));
  }

  /** What an insert into an empty map leaves: a hole in front of the new slice, unless it starts at 0. */
  lemma {:induction false} EmptyLeaves(address: nat, length: nat, location: seq<Location>)
    ensures Inserted([], address, length, location)
         == (if address > 0 then [Entry(0, Slice([], 0, address))] else [])
            + [Entry(address, Slice(location, 0, length))]
  {
  }

  lemma {:induction false} SameSuffix<T>(a: seq<T>, b: seq<T>, c: seq<T>)
    ensures a + b == a + c <==> b == c
  {
    if a + b == a + c {
      assert b == (a + b)[|a|..] && c == (a + c)[|a|..];
    }
  }

  // ---------------------------------------------------------------------------------------------
  // truncate
  // ---------------------------------------------------------------------------------------------

  /** The entries after truncate(length): the last entry that starts at or below the length is kept, clipped to it. */
  function Truncated(es: seq<Extent>, length: nat): seq<Extent>
    requires WellFormed(es)
  {
    if es == [] then []
    else
      var i := UpperBound(es, length);
      if length < End(es[i - 1]) then es[..i - 1] + [ClippedAt(es[i - 1], length)] else es[..i]
  }

  lemma {:induction false} TruncatePoint(es: seq<Extent>, length: nat)
    requires WellFormed(es) && es != []
    ensures var i := UpperBound(es, length); i > 0 && (End(es[i - 1]) <= length ==> i == |es|)
  {
    assert Joined(es, UpperBound(es, length) as int - 1);
  }

  lemma {:induction false} TruncateRefines(es: seq<Extent>, length: nat)
    requires WellFormed(es)
    ensures WellFormed(Truncated(es, length))
    ensures Flat(Truncated(es, length)) == if length <= |Flat(es)| then Flat(es)[..length] else Flat(es)
  {
    if es != [] {
      var i := UpperBound(es, length);
      TruncatePoint(es, length);
      FlatWhole(es);
      if length < End(es[i - 1]) {
        HeadFlat(es, i, length);
        HeadGapless(es, i, length);
      } else {
        assert es[..i] == es;
      }
    }
  }

  // ---------------------------------------------------------------------------------------------
  // Runs
  // ---------------------------------------------------------------------------------------------

  datatype Op = Insert(address: nat, length: nat, location: seq<Location>) | Truncate(size: nat)

  function Step(es: seq<Extent>, op: Op): seq<Extent>
    requires WellFormed(es)
  {
    match op
    case Insert(a, n, l) => Inserted(es, a, n, l)
    case Truncate(n) => Truncated(es, n)
  }

  function FlatStep(f: seq<Cell>, op: Op): seq<Cell> {
    match op
    case Insert(a, n, l) => Overwritten(f, a, Cells(Slice(l, 0, n)))
    case Truncate(n) => if n <= |f| then f[..n] else f
  }

  ghost predicate LeavesNoGap(es: seq<Extent>, op: Op) {
    op.Insert? ==> es == [] || op.address <= Length(es)
  }

  ghost predicate KeepsOffsets(es: seq<Extent>, op: Op) {
    op.Insert? ==> OffsetsKept(es, op.address, op.length)
  }

  ghost predicate GapFree(es: seq<Extent>, ops: seq<Op>)
    decreases ops
  {
    WellFormed(es) && (ops == [] || (LeavesNoGap(es, ops[0]) && GapFree(Step(es, ops[0]), ops[1..])))
  }

  ghost predicate OffsetSafe(es: seq<Extent>, ops: seq<Op>)
    requires GapFree(es, ops)
    decreases ops
  {
    ops == [] || (KeepsOffsets(es, ops[0]) && OffsetSafe(Step(es, ops[0]), ops[1..]))
  }

  ghost function Run(es: seq<Extent>, ops: seq<Op>): seq<Extent>
    requires GapFree(es, ops)
    decreases ops
  {
    if ops == [] then es else Run(Step(es, ops[0]), ops[1..])
  }

  function Replay(f: seq<Cell>, ops: seq<Op>): seq<Cell>
    decreases ops
  {
    if ops == [] then f else Replay(FlatStep(f, ops[0]), ops[1..])
  }

  lemma {:induction false} OverwrittenLocations(f: seq<Cell>, g: seq<Cell>, address: nat, data: seq<Cell>)
    requires Locations(f) == Locations(g)
    ensures Locations(Overwritten(f, address, data)) == Locations(Overwritten(g, address, data))
  {
    assert |f| == |g|;
    var p, q := Padded(f, address), Padded(g, address);
    assert Locations(p) == Locations(q) by { PaddedLocations(f, address); PaddedLocations(g, address); }
    LocationsConcat(data, After(p, address + |data|));
    LocationsConcat(data, After(q, address + |data|));
    LocationsConcat(p[..address], data + After(p, address + |data|));
    LocationsConcat(q[..address], data + After(q, address + |data|));
    assert Locations(p[..address]) == Locations(p)[..address] && Locations(q[..address]) == Locations(q)[..address];
    AfterLocations(p, address + |data|);
    AfterLocations(q, address + |data|);
  }

  lemma {:induction false} AfterLocations(f: seq<Cell>, n: nat)
    ensures Locations(After(f, n)) == After(Locations(f), n)
  {
  }

  lemma {:induction false} PaddedLocations(f: seq<Cell>, address: nat)
    ensures Locations(Padded(f, address))
         == if address <= |f| then Locations(f) else Locations(f) + Locations(Cells(Slice([], 0, address - |f|)))
  {
  }

  /** One step of a run, on any flat array that agrees with the map. */
  lemma {:induction false} StepRefines(es: seq<Extent>, op: Op, f: seq<Cell>)
    requires WellFormed(es) && LeavesNoGap(es, op) && Locations(Flat(es)) == Locations(f)
    ensures var es' := Step(es, op);
            && WellFormed(es')
            && Locations(Flat(es')) == Locations(FlatStep(f, op))
            && (Flat(es) == f && KeepsOffsets(es, op) ==> Flat(es') == FlatStep(f, op))
  {
    match op
    case Insert(a, n, l) =>
      InsertRefines(es, a, n, l);
      OverwrittenLocations(Flat(es), f, a, Cells(Slice(l, 0, n)));
    case Truncate(n) =>
      assert |f| == |Locations(f)| == |Locations(Flat(es))| == |Flat(es)|;
      TruncateRefines(es, n);
      if n <= |f| {
        assert Locations(f[..n]) == Locations(f)[..n] && Locations(Flat(es)[..n]) == Locations(Flat(es))[..n];
      }
  }

  /**
   Any run of inserts that leave no gap, and of truncates: the map is gapless from address 0, its length is the flat
   array's, and each byte's replica list is the one the same operations leave on a flat array. The offsets agree too
   when no insert re-bases a slice.
   */
  lemma {:induction false} RunRefines(es: seq<Extent>, ops: seq<Op>, f: seq<Cell>)
    requires GapFree(es, ops) && Locations(Flat(es)) == Locations(f)
    ensures var end := Run(es, ops);
            && WellFormed(end)
            && Length(end) == |Replay(f, ops)|
            && Locations(Flat(end)) == Locations(Replay(f, ops))
            && (Flat(es) == f && OffsetSafe(es, ops) ==> Flat(end) == Replay(f, ops))
    decreases ops
  {
    if ops == [] {
      FlatWhole(es);
      assert |Flat(es)| == |Locations(Flat(es))| == |Locations(f)| == |f|;
    } else {
      StepRefines(es, ops[0], f);
      RunRefines(Step(es, ops[0]), ops[1..], FlatStep(f, ops[0]));
    }
  }
}
