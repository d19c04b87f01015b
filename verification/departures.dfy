/**
 Concrete inputs on which the code does not do what it is for. The exact conditions are the main results on each
 operation (InsertRefines, RoundTrip, UpdateRefines, LengthExact, ResizeRefines); these are instances of their failure.
 */
module ExtentDepartures {
  import opened Wrappers
  import opened OrderedMap
  import opened Extents
  import opened IntervalCodec

  lemma {:induction false} OneExtent(es: seq<Extent>, s: Slice)
    requires es == [Entry(0, s)]
    ensures WellFormed(es) && Length(es) == s.length
  {
    forall i, j ensures Before(es, i, j) {
    }
    forall i ensures Joined(es, i) {
    }
  }

  /** Writing two bytes at 10 behind a file of 4: the hole is 14 long instead of 6, and overlaps the new extent. */
  lemma {:induction false} GapOverlaps(es: seq<Extent>, l: seq<Location>)
    requires es == [Entry(0, Slice(l, 0, 4))]
    ensures WellFormed(es) && !WellFormed(Inserted(es, 10, 2, l))
    ensures Inserted(es, 10, 2, l) == [Entry(0, Slice(l, 0, 4)), Entry(4, Slice([], 0, 14)), Entry(10, Slice(l, 0, 2))]
  {
    OneExtent(es, Slice(l, 0, 4));
    InsertRefines(es, 10, 2, l);
    var hole := Entry(4, Slice([], 0, 14));
    assert LowerBound(es, 4) == 1 by { LowerBoundIs(es, 4, 1); }
    var more := [Entry(0, Slice(l, 0, 4)), hole];
    assert es[..1] + [hole] + es[1..] == more;
    assert Add(es, 4, hole.val) == more;
    forall i, j ensures Before(more, i, j) {
    }
    LowerBoundIs(more, 10, 2);
    assert more[..2] + [Entry(10, Slice(l, 0, 2))] + more[2..] == more + [Entry(10, Slice(l, 0, 2))];
  }

  /** Overwriting bytes 2..5 of an extent based at offset 3: what is left behind them is based at 5 instead of 8. */
  lemma {:induction false} OffsetDropped(es: seq<Extent>, l: seq<Location>, m: seq<Location>)
    requires es == [Entry(0, Slice(l, 3, 10))]
    ensures WellFormed(es) && WellFormed(Inserted(es, 2, 3, m))
    ensures Flat(Inserted(es, 2, 3, m)) != Overwritten(Flat(es), 2, Cells(Slice(m, 0, 3)))
    ensures Locations(Flat(Inserted(es, 2, 3, m))) == Locations(Overwritten(Flat(es), 2, Cells(Slice(m, 0, 3))))
  {
    OneExtent(es, Slice(l, 3, 10));
    InsertRefines(es, 2, 3, m);
    assert Rebased(es, 0, 2, 3);
  }

  /** Packing keeps an offset of 5; unpacking does not. */
  lemma {:induction false} OffsetForgotten(es: seq<Extent>, l: seq<Location>)
    requires es == [Entry(0, Slice(l, 5, 4))]
    ensures Unpack(Pack(es)) == Some(([Entry(0, Slice(l, 0, 4))], []))
  {
    OneExtent(es, Slice(l, 5, 4));
    UnpackPack(es, []);
    assert Pack(es) + [] == Pack(es);
    assert Rebase(es) == [Entry(0, Slice(l, 0, 4))];
  }
}

module BlockDepartures {
  import opened Wrappers
  import Vblocks
  import opened OrderedMap
  import opened Blocks

  /** A block of 10 bytes at 100 in the log, then 5 at 200. */
  function TwoParts(): seq<Part> {
    [Entry(0, Slice(0, 10, 100)), Entry(10, Slice(10, 5, 200))]
  }

  lemma {:induction false} TwoPartsShape(es: seq<Part>)
    requires es == TwoParts()
    ensures WellFormed(es) && Keyed(es) && Size(es) == 15
  {
    TwoSlicesShape(es, es[0], es[1]);
  }

  lemma {:induction false} ThreePlaces(a: Part, b: Part, c: Part)
    ensures Places([a, b, c]) == Extent(a.val.diskOffset, a.val.length)
                                 + (Extent(b.val.diskOffset, b.val.length) + Extent(c.val.diskOffset, c.val.length))
  {
    assert [a, b, c] == [a] + ([b] + [c]);
    PlacesConcat([a], [b] + [c]);
    PlacesConcat([b], [c]);
    OnePlace(a);
    OnePlace(b);
    OnePlace(c);
  }

  lemma {:induction false} TwoSlicesShape(es: seq<Part>, p: Part, q: Part)
    requires es == [p, q] && p.key == p.val.offset == 0 < p.val.length && q.key == q.val.offset == p.val.length
    requires q.val.length > 0
    ensures WellFormed(es) && Keyed(es) && Size(es) == q.val.End()
  {
    forall i, j ensures Before(es, i, j) {
    }
    forall i ensures Linked(es, i) && KeyedAt(es, i) {
    }
  }

  lemma {:induction false} TwoSlicesTrim(es: seq<Part>, p: Part, q: Part, end: nat, c: Part)
    requires es == [p, q] && end < q.val.End() && c == MoveStart(q, end)
    ensures Trimmed(es, 1, end) == [c]
  {
    BeyondIs(es, 1, end, 1);
    assert es[2..] == [];
  }

  /** A write inside the first of two slices: the second one's start moves to the left, to the end of the write. */
  lemma {:induction false} InsideFirst(es: seq<Part>, p: Part, q: Part, s: Slice, end: nat, a: Part, c: Part)
    requires es == [p, q] && WellFormed(es) && Keyed(es) && q.key == p.val.length && p.key == p.val.offset == 0
    requires s.length > 0 && 0 < s.offset && end == s.End() < p.val.length && q.val.offset == q.key
    requires a == ShortenTo(p, s.offset) && c == MoveStart(q, end)
    ensures s.offset <= Size(es)
    ensures Updated(es, s.offset, s.length, s.diskOffset) == Some([a, Entry(s.offset, s), c])
  {
    LowerBoundIs(es, s.offset, 1);
    TwoSlicesTrim(es, p, q, end, c);
    Vblocks.UpdatedAcross(es, 1, s, end, a);
    assert (es[..0] + [a]) + ([Entry(s.offset, s)] + [c]) == [a, Entry(s.offset, s), c];
  }

  lemma {:induction false} TailLostMap(es: seq<Part>, a: Part, b: Part, c: Part)
    requires es == TwoParts() && a == Entry(0, Slice(0, 2, 100)) && b == Entry(2, Slice(2, 3, 300))
    requires c == Entry(10, Slice(5, 10, 195))
    ensures WellFormed(es) && Keyed(es) && 2 <= Size(es) && !Sound(es, 2, 3)
    ensures Updated(es, 2, 3, 300) == Some([a, b, c])
  {
    TwoPartsShape(es);
    LowerBoundIs(es, 2, 1);
    assert !Contiguous(es[0], es[1]);
    InsideFirst(es, es[0], es[1], b.val, 5, a, c);
  }

  /** Three bytes written inside the first part: the second part takes over the places of its tail. */
  lemma {:induction false} TailLost(es: seq<Part>)
    requires es == TwoParts()
    ensures WellFormed(es) && Keyed(es) && 2 <= Size(es)
    ensures var u := Updated(es, 2, 3, 300);
            && u.Some? && Places(u.value) != Spliced(Places(es), 2, Extent(300, 3))
            && Places(u.value) == Extent(100, 2) + (Extent(300, 3) + Extent(195, 10))
  {
    var a, b, c := Entry(0, Slice(0, 2, 100)), Entry(2, Slice(2, 3, 300)), Entry(10, Slice(5, 10, 195));
    TailLostMap(es, a, b, c);
    ThreePlaces(a, b, c);
    UpdateRefines(es, 2, 3, 300);
  }

  /** The last part overwritten from its start on, and beyond its end: the iterator runs off the map. */
  lemma {:induction false} RunsOffTheEnd(es: seq<Part>)
    requires es == TwoParts()
    ensures WellFormed(es) && Keyed(es) && 10 <= Size(es) && Updated(es, 10, 6, 300) == None
  {
    TwoPartsShape(es);
    LowerBoundIs(es, 10, 1);
  }

  /**
   A write from inside the first part into the second: the second part starts where the write ends now, but stays under
   its old key, and the length comes out too small by as much as the write took from it.
   */
  lemma {:induction false} StaleLength(es: seq<Part>, a: Slice, b: Slice, offset: nat, length: nat)
    requires es == [Entry(0, a), Entry(a.length, b)] && a.offset == 0 && b.offset == a.length && b.length > 0
    requires 0 < offset < a.length < offset + length < a.length + b.length
    ensures WellFormed(es) && Keyed(es) && offset <= Size(es)
    ensures var u := Updated(es, offset, length, 300);
            u.Some? && Size(u.value) == b.End() && Length(u.value) == b.End() - (offset + length - a.length)
  {
    TwoSlicesShape(es, es[0], es[1]);
    LowerBoundIs(es, offset, 1);
    BeyondIs(es, 1, offset + length, 1);
    var last := MoveStart(es[1], offset + length);
    assert Trimmed(es, 1, offset + length) == [last] + es[2..];
  }

  /** Cutting the block inside its first part: the parts behind it are erased under the loop's own iterator. */
  lemma {:induction false} CutInFront(es: seq<Part>)
    requires es == TwoParts()
    ensures WellFormed(es) && Keyed(es) && Resized(es, 5) == None
  {
    TwoPartsShape(es);
    ResizeRefines(es, 5);
  }
}

module LogDepartures {
  import opened Wrappers
  import opened OrderedMap
  import opened Blocks
  import Blockstore
  import Vblocks
  import BlockDepartures
  import opened LogWriters

  type Byte = Blockstore.Byte

  // ---------------------------------------------------------------------------------------------
  // A call that runs without interruption
  // ---------------------------------------------------------------------------------------------

  /** A run under the guard that leaves nobody between reading and advancing the counter. */
  ghost predicate Leads(s: State, run: seq<Action>, t: State) {
    CanRun(s, run) && Run(s, run) == t && Exclusive(run, Closed) && OpenAfter(run, Closed) == Closed
  }

  lemma {:induction false} LeadsOn(s: State, first: seq<Action>, t: State, second: seq<Action>, u: State)
    requires Leads(s, first, t) && Leads(t, second, u)
    ensures Leads(s, first + second, u)
  {
    RunOn(s, first, second);
    ExclusiveParts(first, second, Closed);
  }

  lemma {:induction false} LeadsOnce(s: State, a: Action, run: seq<Action>)
    requires Enabled(s, a) && !a.Load? && !a.Count? && run == [a]
    ensures Leads(s, run, Next(s, a))
  {
    RunOne(s, a, run);
    assert run[1..] == [];
  }

  function CopyAll(c: nat, n: nat): seq<Action> {
    if n == 0 then [] else CopyAll(c, n - 1) + [Copy(c, n - 1)]
  }

  function Finish(c: nat, ps: seq<int>): seq<Action> {
    [Return(c)] + ([Load(c), Count(c)] + [Put(c, ps)])
  }

  /** A whole call: it reserves, copies every byte, draws a number and publishes. */
  function WholeCall(c: nat, data: seq<Byte>, ps: seq<int>): seq<Action> {
    [Reserve(c, data)] + (CopyAll(c, |data|) + Finish(c, ps))
  }

  /** The log with the first n bytes of the data copied to `at`. */
  function Filled(log: seq<Byte>, at: nat, data: seq<Byte>, n: nat): (r: seq<Byte>)
    requires n <= |data| && at + |data| <= |log|
    ensures |r| == |log|
  {
    seq(|log|, k requires 0 <= k < |log| => if at <= k < at + n then data[k - at] else log[k])
  }

  function Upto(n: nat): (r: set<nat>)
    ensures forall j: nat :: j in r <==> j < n
  {
    if n == 0 then {} else Upto(n - 1) + {n - 1}
  }

  function AfterCopies(s: State, c: nat, data: seq<Byte>, n: nat): State
    requires n <= |data| && s.next + |data| <= |s.log|
  {
    s.(log := Filled(s.log, s.next, data, n), next := s.next + |data|,
       writers := s.writers[c := Copying(s.next, data, Upto(n))])
  }

  function AfterCall(s: State, c: nat, data: seq<Byte>, ps: seq<int>): State
    requires s.next + |data| <= |s.log|
  {
    s.(log := Filled(s.log, s.next, data, |data|), next := s.next + |data|, ids := s.ids + 1,
       db := s.db[s.ids := ps], writers := s.writers[c := Published(s.next, data, s.ids)])
  }

  lemma {:induction false} ReserveIs(s: State, c: nat, data: seq<Byte>)
    requires c !in s.writers && s.next + |data| <= |s.log|
    ensures Enabled(s, Reserve(c, data)) && Next(s, Reserve(c, data)) == AfterCopies(s, c, data, 0)
  {
    assert Filled(s.log, s.next, data, 0) == s.log;
    assert Upto(0) == {};
  }

  lemma {:induction false} CopyIs(s: State, c: nat, data: seq<Byte>, n: nat)
    requires n < |data| && s.next + |data| <= |s.log|
    ensures var t := AfterCopies(s, c, data, n);
            Enabled(t, Copy(c, n)) && Next(t, Copy(c, n)) == AfterCopies(s, c, data, n + 1)
  {
    assert Filled(s.log, s.next, data, n)[s.next + n := data[n]] == Filled(s.log, s.next, data, n + 1);
    assert Upto(n) + {n} == Upto(n + 1);
  }

  lemma {:induction false} CopyAllIs(s: State, t: State, c: nat, data: seq<Byte>, n: nat)
    requires n <= |data| && s.next + |data| <= |s.log| && t == AfterCopies(s, c, data, 0)
    ensures Leads(t, CopyAll(c, n), AfterCopies(s, c, data, n))
  {
    if n > 0 {
      var before := AfterCopies(s, c, data, n - 1);
      CopyAllIs(s, t, c, data, n - 1);
      CopyIs(s, c, data, n - 1);
      LeadsOnce(before, Copy(c, n - 1), [Copy(c, n - 1)]);
      LeadsOn(t, CopyAll(c, n - 1), before, [Copy(c, n - 1)], AfterCopies(s, c, data, n));
    }
  }

  lemma {:induction false} DrawExclusive(c: nat, draw: seq<Action>, more: seq<Action>, rest: seq<Action>)
    requires draw == [Load(c), Count(c)] && more == draw[1..] && rest == more[1..]
    ensures Exclusive(draw, Closed) && OpenAfter(draw, Closed) == Closed
  {
    assert more[0] == Count(c) && rest == [];
    assert Exclusive(rest, Closed) && OpenAfter(rest, Closed) == Closed;
    assert Exclusive(more, Of(c)) && OpenAfter(more, Of(c)) == Closed;
  }

  lemma {:induction false} DrawIs(s: State, c: nat, at: nat, data: seq<Byte>, draw: seq<Action>)
    requires c in s.writers && s.writers[c] == Stored(at, data) && draw == [Load(c), Count(c)]
    ensures Leads(s, draw, s.(ids := s.ids + 1, writers := s.writers[c := Numbered(at, data, s.ids, true)]))
  {
    RunTwo(s, Load(c), Count(c));
    DrawExclusive(c, draw, draw[1..], draw[1..][1..]);
  }

  lemma {:induction false} FinishIs(s: State, c: nat, at: nat, data: seq<Byte>, ps: seq<int>)
    requires c in s.writers && s.writers[c] == Copying(at, data, Upto(|data|)) && Reserved(s, ps)
    ensures Leads(s, Finish(c, ps), s.(ids := s.ids + 1, db := s.db[s.ids := ps],
                                       writers := s.writers[c := Published(at, data, s.ids)]))
  {
    var t := s.(writers := s.writers[c := Stored(at, data)]);
    var u := t.(ids := s.ids + 1, writers := t.writers[c := Numbered(at, data, s.ids, true)]);
    LeadsOnce(s, Return(c), [Return(c)]);
    DrawIs(t, c, at, data, [Load(c), Count(c)]);
    LeadsOnce(u, Put(c, ps), [Put(c, ps)]);
    LeadsOn(t, [Load(c), Count(c)], u, [Put(c, ps)], Next(u, Put(c, ps)));
    LeadsOn(s, [Return(c)], t, [Load(c), Count(c)] + [Put(c, ps)], Next(u, Put(c, ps)));
    assert Next(u, Put(c, ps)).writers == s.writers[c := Published(at, data, s.ids)];
  }

  /** A call that runs alone appends its data to the log and files the block under the next number. */
  lemma {:induction false} WholeCallIs(s: State, c: nat, data: seq<Byte>, ps: seq<int>)
    requires c !in s.writers && s.next + |data| <= |s.log| && forall p :: p in ps ==> p < s.next + |data|
    ensures Leads(s, WholeCall(c, data, ps), AfterCall(s, c, data, ps))
  {
    var t, u := AfterCopies(s, c, data, 0), AfterCopies(s, c, data, |data|);
    ReserveIs(s, c, data);
    LeadsOnce(s, Reserve(c, data), [Reserve(c, data)]);
    CopyAllIs(s, t, c, data, |data|);
    FinishIs(u, c, s.next, data, ps);
    var v := AfterCall(s, c, data, ps);
    assert v.writers == u.writers[c := Published(s.next, data, s.ids)];
    LeadsOn(t, CopyAll(c, |data|), u, Finish(c, ps), v);
    LeadsOn(s, [Reserve(c, data)], t, CopyAll(c, |data|) + Finish(c, ps), v);
  }

  // ---------------------------------------------------------------------------------------------
  // A block that reads otherwise when an older write lands
  // ---------------------------------------------------------------------------------------------

  /** Three bytes at 0 in the log, then one at 4. */
  function Gapped(): seq<Part> {
    [Entry(0, Slice(0, 3, 0)), Entry(3, Slice(3, 1, 4))]
  }

  lemma {:induction false} FourPlaces(a: Part, b: Part, c: Part)
    requires a == Entry(0, Slice(0, 1, 0)) && b == Entry(1, Slice(1, 1, 5)) && c == Entry(3, Slice(2, 2, 3))
    ensures Places([a, b, c]) == [0, 5, 3, 4]
  {
    BlockDepartures.ThreePlaces(a, b, c);
    assert Extent(0, 1) == [0] && Extent(5, 1) == [5] && Extent(3, 2) == [3, 4];
  }

  /** One byte, written to 5 in the log, put at offset 1: the part behind takes over the log's byte in front of it. */
  lemma {:induction false} UpdateReachesBack(es: seq<Part>) returns (u: seq<Part>)
    requires es == Gapped()
    ensures WellFormed(es) && Keyed(es) && 1 <= Size(es) && Updated(es, 1, 1, 5) == Some(u) && Places(u) == [0, 5, 3, 4]
  {
    var a, b, c := Entry(0, Slice(0, 1, 0)), Entry(1, Slice(1, 1, 5)), Entry(3, Slice(2, 2, 3));
    BlockDepartures.TwoSlicesShape(es, es[0], es[1]);
    BlockDepartures.InsideFirst(es, es[0], es[1], b.val, 2, a, c);
    FourPlaces(a, b, c);
    u := [a, b, c];
  }

  lemma {:induction false} OneSliceShape(one: seq<Part>, e: Part)
    requires one == [e] && e.key == e.val.offset == 0 < e.val.length
    ensures WellFormed(one) && Keyed(one) && Size(one) == e.val.length && LowerBound(one, e.val.length) == 1
  {
    forall i, j ensures Before(one, i, j) {
    }
    forall i ensures Linked(one, i) && KeyedAt(one, i) {
    }
    LowerBoundIs(one, e.val.length, 1);
  }

  /** A write at the end of a block of one slice. */
  lemma {:induction false} Appended(one: seq<Part>, e: Part, s: Slice)
    requires one == [e] && e.key == e.val.offset == 0 < e.val.length == s.offset && s.length > 0
    ensures WellFormed(one) && Keyed(one) && s.offset <= Size(one)
    ensures Updated(one, s.offset, s.length, s.diskOffset) == Some([e, Entry(s.offset, s)])
  {
    OneSliceShape(one, e);
    Vblocks.UpdatedAtEnd(one, s, s.End(), e, []);
    assert (one[..0] + [e]) + ([Entry(s.offset, s)] + []) == [e, Entry(s.offset, s)];
  }

  /** How such a block comes about: three bytes are written, and one more behind them after another reservation. */
  lemma {:induction false} GappedIs(es: seq<Part>, e: Part, f: Part)
    requires es == Gapped() && e == Entry(0, Slice(0, 3, 0)) && f == Entry(3, Slice(3, 1, 4))
    ensures WellFormed([e]) && Keyed([e]) && 3 <= Size([e]) && Updated([e], 3, 1, 4) == Some(es)
    ensures Places([e]) == [0, 1, 2] && Places(es) == [0, 1, 2, 4]
  {
    Appended([e], e, f.val);
    assert es == [e, f] == [e] + [f];
    PlacesConcat([e], [f]);
    OnePlace(e);
    OnePlace(f);
    assert Extent(0, 3) == [0, 1, 2] && Extent(4, 1) == [4];
  }

  /** Three calls run one after the other; a fourth has reserved its byte before the last two, and has not copied it. */
  function Overtaking(d: seq<Byte>, x: Byte, y: Byte, z: Byte): seq<Action> {
    WholeCall(1, d, [0, 1, 2])
    + ([Reserve(2, [x])] + (WholeCall(3, [y], [0, 1, 2, 4]) + WholeCall(4, [z], [0, 5, 3, 4])))
  }

  ghost predicate Overtaken(s: State, t: State, x: Byte) {
    && 3 < |t.log| == |s.log| && t.log[3] == s.log[3]
    && 2 in t.writers && t.writers[2] == Copying(3, [x], {})
    && 1 in t.db && 2 in t.db && t.db[1] == [0, 1, 2, 4] && t.db[2] == [0, 5, 3, 4]
  }

  lemma {:induction false} OvertakingStarts(s: State, d: seq<Byte>, x: Byte, t: State, u: State)
    requires Start(s) && |s.log| >= 6 && |d| == 3 && t == AfterCall(s, 1, d, [0, 1, 2])
    requires 2 !in t.writers && u == AfterCopies(t, 2, [x], 0)
    ensures Leads(s, WholeCall(1, d, [0, 1, 2]) + [Reserve(2, [x])], u)
    ensures u.next == 4 && u.ids == 1 && |u.log| == |s.log| && u.log[3] == s.log[3]
    ensures u.writers.Keys == {1, 2} && u.writers[2] == Copying(3, [x], {})
  {
    WholeCallIs(s, 1, d, [0, 1, 2]);
    ReserveIs(t, 2, [x]);
    LeadsOnce(t, Reserve(2, [x]), [Reserve(2, [x])]);
    LeadsOn(s, WholeCall(1, d, [0, 1, 2]), t, [Reserve(2, [x])], u);
  }

  lemma {:induction false} OvertakingEnds(s: State, u: State, x: Byte, y: Byte, z: Byte, v: State, t: State)
    requires |u.log| == |s.log| >= 6 && u.log[3] == s.log[3] && u.next == 4 && u.ids == 1
    requires u.writers.Keys == {1, 2} && u.writers[2] == Copying(3, [x], {})
    requires v == AfterCall(u, 3, [y], [0, 1, 2, 4]) && v.next == 5 && t == AfterCall(v, 4, [z], [0, 5, 3, 4])
    ensures Leads(u, WholeCall(3, [y], [0, 1, 2, 4]) + WholeCall(4, [z], [0, 5, 3, 4]), t) && Overtaken(s, t, x)
  {
    WholeCallIs(u, 3, [y], [0, 1, 2, 4]);
    WholeCallIs(v, 4, [z], [0, 5, 3, 4]);
    LeadsOn(u, WholeCall(3, [y], [0, 1, 2, 4]), v, WholeCall(4, [z], [0, 5, 3, 4]), t);
  }

  lemma {:induction false} OvertakingRuns(s: State, d: seq<Byte>, x: Byte, y: Byte, z: Byte) returns (t: State)
    requires Start(s) && |s.log| >= 6 && |d| == 3
    ensures Leads(s, Overtaking(d, x, y, z), t) && Overtaken(s, t, x)
  {
    var first := AfterCall(s, 1, d, [0, 1, 2]);
    var u := AfterCopies(first, 2, [x], 0);
    OvertakingStarts(s, d, x, first, u);
    var v := AfterCall(u, 3, [y], [0, 1, 2, 4]);
    t := AfterCall(v, 4, [z], [0, 5, 3, 4]);
    OvertakingEnds(s, u, x, y, z, v, t);
    var a, b := WholeCall(1, d, [0, 1, 2]), [Reserve(2, [x])];
    var more := WholeCall(3, [y], [0, 1, 2, 4]) + WholeCall(4, [z], [0, 5, 3, 4]);
    LeadsOn(s, a + b, u, more, t);
    ConcatAssoc(a, b, more);
  }

  lemma {:induction false} LateCopy(s: State, t: State, x: Byte, ps: seq<int>)
    requires Overtaken(s, t, x) && x != s.log[3] && ps == t.db[2]
    ensures Enabled(t, Copy(2, 0)) && Gather(Next(t, Copy(2, 0)).log, ps) != Gather(t.log, ps)
  {
    assert Gather(t.log, ps)[2] == Some(s.log[3]);
    assert Gather(Next(t, Copy(2, 0)).log, ps)[2] == Some(x);
  }

  /**
   A run under the guard after which a block changes: the update at offset 1 is not sound, its block takes in a byte of
   the log that another call has reserved, and reads otherwise once that call copies it.
   */
  lemma {:induction false} LateCopyChangesABlock(s: State, d: seq<Byte>, x: Byte, y: Byte, z: Byte, es: seq<Part>)
    returns (u: seq<Part>, t: State)
    requires Start(s) && |s.log| >= 6 && |d| == 3 && x != s.log[3] && es == Gapped()
    ensures WellFormed(es) && Keyed(es) && 1 <= Size(es) && Updated(es, 1, 1, 5) == Some(u)
    ensures var run := Overtaking(d, x, y, z); CanRun(s, run) && Exclusive(run, Closed) && t == Run(s, run)
    ensures 1 in t.db && t.db[1] == Places(es) && 2 in t.db && t.db[2] == Places(u)
    ensures Enabled(t, Copy(2, 0)) && Gather(Next(t, Copy(2, 0)).log, t.db[2]) != Gather(t.log, t.db[2])
  {
    t := OvertakingRuns(s, d, x, y, z);
    GappedIs(es, Entry(0, Slice(0, 3, 0)), Entry(3, Slice(3, 1, 4)));
    u := UpdateReachesBack(es);
    LateCopy(s, t, x, t.db[2]);
  }
}

module OptimisticDepartures {
  import opened Wrappers
  import opened OrderedMap
  import opened Extents
  import opened IntervalCodec
  import opened OptimisticWrites
  import opened OptimisticRouting

  function Request(c: nat): Update {
    Update(5, 7, c, [5], 0, [1], 0)
  }

  function Answer(c: nat): Ack {
    Ack(5, 7, c, NO_BLOCK, 0, NO_BLOCK, 0)
  }

  /** Client 7 opens an empty file and writes one byte to server 5. The store fails; the answer counts all the same. */
  function FailedStoreRun(c: nat): seq<Action> {
    [Open(0, 7), Write(0, 0, [1], [5], [true]), Process(Request(c), false), Receive(Answer(c), true), Swap(0)]
  }

  function OneSlice(): seq<Extent> {
    [Entry(0, Slice([Location(5, NO_BLOCK)], 0, NO_BLOCK))]
  }

  function OneChange(): Changes {
    [Entry(0, Change(NO_BLOCK, [Location(5, NO_BLOCK)]))]
  }

  lemma {:induction false} OneStep(s: State, a: Action, more: seq<Action>)
    requires Enabled(s, a) && CanRun(Next(s, a), more)
    ensures CanRun(s, [a] + more) && Execute(s, [a] + more) == Execute(Next(s, a), more)
  {
    assert ([a] + more)[1..] == more;
  }

  lemma {:induction false} EmptyFile()
    ensures WellFormed([]) && Unpack(Pack([])) == Some(([], []))
  {
    var es: seq<Extent> := [];
    forall i, j ensures Before(es, i, j) {
    }
    forall i ensures Joined(es, i) {
    }
    UnpackPack(es, []);
    assert Pack(es) + [] == Pack(es);
  }

  lemma {:induction false} OneReplica()
    ensures WithReplica([], 0, NO_BLOCK, Location(5, NO_BLOCK)) == OneChange()
    ensures Applied([], OneChange()) == OneSlice()
  {
    EmptyFile();
    var l := [Location(5, NO_BLOCK)];
    AppendIs([], NO_BLOCK, l);
    assert OneChange()[1..] == [];
    assert [] + OneSlice() == OneSlice();
  }

  lemma {:induction false} OneServer(p: map<Key, Pend>, c: nat)
    ensures Reached([5], [true]) == [5] && Without([5], 5) == []
    ensures Posted(p, 0, 7, c, [5], [true]) == p[Key(7, c) := Pend(5, 0)]
  {
    var servers, sent := [5], [true];
    assert servers[..0] == [] && sent[..0] == [];
    assert Reached([], []) == [] && [5] + [] == [5];
    assert Posted(p[Key(7, c) := Pend(5, 0)], 0, 7, c, [], []) == p[Key(7, c) := Pend(5, 0)];
  }

  ghost predicate Waiting(s: State, c: nat) {
    && 0 in s.handles && s.handles[0] == Handle(7, [], Sending(Pack([]), [5], []), 0, [1], 0)
    && Key(7, c) in s.pending && s.pending[Key(7, c)] == Pend(5, 0)
    && s.register == Pack([])
  }

  lemma {:induction false} Asked(s: State, c: nat)
    requires Start(s) && s.register == Pack([]) && c == Counter(s.counters, 7)
    ensures Enabled(s, Open(0, 7)) && Enabled(Next(s, Open(0, 7)), Write(0, 0, [1], [5], [true]))
    ensures var t := Next(Next(s, Open(0, 7)), Write(0, 0, [1], [5], [true])); Waiting(t, c) && Request(c) in t.updates
  {
    EmptyFile();
    OneServer(s.pending, c);
  }

  lemma {:induction false} Refused(s: State, c: nat)
    requires Waiting(s, c) && Request(c) in s.updates
    ensures Enabled(s, Process(Request(c), false))
    ensures var t := Next(s, Process(Request(c), false)); Waiting(t, c) && Answer(c) in t.acks
  {
    assert IndexOf([5], 5) == 0;
  }

  lemma {:induction false} Counted(s: State, c: nat)
    requires Waiting(s, c) && Answer(c) in s.acks
    ensures Enabled(s, Receive(Answer(c), true))
    ensures var t := Next(s, Receive(Answer(c), true));
            && Enabled(t, Swap(0)) && CanRun(t, [Swap(0)])
            && Execute(t, [Swap(0)]).register == Pack(OneSlice())
  {
    OneReplica();
    OneServer(s.pending, c);
    var t := Next(s, Receive(Answer(c), true));
    assert t.handles[0] == Handle(7, OneSlice(), Committing(Pack([]), OneChange(), []), 0, [1], 0);
    OneStep(t, Swap(0), []);
    assert [Swap(0)] + [] == [Swap(0)];
  }

  lemma {:induction false} ThenCounted(s: State, c: nat, last: seq<Action>, run: seq<Action>)
    requires Waiting(s, c) && Request(c) in s.updates
    requires last == [Swap(0)] && run == [Process(Request(c), false)] + ([Receive(Answer(c), true)] + last)
    ensures CanRun(s, run) && Execute(s, run).register == Pack(OneSlice())
  {
    Refused(s, c);
    var t := Next(s, Process(Request(c), false));
    Counted(t, c);
    OneStep(t, Receive(Answer(c), true), last);
    OneStep(s, Process(Request(c), false), [Receive(Answer(c), true)] + last);
  }

  lemma {:induction false} FirstAsked(s: State, c: nat, a: Action, b: Action, more: seq<Action>)
    requires Start(s) && s.register == Pack([]) && c == Counter(s.counters, 7)
    requires a == Open(0, 7) && b == Write(0, 0, [1], [5], [true])
    requires more == [Process(Request(c), false)] + ([Receive(Answer(c), true)] + [Swap(0)])
    ensures CanRun(s, [a] + ([b] + more)) && Execute(s, [a] + ([b] + more)).register == Pack(OneSlice())
  {
    Asked(s, c);
    var t := Next(s, a);
    ThenCounted(Next(t, b), c, [Swap(0)], more);
    OneStep(t, b, more);
    OneStep(s, a, [b] + more);
  }

  /** The committed map of the file then has one slice, whose block id and length are what is left of -1. */
  lemma {:induction false} FailedStoreCommits(s: State, c: nat)
    requires Start(s) && s.register == Pack([]) && c == Counter(s.counters, 7)
    ensures CanRun(s, FailedStoreRun(c)) && Execute(s, FailedStoreRun(c)).register == Pack(OneSlice())
  {
    var a, b := Open(0, 7), Write(0, 0, [1], [5], [true]);
    var more := [Process(Request(c), false)] + ([Receive(Answer(c), true)] + [Swap(0)]);
    FirstAsked(s, c, a, b, more);
    assert FailedStoreRun(c) == [a] + ([b] + more);
  }
}
