/**
 The stored form of an extent map: a count, then the slices in address order. Addresses are not stored; unpacking
 re-inserts each slice at the running sum of the lengths. A buffer is a sequence of 64-bit words.
 */
module IntervalCodec {
  import opened Wrappers
  import opened OrderedMap
  import opened Extents

  function PackLocations(l: seq<Location>): seq<nat> {
    if l == [] then [] else [l[0].server, l[0].block] + PackLocations(l[1..])
  }

  function PackSlice(s: Slice): seq<nat> {
    [s.offset, s.length, |s.location|] + PackLocations(s.location)
  }

  function PackSlices(es: seq<Extent>): seq<nat> {
    if es == [] then [] else PackSlice(es[0].val) + PackSlices(es[1..])
  }

  function Pack(es: seq<Extent>): seq<nat> {
    [|es|] + PackSlices(es)
  }

  function ReadLocations(w: seq<nat>, n: nat): Option<(seq<Location>, seq<nat>)> {
    if n == 0 then Some(([], w))
    else if |w| < 2 then None
    else match ReadLocations(w[2..], n - 1)
      case None => None
      case Some((l, rest)) => Some(([Location(w[0], w[1])] + l, rest))
  }

  function ReadSlice(w: seq<nat>): Option<(Slice, seq<nat>)> {
    if |w| < 3 then None
    else match ReadLocations(w[3..], w[2])
      case None => None
      case Some((l, rest)) => Some((Slice(l, w[0], w[1]), rest))
  }

  function ReadSlices(w: seq<nat>, n: nat): Option<(seq<Slice>, seq<nat>)>
    decreases n
  {
    if n == 0 then Some(([], w))
    else match ReadSlice(w)
      case None => None
      case Some((s, rest)) =>
        match ReadSlices(rest, n - 1)
        case None => None
        case Some((v, rest')) => Some(([s] + v, rest'))
  }

  /** The slices inserted one behind the other. Insert takes a slice's length and replicas, not its offset. */
  ghost function InsertAll(v: seq<Slice>, es: seq<Extent>, address: nat): seq<Extent> {
    if v == [] || !WellFormed(es) then es
    else InsertAll(v[1..], Inserted(es, address, v[0].length, v[0].location), address + v[0].length)
  }

  /** What unpacking yields from the slices still to be read, behind those already inserted. */
  ghost function Finish(read: Option<(seq<Slice>, seq<nat>)>, es: seq<Extent>, address: nat)
    : Option<(seq<Extent>, seq<nat>)>
  {
    match read
    case None => None
    case Some((v, rest)) => Some((InsertAll(v, es, address), rest))
  }

  /** Unpacking: the extent map and what is left of the buffer. None when the buffer runs out. */
  ghost function Unpack(w: seq<nat>): Option<(seq<Extent>, seq<nat>)> {
    if w == [] then None else Finish(ReadSlices(w[1..], w[0]), [], 0)
  }

  lemma {:induction false} WrittenReaches(f: seq<Cell>, g: seq<Cell>, address: nat, data: seq<Cell>)
    requires address <= |f| && Locations(g) == Locations(Overwritten(f, address, data))
    ensures address + |data| <= |g|
  {
    assert |g| == |Locations(g)|;
    var after := After(f, address + |data|);
    assert |Overwritten(f, address, data)| == |f[..address]| + (|data| + |after|);
  }

  lemma {:induction false} AppendReaches(es: seq<Extent>, address: nat, length: nat, location: seq<Location>)
    requires WellFormed(es) && address <= Length(es)
    ensures var ins := Inserted(es, address, length, location);
            WellFormed(ins) && ins != [] && address + length <= Length(ins)
  {
    InsertRefines(es, address, length, location);
    var ins := Inserted(es, address, length, location);
    FlatWhole(es);
    FlatWhole(ins);
    WrittenReaches(Flat(es), Flat(ins), address, Cells(Slice(location, 0, length)));
  }

  /** What survives a store and a load: everything but the offsets into the blocks. */
  function Rebase(es: seq<Extent>): (r: seq<Extent>)
    ensures |r| == |es|
  {
    seq(|es|, i requires 0 <= i < |es| => Entry(es[i].key, es[i].val.(offset := 0)))
  }

  lemma {:induction false} AppendEnds(es: seq<Extent>, length: nat)
    requires WellFormed(es) && es != [] && es[|es| - 1].val.length > 0
    ensures LowerBound(es, Length(es)) == |es| && Tail(es, Length(es), length) == []
  {
    LowerBoundIs(es, Length(es), |es|);
  }

  lemma {:induction false} AppendHead(es: seq<Extent>)
    requires WellFormed(es) && es != [] && LowerBound(es, Length(es)) == |es|
    ensures Head(es, Length(es)) == es
  {
    var n := |es| - 1;
    assert ClippedAt(es[n], Length(es)) == es[n];
    assert es[..n] + [es[n]] == es;
  }

  lemma {:induction false} AppendIs(es: seq<Extent>, length: nat, location: seq<Location>)
    requires WellFormed(es) && (es != [] ==> es[|es| - 1].val.length > 0)
    ensures Inserted(es, Length(es), length, location) == es + [Entry(Length(es), Slice(location, 0, length))]
  {
    if es != [] {
      AppendEnds(es, length);
      AppendHead(es);
    }
  }

  /** The words of one slice: its offset, its length, the number of its locations, and each one's server and block. */
  lemma {:induction false} SliceWords(s: Slice, k: nat)
    ensures var w := PackSlice(s);
            && |w| == 3 + 2 * |s.location| && w[0] == s.offset && w[1] == s.length && w[2] == |s.location|
            && (k < |s.location| ==> w[3 + 2 * k] == s.location[k].server && w[4 + 2 * k] == s.location[k].block)
  {
    LocationWordsAt(s.location, k);
  }

  lemma {:induction false} LocationWordsAt(l: seq<Location>, k: nat)
    ensures var w := PackLocations(l);
            |w| == 2 * |l| && (k < |l| ==> w[2 * k] == l[k].server && w[2 * k + 1] == l[k].block)
  {
    if l != [] {
      LocationWordsAt(l[1..], if k > 0 then k - 1 else 0);
    }
  }

  /** The words of a map: the number of its slices, then the words of each, in address order. */
  lemma {:induction false} MapWords(es: seq<Extent>, i: nat)
    requires i < |es|
    ensures Pack(es)[0] == |es|
    ensures Pack(es)[1..] == PackSlices(es[..i]) + (PackSlice(es[i].val) + PackSlices(es[i + 1..]))
  {
    assert es == es[..i] + es[i..] && es[i..] == [es[i]] + es[i + 1..];
    PackSlicesConcat(es[..i], es[i..]);
    assert es[i..][1..] == es[i + 1..];
  }

  lemma {:induction false} ReadPackedLocations(l: seq<Location>, rest: seq<nat>)
    ensures ReadLocations(PackLocations(l) + rest, |l|) == Some((l, rest))
  {
    if l == [] {
      assert PackLocations(l) + rest == rest;
    } else {
      var w := PackLocations(l) + rest;
      assert w[2..] == PackLocations(l[1..]) + rest;
      ReadPackedLocations(l[1..], rest);
      assert [Location(w[0], w[1])] + l[1..] == l;
    }
  }

  lemma {:induction false} ReadPackedSlice(s: Slice, rest: seq<nat>)
    ensures ReadSlice(PackSlice(s) + rest) == Some((s, rest))
  {
    var w := PackSlice(s) + rest;
    assert w[3..] == PackLocations(s.location) + rest;
    ReadPackedLocations(s.location, rest);
  }

  lemma {:induction false} RebasePrefix(es: seq<Extent>, i: nat)
    requires WellFormed(es) && i <= |es|
    ensures WellFormed(Rebase(es)[..i])
    ensures Length(Rebase(es)[..i]) == if i < |es| then es[i].key else Length(es)
    ensures 0 < i < |es| ==> Rebase(es)[..i][i - 1].val.length > 0
    ensures i < |es| ==>
              var e := Entry(es[i].key, Slice(es[i].val.location, 0, es[i].val.length));
              Rebase(es)[..i + 1] == Rebase(es)[..i] + [e]
  {
    var r := Rebase(es)[..i];
    forall j, k ensures Before(r, j, k) {
      assert Before(es, j, k);
    }
    forall j ensures Joined(r, j) {
      assert Joined(es, j);
    }
    if 0 < i < |es| {
      assert Joined(es, i - 1) && Before(es, i - 1, i);
    }
  }

  function Values(es: seq<Extent>): (v: seq<Slice>)
    ensures |v| == |es|
  {
    seq(|es|, i requires 0 <= i < |es| => es[i].val)
  }

  lemma {:induction false} ReadPackedSlices(es: seq<Extent>, rest: seq<nat>)
    ensures ReadSlices(PackSlices(es) + rest, |es|) == Some((Values(es), rest))
  {
    if es == [] {
      assert PackSlices(es) + rest == rest;
    } else {
      var w := PackSlices(es[1..]) + rest;
      ConcatAssoc(PackSlice(es[0].val), PackSlices(es[1..]), rest);
      ReadPackedSlice(es[0].val, w);
      ReadPackedSlices(es[1..], rest);
      assert Values(es) == [es[0].val] + Values(es[1..]);
    }
  }

  lemma {:induction false} InsertAllStep(v: seq<Slice>, rest: seq<Slice>, es: seq<Extent>, address: nat,
                                         more: seq<Extent>, next: nat)
    requires v != [] && rest == v[1..] && WellFormed(es)
    requires more == Inserted(es, address, v[0].length, v[0].location) && next == address + v[0].length
    ensures InsertAll(v, es, address) == InsertAll(rest, more, next)
  {
  }

  lemma {:induction false} FinishStop(w: seq<nat>, n: nat, es: seq<Extent>, address: nat)
    requires n > 0 && ReadSlice(w).None?
    ensures Finish(ReadSlices(w, n), es, address) == None
  {
  }

  lemma {:induction false} FinishStep(w: seq<nat>, n: nat, s: Slice, rest: seq<nat>,
                                      es: seq<Extent>, address: nat, more: seq<Extent>, next: nat)
    requires n > 0 && ReadSlice(w) == Some((s, rest)) && WellFormed(es) && address <= Length(es)
    requires more == Inserted(es, address, s.length, s.location) && WellFormed(more)
    requires next == address + s.length <= Length(more)
    ensures Finish(ReadSlices(w, n), es, address) == Finish(ReadSlices(rest, n - 1), more, next)
  {
    match ReadSlices(rest, n - 1)
    case None =>
    case Some((v, rest')) =>
      assert ([s] + v)[1..] == v;
      InsertAllStep([s] + v, v, es, address, more, next);
  }

  lemma {:induction false} InsertAllPacked(es: seq<Extent>, i: nat, done: seq<Extent>)
    requires WellFormed(es) && i <= |es| && done == Rebase(es)[..i] && WellFormed(done)
    ensures InsertAll(Values(es)[i..], done, Length(done)) == Rebase(es)
    decreases |es| - i
  {
    if i == |es| {
      assert done == Rebase(es);
    } else {
      var more := Rebase(es)[..i + 1];
      RebasePrefix(es, i);
      RebasePrefix(es, i + 1);
      assert Joined(es, i);
      AppendIs(done, es[i].val.length, es[i].val.location);
      assert Values(es)[i..][1..] == Values(es)[i + 1..];
      InsertAllStep(Values(es)[i..], Values(es)[i + 1..], done, Length(done), more, Length(more));
      InsertAllPacked(es, i + 1, more);
    }
  }

  /** Unpacking what was packed restores every address, length and replica list, and resets every offset to 0. */
  lemma {:induction false} UnpackPack(es: seq<Extent>, rest: seq<nat>)
    requires WellFormed(es)
    ensures Unpack(Pack(es) + rest) == Some((Rebase(es), rest))
  {
    assert (Pack(es) + rest)[1..] == PackSlices(es) + rest;
    ReadPackedSlices(es, rest);
    InsertAllPacked(es, 0, []);
    assert Values(es)[0..] == Values(es);
  }

  /** So the round trip is exact for exactly the maps all of whose slices are based at 0. */
  lemma {:induction false} RoundTrip(es: seq<Extent>)
    requires WellFormed(es)
    ensures Unpack(Pack(es)) == Some((es, [])) <==> forall i :: 0 <= i < |es| ==> es[i].val.offset == 0
  {
    UnpackPack(es, []);
    assert Pack(es) + [] == Pack(es);
    if forall i :: 0 <= i < |es| ==> es[i].val.offset == 0 {
      assert Rebase(es) == es;
    } else {
      var i :| 0 <= i < |es| && es[i].val.offset != 0;
      assert Rebase(es)[i].val.offset == 0;
    }
  }

  lemma {:induction false} SameKeys(es: seq<Extent>, fs: seq<Extent>, i: nat)
    requires WellFormed(es) && WellFormed(fs) && Values(es) == Values(fs) && i < |es|
    ensures |fs| == |es| && fs[i] == es[i]
  {
    assert |fs| == |Values(fs)| && Values(es)[i] == Values(fs)[i];
    if i > 0 {
      SameKeys(es, fs, i - 1);
      assert Joined(es, i - 1) && Joined(fs, i - 1);
    }
  }

  /** Two well-formed maps with the same stored form are the same map, offsets included. */
  lemma {:induction false} PackInjective(es: seq<Extent>, fs: seq<Extent>)
    requires WellFormed(es) && WellFormed(fs) && Pack(es) == Pack(fs)
    ensures es == fs
  {
    assert |es| == Pack(es)[0] == Pack(fs)[0] == |fs|;
    assert PackSlices(es) == Pack(es)[1..] && PackSlices(fs) == Pack(fs)[1..];
    assert PackSlices(es) + [] == PackSlices(es) && PackSlices(fs) + [] == PackSlices(fs);
    ReadPackedSlices(es, []);
    ReadPackedSlices(fs, []);
    forall i | 0 <= i < |es| ensures es[i] == fs[i] {
      SameKeys(es, fs, i);
    }
  }

  /** The size the program computes, in words (every field and every half of a location is one). */
  function PackSize(es: seq<Extent>): nat {
    if es == [] then 1 else PackSize(es[..|es| - 1]) + 3 + 2 * |es[|es| - 1].val.location|
  }

  lemma {:induction false} PackSlicesConcat(a: seq<Extent>, b: seq<Extent>)
    ensures PackSlices(a + b) == PackSlices(a) + PackSlices(b)
  {
    if a == [] {
      assert a + b == b;
    } else {
      assert (a + b)[1..] == a[1..] + b;
      PackSlicesConcat(a[1..], b);
      ConcatAssoc(PackSlice(a[0].val), PackSlices(a[1..]), PackSlices(b));
    }
  }

  lemma {:induction false} PackOneMore(es: seq<Extent>, i: nat)
    requires i < |es|
    ensures PackSlices(es[..i + 1]) == PackSlices(es[..i]) + PackSlice(es[i].val)
  {
    PackSlicesConcat(es[..i], [es[i]]);
    assert es[..i + 1] == es[..i] + [es[i]];
    assert [es[i]][1..] == [] && PackSlices([]) == [];
  }

  lemma {:induction false} LocationWords(l: seq<Location>)
    ensures |PackLocations(l)| == 2 * |l|
  {
    if l != [] {
      LocationWords(l[1..]);
    }
  }

  /** The announced size is the number of words emitted. */
  lemma {:induction false} PackSizeIs(es: seq<Extent>)
    ensures PackSize(es) == |Pack(es)|
  {
    if es != [] {
      var n := |es| - 1;
      PackSizeIs(es[..n]);
      assert es == es[..n] + [es[n]];
      PackSlicesConcat(es[..n], [es[n]]);
      assert PackSlices([es[n]]) == PackSlice(es[n].val) + PackSlices([]);
      LocationWords(es[n].val.location);
    }
  }
}
