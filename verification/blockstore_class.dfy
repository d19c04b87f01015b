/** The block store as the program keeps it: a log buffer with a reservation counter, and a database behind it. */
module Blockmaps {
  import opened Wrappers
  import opened OrderedMap
  import opened Blocks
  import opened Vblocks
  import opened Blockstore

  class Disk {
    const log: array<Byte>
    var logOffset: nat

    constructor (size: nat)
      ensures fresh(log) && log.Length == size && logOffset == 0
    {
      log := new Byte[size](_ => 0);
      logOffset := 0;
    }

    /** Reserve by adding to the counter, then copy, unless the reservation runs past the end of the log. */
    method Write(data: seq<Byte>) returns (status: int, offset: nat)
      modifies this, log
      ensures offset == old(logOffset) && logOffset == old(logOffset) + |data|
      ensures log.Length < logOffset ==> status == -1 && log[..] == old(log[..])
      ensures logOffset <= log.Length ==>
                status == |data| && log[..] == old(log[..])[..offset] + data + old(log[..])[logOffset..]
    {
      offset := logOffset;
      logOffset := logOffset + |data|;
      if log.Length < offset + |data| {
        return -1, offset;
      }
      var i := 0;
      while i < |data|
        invariant i <= |data| && logOffset == offset + |data|
        invariant forall j :: 0 <= j < log.Length ==>
                    log[j] == if offset <= j < offset + i then data[j - offset] else old(log[j])
        modifies log
      {
        log[offset + i] := data[i];
        i := i + 1;
      }
      assert log[..] == old(log[..])[..offset] + data + old(log[..])[logOffset..];
      status := |data|;
    }

    method Read(offset: nat, length: nat) returns (data: seq<Byte>)
      requires offset + length <= log.Length
      ensures data == log[offset..offset + length]
    {
      data := log[offset..offset + length];
    }
  }

  function Answer(status: int, block: nat): Reply {
    if status < 0 then Failed else Made(block, status)
  }

  lemma {:induction false} WriteStepIs(s: Store, d: seq<Byte>, es: seq<Part>)
    requires Sane(s) && d != [] && es == [Entry(0, Slice(0, |d|, s.next))]
    ensures Updated([], 0, |d|, s.next) == Some(es)
    ensures Step(s, Op.Write(d)) == if |s.log| < s.next + |d| then (LogWrite(s, d), Failed)
                                    else (Make(LogWrite(s, d), es), Made(s.ids, |d|))
    ensures Sane(Step(s, Op.Write(d)).0)
  {
    UpdatedEmpty(|d|, s.next);
    StepSane(s, Op.Write(d));
  }

  lemma {:induction false} UpdateStepFails(s: Store, d: seq<Byte>, at: nat, b: nat)
    requires Sane(s) && d != [] && (|s.log| < s.next + |d| || b !in s.db)
    ensures Defined(s, Update(d, at, b)) && Step(s, Update(d, at, b)) == (LogWrite(s, d), Failed)
  {
  }

  lemma {:induction false} UpdateStepIs(s: Store, d: seq<Byte>, at: nat, b: nat, es: seq<Part>)
    requires Sane(s) && d != [] && s.next + |d| <= |s.log| && b in s.db && es == Loaded(s.db[b]) && at <= Size(es)
    ensures WellFormed(es) && Keyed(es)
    ensures var u := Updated(es, at, |d|, s.next);
            && (Defined(s, Update(d, at, b)) <==> u.Some?)
            && (u.Some? ==> Step(s, Update(d, at, b)) == (Make(LogWrite(s, d), u.value), Made(s.ids, |d|)))
  {
    assert Shaped(s, b);
  }

  /** The block an update makes has the length that the program reports, unless the update moved the last slice. */
  lemma {:induction false} ReportedLength(es: seq<Part>, at: nat, n: nat, next: nat, r: seq<Part>)
    requires WellFormed(es) && Keyed(es) && n > 0 && at <= Size(es) && Updated(es, at, n, next) == Some(r)
    ensures Length(r) == |Places(Loaded(Stored(r)))| <==> !MovesLast(es, at, n)
  {
    LengthExact(es, at, n, next);
    UpdateKeepsShape(es, at, n, next);
    ReloadRepairs(r);
  }

  lemma {:induction false} TruncateStepIs(s: Store, b: nat, n: nat, es: seq<Part>)
    requires Sane(s) && n > 0 && b in s.db && es == Loaded(s.db[b])
    ensures WellFormed(es) && Keyed(es) && (Defined(s, Truncate(b, n)) <==> Resized(es, n).Some?)
    ensures Defined(s, Truncate(b, n)) ==>
              Step(s, Truncate(b, n)) == (Make(s, Resized(es, n).value), Made(s.ids, n))
  {
    assert Shaped(s, b);
    ResizeRefines(es, n);
  }

  class Blockmap {
    const disk: Disk
    var ids: nat
    var db: map<nat, seq<Slice>>

    ghost function State(): Store
      reads this, disk, disk.log
    {
      Store(disk.log[..], disk.logOffset, ids, db)
    }

    constructor (size: nat)
      ensures fresh(disk) && fresh(disk.log) && Valid(State())
      ensures State().db == map[] && State().ids == 0 && State().next == 0 && |State().log| == size
    {
      disk := new Disk(size);
      ids := 0;
      db := map[];
    }

    /** Write a new block. */
    method Write(data: seq<Byte>) returns (status: int, block: nat)
      requires Sane(State()) && data != []
      modifies this, disk, disk.log
      ensures Sane(State()) && (State(), Answer(status, block)) == Step(old(State()), Op.Write(data))
    {
      ghost var s := State();
      ghost var es := [Entry(0, Slice(0, |data|, s.next))];
      WriteStepIs(s, data, es);
      var offset;
      block := 0;
      status, offset := disk.Write(data);
      assert State() == LogWrite(s, data);
      if status < 0 {
        return;
      }
      block := ids;
      ids := ids + 1;
      var vb := new Vblock();
      var defined := vb.Update(0, |data|, offset);
      db := db[block := Stored(vb.slices)];
      assert vb.slices == es && State() == Make(LogWrite(s, data), es);
    }

    /** The part of an update behind the write to the log: load the block, put the slice in, store it under a new id. */
    method Revise(offset: nat, length: nat, block: nat, at: nat) returns (defined: bool, made: nat, size: nat)
      requires block in db && ids !in db && length > 0
      requires var es := Loaded(db[block]); WellFormed(es) && Keyed(es) && offset <= Size(es)
      modifies this`ids, this`db
      ensures ids == old(ids) + 1 && made == old(ids)
      ensures var u := Updated(old(Loaded(db[block])), offset, length, at);
              && (defined <==> u.Some?)
              && (defined ==> size == Length(u.value) && db == old(db)[made := Stored(u.value)])
              && (!defined ==> db == old(db))
    {
      size := 0;
      var vb := new Vblock.Load(db[block]);
      made := ids;
      ids := ids + 1;
      defined := vb.Update(offset, length, at);
      if defined {
        size := vb.Length();
        db := db[made := Stored(vb.slices)];
      }
    }

    /**
     Overwrite part of a block, in a new block. The result `defined` is false when the program's behaviour is undefined;
     the block length reported is the one computed from the last key.
     */
    method Update(data: seq<Byte>, offset: nat, block: nat) returns (defined: bool, status: int, made: nat, length: nat)
      requires Sane(State()) && data != []
      requires block in db && disk.logOffset + |data| <= disk.log.Length ==> offset <= Size(Loaded(db[block]))
      modifies this, disk, disk.log
      ensures defined <==> Defined(old(State()), Op.Update(data, offset, block))
      ensures defined ==>
                && Sane(State())
                && (State(), Answer(status, made)) == Step(old(State()), Op.Update(data, offset, block))
      ensures forall b :: b in old(db) ==> b in db && db[b] == old(db[b])
      ensures !defined <==> (old(disk.logOffset) + |data| <= disk.log.Length && block in old(db)
                             && RunsOff(old(Loaded(db[block])), offset, |data|))
      ensures defined && status >= 0 ==>
                && block in old(db) && made in db
                && (length == |Places(Loaded(db[made]))| <==> !MovesLast(old(Loaded(db[block])), offset, |data|))
                && var u := Updated(old(Loaded(db[block])), offset, |data|, old(disk.logOffset));
                   u.Some? && length == Length(u.value)
    {
      ghost var s := State();
      var at;
      defined, made, length := true, block, 0;
      assert block in s.db ==> Shaped(s, block);
      status, at := disk.Write(data);
      ghost var written := LogWrite(s, data);
      assert State() == written;
      if status < 0 || block !in db {
        UpdateStepFails(s, data, offset, block);
        StepSane(s, Op.Update(data, offset, block));
        return true, -1, block, 0;
      }
      ghost var es := Loaded(s.db[block]);
      NewId(s);
      UpdateStepIs(s, data, offset, block, es);
      defined, made, length := Revise(offset, |data|, block, at);
      if defined {
        ghost var r := Updated(es, offset, |data|, at).value;
        StepSane(s, Op.Update(data, offset, block));
        ReportedLength(es, offset, |data|, at, r);
        assert State() == Make(written, r);
      }
    }

    lemma {:induction false} NewId(s: Store)
      requires Sane(s)
      ensures s.ids !in s.db
    {
      assert s.ids in s.db ==> Shaped(s, s.ids);
    }

    /** Cut a block, in a new block. */
    method Truncate(block: nat, size: nat) returns (defined: bool, status: int, made: nat)
      requires Sane(State()) && size > 0
      modifies this
      ensures Defined(old(State()), Op.Truncate(block, size)) <==> defined
      ensures defined ==>
                Sane(State()) && (State(), Answer(status, made)) == Step(old(State()), Op.Truncate(block, size))
      ensures forall b :: b in old(db) ==> b in db && db[b] == old(db[b])
    {
      ghost var s := State();
      if block !in db {
        return true, -1, block;
      }
      assert Shaped(s, block);
      ghost var es := Loaded(s.db[block]);
      TruncateStepIs(s, block, size, es);
      NewId(s);
      var vb := new Vblock.Load(db[block]);
      made := ids;
      ids := ids + 1;
      defined := vb.SetLen(size);
      if !defined {
        return false, -1, made;
      }
      db := db[made := Stored(vb.slices)];
      status := size;
      StepSane(s, Op.Truncate(block, size));
      assert State() == Make(s, Resized(es, size).value);
    }

    /**
     The loop of read: the first bytes of a block, slice by slice. The result is false when the program's behaviour is
     undefined: the loop runs past the last slice, or a slice starts in front of the log. (In a block without gaps every
     slice starts where the previous one ended, so the loop's two tests for a slice that starts later never hold.)
     */
    method ReadSlices(slices: seq<Part>, length: nat) returns (defined: bool, data: seq<Byte>)
      requires WellFormed(slices) && Within(slices, Limit(State())) && length > 0
      ensures defined <==> length <= |Places(slices)| && InLog(State(), Places(slices)[..length])
      ensures defined ==> data == Fetch(disk.log[..], Places(slices)[..length])
    {
      ghost var s := State();
      PlacesSize(slices);
      data := [];
      var rem, it, offset := length, 0, 0;
      while rem > 0
        invariant it <= |slices| && 0 <= rem <= length && offset == length - rem <= |Places(slices)|
        invariant InLog(s, Places(slices)[..offset]) && data == Fetch(s.log, Places(slices)[..offset])
        invariant rem > 0 ==> offset == (if it < |slices| then slices[it].val.offset else |Places(slices)|)
        decreases rem
      {
        if it == |slices| {
          return false, data;
        }
        assert Linked(slices, it);
        var e := slices[it].val;
        var diskOffset, diskLen := e.diskOffset + (offset - e.offset), e.length - (offset - e.offset);
        diskLen := if diskLen > rem then rem else diskLen;
        FetchMore(s, slices, it, offset, diskLen);
        if diskOffset < 0 {
          OutOfLog(s, Places(slices), offset, length);
          return false, data;
        }
        var piece := disk.Read(diskOffset, diskLen);
        data := data + piece;
        rem := rem - diskLen;
        offset := offset + diskLen;
        it := it + 1;
      }
      defined := true;
    }

    /** Read the first bytes of a block, as the daemon does (it always asks from offset 0). */
    method Read(block: nat, length: nat) returns (defined: bool, status: int, data: seq<Byte>)
      requires Sane(State()) && length > 0
      ensures Defined(State(), Op.Read(block, length)) <==> defined
      ensures defined ==> (if status < 0 then Failed else Bytes(data)) == Step(State(), Op.Read(block, length)).1
    {
      if block !in db {
        return true, -1, [];
      }
      assert Shaped(State(), block);
      var vb := new Vblock.Load(db[block]);
      PlacesSize(vb.slices);
      defined, data := ReadSlices(vb.slices, length);
      status := length;
    }
  }

  /** The place of the first byte of a slice. */
  lemma {:induction false} PieceAt(es: seq<Part>, it: nat, n: nat)
    requires WellFormed(es) && it < |es| && 0 < n <= es[it].val.length
    ensures var o := es[it].val.offset;
            && o + n <= |Places(es)|
            && Places(es)[..o + n] == Places(es)[..o] + Extent(es[it].val.diskOffset, n)
            && Places(es)[o] == es[it].val.diskOffset
  {
    var o, d := es[it].val.offset, Extent(es[it].val.diskOffset, es[it].val.length);
    PlacesPrefix(es, it);
    PlacesSplit(es, it);
    CutConcat(Places(es[..it]), d, Places(es[it + 1..]), o + n);
    CutConcat(Places(es[..it]), d, Places(es[it + 1..]), o);
    assert d[..n] == Extent(es[it].val.diskOffset, n) && d[..0] == [];
  }

  lemma {:induction false} OutOfLog(s: Store, p: seq<int>, o: nat, n: nat)
    requires o < |p| && p[o] < 0 && o < n
    ensures n <= |p| ==> !InLog(s, p[..n])
  {
    assert n <= |p| ==> p[..n][o] == p[o];
  }

  lemma {:induction false} FetchExtent(s: Store, d: nat, n: nat)
    requires d + n <= Limit(s)
    ensures InLog(s, Extent(d, n)) && Fetch(s.log, Extent(d, n)) == s.log[d..d + n]
  {
  }

  lemma {:induction false} FetchMore(s: Store, es: seq<Part>, it: nat, offset: nat, n: nat)
    requires WellFormed(es) && Within(es, Limit(s)) && it < |es| && offset == es[it].val.offset
    requires 0 < n <= es[it].val.length
    ensures offset + n <= |Places(es)| && Places(es)[offset] == es[it].val.diskOffset
    ensures var d, p := es[it].val.diskOffset, Places(es);
            0 <= d && InLog(s, p[..offset]) ==>
              && d + n <= |s.log| && InLog(s, p[..offset + n])
              && Fetch(s.log, p[..offset + n]) == Fetch(s.log, p[..offset]) + s.log[d..d + n]
  {
    var d, p := es[it].val.diskOffset, Places(es);
    PieceAt(es, it, n);
    assert EndsBy(es, it, Limit(s));
    if 0 <= d && InLog(s, p[..offset]) {
      FetchExtent(s, d, n);
      FetchConcat(s, p[..offset], Extent(d, n));
    }
  }
}
