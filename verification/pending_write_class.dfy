/**
 One write as the client runs it: the object behind a handle of the state machine. Its methods edit the shared extent
 map, the changes collected so far, the packed map to compare with and the retry flag; `View` is the handle they make
 up.
 */
module PendingWrites {
  import opened Wrappers
  import opened OrderedMap
  import opened Extents
  import opened IntervalCodec
  import opened IntervalMaps
  import opened OptimisticWrites
  import opened OptimisticCommits
  import opened Replication

  /** Where the write is: which answers it is waiting for. */
  datatype Waiting = ForServers | ForSwap | ForMap | ForNothing

  /** Changes that, made one after the other, never write behind the end of the file. */
  ghost predicate LeaveNoGap(es: seq<Extent>, m: Changes)
    decreases |m|
  {
    m == [] ||
    (m[0].key <= Length(es) && WellFormed(es)
     && LeaveNoGap(Inserted(es, m[0].key, m[0].val.length, m[0].val.location), m[1..]))
  }

  lemma {:induction false} OneLeavesNoGap(es: seq<Extent>, m: Changes)
    requires WellFormed(es) && |m| == 1 && m[0].key <= Length(es)
    ensures LeaveNoGap(es, m)
  {
    assert m[1..] == [];
  }

  class PendingWrite {
    const handle: nat
    const client: nat
    const address: nat
    const data: seq<Byte>
    const file: IntervalMap
    const op: PendingAggregation
    var changeset: Changes
    var oldBlockmap: seq<nat>
    var retry: bool
    var waiting: Waiting
    ghost var basis: seq<Extent>
    ghost var round: nat

    ghost function View(): Handle
      reads this, file, op
    {
      Handle(client, file.slices,
             match waiting
             case ForServers => Sending(oldBlockmap, op.outstanding, changeset)
             case ForSwap => Committing(oldBlockmap, changeset, basis)
             case ForMap => Failed
             case ForNothing => Idle,
             address, data, round)
    }

    constructor (h: nat, c: nat, at: nat, bytes: seq<Byte>, f: IntervalMap)
      ensures handle == h && client == c && address == at && data == bytes && file == f && fresh(op)
      ensures waiting == ForNothing && !retry && op.outstanding == []
    {
      handle, client, address, data, file := h, c, at, bytes, f;
      op := new PendingAggregation();
      changeset, oldBlockmap, retry, waiting := [], [], false, ForNothing;
    }

    /**
     Remember the packed map, forget what was collected, send the data. In a state of the protocol where the handle may
     start this write, that is the step Write.
     */
    method DoOp(cl: Client, servers: seq<nat>, sent: seq<bool>, ghost r: nat, ghost s: State)
      requires cl.token == client && |sent| == |servers| && op.outstanding == []
      modifies this, op, cl
      ensures View() == Handle(client, file.slices, Sending(Pack(file.slices), Reached(servers, sent), []),
                               address, data, r)
      ensures handle in s.handles && s.handles[handle].client == client && s.handles[handle].file == file.slices
              && Enabled(s, Write(handle, address, data, servers, sent)) && r == |s.rounds| ==>
                View() == Next(s, Write(handle, address, data, servers, sent)).handles[handle]
      ensures cl.nextServerNonce == old(cl.nextServerNonce) + |servers|
      ensures cl.pending == Posted(old(cl.pending), handle, client, old(cl.nextServerNonce), servers, sent)
      ensures retry == old(retry)
    {
      oldBlockmap := file.Pack();
      changeset, waiting, round := [], ForServers, r;
      var posts := cl.PerformAggregation(op, handle, servers, sent);
      assert op.outstanding == Reached(servers, sent);
    }

    /** apply_changeset: insert the changes in address order. */
    method ApplyChangeset()
      requires WellFormed(file.slices) && LeaveNoGap(file.slices, changeset)
      modifies file
      ensures file.slices == Applied(old(file.slices), changeset) && WellFormed(file.slices)
    {
      var i := 0;
      assert changeset[0..] == changeset;
      while i < |changeset|
        invariant i <= |changeset| && WellFormed(file.slices) && LeaveNoGap(file.slices, changeset[i..])
        invariant Applied(file.slices, changeset[i..]) == Applied(old(file.slices), changeset)
      {
        assert changeset[i..][1..] == changeset[i + 1..];
        InsertRefines(file.slices, changeset[i].key, changeset[i].val.length, changeset[i].val.location);
        file.Insert(changeset[i].key, changeset[i].val.length, changeset[i].val.location);
        i := i + 1;
      }
    }

    /** An answer from a server: one less to wait for, one more replica; after the last one, apply and commit. */
    method HandleWtfMessage(server: nat, a: Ack)
      requires waiting == ForServers && WellFormed(file.slices) && a.address == address <= Length(file.slices)
      requires changeset == [] || (|changeset| == 1 && changeset[0].key == address)
      modifies this, op, file
      ensures View() == Answered(old(View()), server, a)
      ensures waiting == ForSwap ==> op.outstanding == []
    {
      WithReplicaIs(changeset, a.address, a.length, Location(server, a.block));
      op.RemoveWtfMessage(server);
      var l := Location(server, a.block);
      if Has(changeset, a.address) {
        var c := changeset[LowerBound(changeset, a.address)].val;
        changeset := Put(changeset, a.address, c.(location := c.location + [l]));
      } else {
        changeset := Put(changeset, a.address, Change(a.length, [l]));
      }
      if op.outstanding == [] {
        basis := file.slices;
        OneLeavesNoGap(basis, changeset);
        ApplyChangeset();
        waiting := ForSwap;
      }
    }

    /** The answer to the compare-and-set: done, or ask for the map as it is now. */
    method HandleCondput(success: bool)
      requires waiting == ForSwap && !retry
      modifies this
      ensures View() == old(View()).(phase := if success then Idle else Failed)
      ensures retry <==> !success
    {
      if success {
        waiting := ForNothing;
      } else {
        retry := true;
        waiting := ForMap;
      }
    }

    /**
     The map as it is now: load it, unless there is none, and start over. The result is false when the program's
     behaviour is undefined: it does not notice that a value is too short, and fills the map with words that are not
     there. Otherwise, in a state of the protocol where the handle has read this value, it is the step Retry.
     */
    method HandleNewMetadata(value: seq<nat>, cl: Client, servers: seq<nat>, sent: seq<bool>,
                             ghost r: nat, ghost s: State)
      returns (defined: bool)
      requires waiting == ForMap && retry && op.outstanding == []
      requires cl.token == client && |sent| == |servers|
      modifies this, op, file, cl
      ensures defined <==> value == [] || Unpack(value).Some?
      ensures defined ==>
                && !retry
                && var es := Loaded(old(file.slices), value);
                   View() == Handle(client, es, Sending(Pack(es), Reached(servers, sent), []), address, data, r)
      ensures defined && handle in s.handles && s.handles[handle] == old(View()).(phase := Fetched(value))
              && Enabled(s, Retry(handle, servers, sent)) && r == |s.rounds| ==>
                View() == Next(s, Retry(handle, servers, sent)).handles[handle]
      ensures defined ==>
                cl.pending == Posted(old(cl.pending), handle, client, old(cl.nextServerNonce), servers, sent)
    {
      retry := false;
      if value != [] {
        var ok, rest := file.Unpack(value);
        if !ok {
          return false;
        }
      }
      defined := true;
      DoOp(cl, servers, sent, r, s);
    }
  }
}
