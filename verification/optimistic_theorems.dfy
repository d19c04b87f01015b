/**
 The main results on the replicated optimistic write, for every run of any number of clients, servers and messages.
 */
module OptimisticTheorems {
  import opened Wrappers
  import opened OrderedMap
  import opened Extents
  import opened IntervalCodec
  import opened OptimisticWrites
  import opened OptimisticRouting
  import opened OptimisticCommits

  // ---------------------------------------------------------------------------------------------
  // Each commit once
  // ---------------------------------------------------------------------------------------------

  ghost predicate Unlike(s: State, i: nat, j: nat) {
    i < j < |s.log| ==> s.log[i].round != s.log[j].round
  }

  /** In the middle of a round. */
  ghost predicate Busy(s: State, h: nat) {
    h in s.handles && (s.handles[h].phase.Sending? || s.handles[h].phase.Committing?)
  }

  ghost predicate NotYet(s: State, h: nat, i: nat) {
    Busy(s, h) && i < |s.log| ==> s.log[i].round != s.handles[h].round
  }

  ghost predicate InLog(s: State, r: nat) {
    exists i: nat :: i < |s.log| && s.log[i].round == r
  }

  ghost predicate Once(s: State) {
    && (forall i: nat, j: nat :: Unlike(s, i, j))
    && (forall h: nat, i: nat :: NotYet(s, h, i))
    && (forall r :: r in s.done ==> InLog(s, r))
  }

  lemma {:induction false} StillInLog(s: State, t: State, r: nat)
    requires InLog(s, r) && s.log <= t.log
    ensures InLog(t, r)
  {
    var i: nat :| i < |s.log| && s.log[i].round == r;
    assert t.log[i] == s.log[i];
  }

  /** A handle in the middle of a round has just begun it, or was in it before. */
  ghost predicate BusyAsBefore(s: State, t: State, h: nat) {
    Busy(t, h) ==> t.handles[h].round == |s.rounds| || (Busy(s, h) && t.handles[h].round == s.handles[h].round)
  }

  lemma {:induction false} SentRound(s: State, g: nat, hd: Handle, servers: seq<nat>, sent: seq<bool>, h: nat)
    requires |sent| == |servers|
    ensures BusyAsBefore(s, Sent(s, g, hd, servers, sent), h)
  {
    assert Busy(s, h) ==> h in s.handles;
  }

  lemma {:induction false} SettledRound(s: State, a: Action, h: nat)
    requires Enabled(s, a) && (a.Receive? || a.GiveUp?)
    ensures BusyAsBefore(s, Next(s, a), h)
  {
    if a.Receive? {
      assert BusyAsBefore(s, Received(s, a.ack, a.known), h);
    }
  }

  lemma {:induction false} QuietRound(s: State, a: Action, h: nat)
    requires Enabled(s, a)
    ensures BusyAsBefore(s, Next(s, a), h)
  {
    if a.Receive? || a.GiveUp? {
      SettledRound(s, a, h);
    } else if a.Write? {
      SentRound(s, a.handle, s.handles[a.handle].(address := a.address, data := a.data), a.servers, a.sent, h);
    } else if a.Retry? {
      var hd := s.handles[a.handle];
      SentRound(s, a.handle, hd.(file := Loaded(hd.file, hd.phase.value)), a.servers, a.sent, h);
    } else if a.Process? {
      assert Processed(s, a.update, a.stored).handles == s.handles;
    }
  }

  /** A step that commits nothing. */
  lemma {:induction false} QuietOnce(s: State, start: seq<Extent>, t: State)
    requires Fine(s, start) && Once(s) && t.log == s.log && t.done == s.done
    requires forall h: nat :: BusyAsBefore(s, t, h)
    ensures Once(t)
  {
    forall i: nat, j: nat ensures Unlike(t, i, j) {
      assert Unlike(s, i, j);
    }
    forall h: nat, i: nat ensures NotYet(t, h, i) {
      assert NotYet(s, h, i) && CommitOk(s, i) && BusyAsBefore(s, t, h);
    }
    forall r | r in t.done ensures InLog(t, r) {
      StillInLog(s, t, r);
    }
  }

  lemma {:induction false} SwapOnce(s: State, h: nat, t: State)
    requires Routing(s) && Once(s) && Matches(s, h)
    requires t.log == Applying(s, h).log && t.done <= s.done + {s.handles[h].round}
    requires h in t.handles && !Busy(t, h)
    requires forall g: nat :: g != h && g in t.handles ==> g in s.handles && t.handles[g] == s.handles[g]
    ensures Once(t)
  {
    var n := |s.log|;
    forall i: nat, j: nat ensures Unlike(t, i, j) {
      assert Unlike(s, i, j) && NotYet(s, h, i);
    }
    forall g: nat, i: nat ensures NotYet(t, g, i) {
      assert NotYet(s, g, i) && HandleOk(s, g) && HandleOk(s, h);
    }
    forall r | r in t.done ensures InLog(t, r) {
      if r in s.done {
        StillInLog(s, t, r);
      } else {
        assert t.log[n].round == r;
      }
    }
  }

  lemma {:induction false} QuietLog(s: State, a: Action)
    requires Enabled(s, a) && !a.Swap? && !(a.SwapFails? && a.applied)
    ensures Next(s, a).log == s.log && Next(s, a).done == s.done
  {
    if a.Receive? {
      assert Received(s, a.ack, a.known).log == s.log;
    } else if a.GiveUp? {
      assert GivenUp(s, a.key).log == s.log;
    } else if a.Process? {
      assert Processed(s, a.update, a.stored).log == s.log;
    }
  }

  lemma {:induction false} NextOnce(s: State, start: seq<Extent>, a: Action)
    requires Fine(s, start) && Once(s) && Enabled(s, a)
    ensures Once(Next(s, a)) && s.log <= Next(s, a).log && s.done <= Next(s, a).done
  {
    if a.Swap? {
      SwapOnce(s, a.handle, Next(s, a));
    } else if a.SwapFails? && a.applied {
      SwapOnce(s, a.handle, Next(s, a));
    } else {
      forall h: nat ensures BusyAsBefore(s, Next(s, a), h) {
        QuietRound(s, a, h);
      }
      QuietLog(s, a);
      QuietOnce(s, start, Next(s, a));
    }
  }

  lemma {:induction false} RunOnce(s: State, start: seq<Extent>, run: seq<Action>)
    requires Fine(s, start) && Once(s) && CanRun(s, run)
    ensures Once(Execute(s, run)) && s.log <= Execute(s, run).log && s.done <= Execute(s, run).done
    decreases |run|
  {
    if run != [] {
      NextOnce(s, start, run[0]);
      NextFine(s, start, run[0]);
      RunOnce(Next(s, run[0]), start, run[1..]);
    }
  }

  /**
   A round that was reported to have succeeded is among the commits, and no round is there twice. A round is one sending
   of a write: when its swap took effect but was reported failed, the write's retry is another round, and commits again.
   */
  lemma {:induction false} EachCommitOnce(s: State, start: seq<Extent>, run: seq<Action>)
    requires Start(s) && WellFormed(start) && s.register == Pack(start) && CanRun(s, run)
    ensures var t := Execute(s, run);
            && (forall r :: r in t.done ==> InLog(t, r))
            && (forall i: nat, j: nat :: i < |t.log| && j < |t.log| && t.log[i].round == t.log[j].round ==> i == j)
  {
    StartFine(s, start);
    forall i: nat, j: nat ensures Unlike(s, i, j) {
    }
    forall h: nat, i: nat ensures NotYet(s, h, i) {
    }
    RunOnce(s, start, run);
    var t := Execute(s, run);
    forall i: nat, j: nat | i < |t.log| && j < |t.log| && t.log[i].round == t.log[j].round ensures i == j {
      assert Unlike(t, i, j) && Unlike(t, j, i);
    }
  }

  // ---------------------------------------------------------------------------------------------
  // No lost update
  // ---------------------------------------------------------------------------------------------

  function LastOf(log: seq<Commit>): (m: Changes)
    requires log != []
  {
    log[|log| - 1].changes
  }

  /** The commits, replayed on a flat array of cells. */
  function Written(f: seq<Cell>, log: seq<Commit>): seq<Cell>
    decreases |log|
  {
    if log == [] then f
    else
      var g, m := Written(f, log[..|log| - 1]), LastOf(log);
      if m == [] then g else Overwritten(g, m[0].key, Cells(Slice(m[0].val.location, 0, m[0].val.length)))
  }

  /** None of the commits had to re-base a slice whose offset was not 0. */
  ghost predicate OffsetsStay(start: seq<Extent>, log: seq<Commit>)
    decreases |log|
  {
    log == [] ||
    (OffsetsStay(start, log[..|log| - 1]) &&
     (LastOf(log) != [] ==>
       OffsetsKept(Committed(start, log[..|log| - 1]), LastOf(log)[0].key, LastOf(log)[0].val.length)))
  }

  lemma {:induction false} CommittedIsWritten(start: seq<Extent>, log: seq<Commit>)
    requires WellFormed(start) && Proper(start, log)
    ensures WellFormed(Committed(start, log))
    ensures Locations(Flat(Committed(start, log))) == Locations(Written(Flat(start), log))
    ensures OffsetsStay(start, log) ==> Flat(Committed(start, log)) == Written(Flat(start), log)
    decreases |log|
  {
    if log != [] {
      var before, m := log[..|log| - 1], LastOf(log);
      CommittedIsWritten(start, before);
      var es := Committed(start, before);
      AppliedOne(es, m);
      StepRefines(es, Insert(m[0].key, m[0].val.length, m[0].val.location), Written(Flat(start), before));
    }
  }

  /**
   No lost update: in every run, the register holds the first map with each committed change inserted, in commit
   order. Byte by byte its replica lists are those the same writes leave on a flat array, and so are its offsets when
   no commit re-bases a slice.
   */
  lemma {:induction false} NoLostUpdate(s: State, start: seq<Extent>, run: seq<Action>)
    requires Start(s) && WellFormed(start) && s.register == Pack(start) && CanRun(s, run)
    ensures var t := Execute(s, run);
            var m := Committed(start, t.log);
            && t.register == Pack(m) && WellFormed(m)
            && Locations(Flat(m)) == Locations(Written(Flat(start), t.log))
            && (OffsetsStay(start, t.log) ==> Flat(m) == Written(Flat(start), t.log))
  {
    StartFine(s, start);
    RunFine(s, start, run);
    CommittedIsWritten(start, Execute(s, run).log);
  }

  // ---------------------------------------------------------------------------------------------
  // Every location is true
  // ---------------------------------------------------------------------------------------------

  function Over<T>(f: seq<T>, address: nat, data: seq<T>): seq<T> {
    if address <= |f| then Spliced(f, address, data) else f
  }

  /** For each address, the commit that wrote it last; -1 where the first map still shows. */
  function Owners(size: nat, log: seq<Commit>): seq<int>
    decreases |log|
  {
    if log == [] then seq(size, _ => -1)
    else
      var f, m := Owners(size, log[..|log| - 1]), LastOf(log);
      if m == [] then f else Over(f, m[0].key, seq(m[0].val.length, _ => |log| - 1))
  }

  /** The replica list of an address, by its owner. */
  ghost predicate ListedBy(f: seq<Cell>, first: seq<Cell>, log: seq<Commit>, owner: seq<int>, j: nat) {
    j < |f| && j < |owner| ==>
      if owner[j] < 0 then j < |first| && f[j].location == first[j].location
      else owner[j] < |log| && log[owner[j]].changes != [] && f[j].location == log[owner[j]].changes[0].val.location
  }

  lemma {:induction false} SplicedAt<T>(f: seq<T>, address: nat, data: seq<T>, j: nat)
    requires address <= |f| && j < |Spliced(f, address, data)|
    ensures |Spliced(f, address, data)| == if address + |data| <= |f| then |f| else address + |data|
    ensures address <= j < address + |data| ==> Spliced(f, address, data)[j] == data[j - address]
    ensures !(address <= j < address + |data|) ==> j < |f| && Spliced(f, address, data)[j] == f[j]
  {
  }

  lemma {:induction false} SplicedLength<T>(f: seq<T>, address: nat, data: seq<T>)
    requires address <= |f|
    ensures |Spliced(f, address, data)| == if address + |data| <= |f| then |f| else address + |data|
  {
  }

  lemma {:induction false} WrittenLength(start: seq<Extent>, log: seq<Commit>)
    requires WellFormed(start) && Proper(start, log)
    ensures |Written(Flat(start), log)| == Length(Committed(start, log))
  {
    CommittedIsWritten(start, log);
    FlatWhole(Committed(start, log));
    var f := Written(Flat(start), log);
    assert |f| == |Locations(f)| == |Flat(Committed(start, log))|;
  }

  lemma {:induction false} OwnersLength(start: seq<Extent>, log: seq<Commit>)
    requires WellFormed(start) && Proper(start, log)
    ensures |Owners(|Flat(start)|, log)| == |Written(Flat(start), log)|
    decreases |log|
  {
    if log != [] {
      var before, m := log[..|log| - 1], LastOf(log);
      OwnersLength(start, before);
      WrittenLength(start, before);
      var c, w := Cells(Slice(m[0].val.location, 0, m[0].val.length)), seq(m[0].val.length, _ => |log| - 1);
      SplicedLength(Written(Flat(start), before), m[0].key, c);
      SplicedLength(Owners(|Flat(start)|, before), m[0].key, w);
    }
  }

  lemma {:induction false} OwnersStep(f: seq<Cell>, o: seq<int>, first: seq<Cell>, before: seq<Commit>,
                                      log: seq<Commit>, j: nat)
    requires log != [] && before == log[..|log| - 1] && |LastOf(log)| == 1
    requires |f| == |o| && LastOf(log)[0].key <= |f| && ListedBy(f, first, before, o, j)
    ensures var m := LastOf(log)[0];
            ListedBy(Spliced(f, m.key, Cells(Slice(m.val.location, 0, m.val.length))), first, log,
                     Spliced(o, m.key, seq(m.val.length, _ => |log| - 1)), j)
  {
    var m := LastOf(log)[0];
    var c, w := Cells(Slice(m.val.location, 0, m.val.length)), seq(m.val.length, _ => |log| - 1);
    if j < |Spliced(f, m.key, c)| && j < |Spliced(o, m.key, w)| {
      SplicedAt(f, m.key, c, j);
      SplicedAt(o, m.key, w, j);
    }
  }

  lemma {:induction false} OwnersList(start: seq<Extent>, log: seq<Commit>, j: nat)
    requires WellFormed(start) && Proper(start, log)
    ensures ListedBy(Written(Flat(start), log), Flat(start), log, Owners(|Flat(start)|, log), j)
    decreases |log|
  {
    if log != [] {
      var before := log[..|log| - 1];
      OwnersList(start, before, j);
      OwnersLength(start, before);
      WrittenLength(start, before);
      OwnersStep(Written(Flat(start), before), Owners(|Flat(start)|, before), Flat(start), before, log, j);
    }
  }

  /**
   In every run, for every address the stored map has: its replica list is the one of the commit that wrote the
   address last, and each location in it either names a block on that server with exactly the bytes of that write, or
   has the id NO_BLOCK, which only a failed store leaves.
   */
  lemma {:induction false} LocationsAreTrue(s: State, start: seq<Extent>, run: seq<Action>, j: nat)
    requires Start(s) && WellFormed(start) && s.register == Pack(start) && CanRun(s, run)
    requires j < |Flat(Committed(start, Execute(s, run).log))|
    ensures var t := Execute(s, run);
            var cell, owner := Flat(Committed(start, t.log))[j], Owners(|Flat(start)|, t.log);
            && j < |owner| && ListedBy(Flat(Committed(start, t.log)), Flat(start), t.log, owner, j)
            && (owner[j] >= 0 ==>
                  t.log[owner[j]].round < |t.rounds| && cell.location != [] &&
                  forall l :: l in cell.location ==> Located(t, l, t.rounds[t.log[owner[j]].round].data))
  {
    StartFine(s, start);
    RunFine(s, start, run);
    var t := Execute(s, run);
    CommittedIsWritten(start, t.log);
    OwnersLength(start, t.log);
    OwnersList(start, t.log, j);
    var f, g := Flat(Committed(start, t.log)), Written(Flat(start), t.log);
    assert |f| == |Locations(f)| == |g| && f[j].location == Locations(f)[j] == g[j].location;
    var o := Owners(|Flat(start)|, t.log)[j];
    if o >= 0 {
      assert CommitOk(t, o);
    }
  }

  // ---------------------------------------------------------------------------------------------
  // What is read back is what was written
  // ---------------------------------------------------------------------------------------------

  /** The file's bytes, by the data of the commits. */
  function Bytes(first: seq<Byte>, rounds: seq<Round>, log: seq<Commit>): seq<Byte>
    decreases |log|
  {
    if log == [] then first
    else
      var c, m, r := Bytes(first, rounds, log[..|log| - 1]), LastOf(log), log[|log| - 1].round;
      if m == [] || r >= |rounds| then c else Over(c, m[0].key, rounds[r].data)
  }

  /** Reading any replica of any address gives the byte. */
  ghost predicate Gives(blocks: map<Location, seq<Byte>>, cell: Cell, b: Byte) {
    forall l :: l in cell.location ==>
      l in blocks && cell.offset < |blocks[l]| && blocks[l][cell.offset] == b
  }

  ghost predicate GivesAt(blocks: map<Location, seq<Byte>>, f: seq<Cell>, c: seq<Byte>, j: nat) {
    j < |f| && j < |c| ==> Gives(blocks, f[j], c[j])
  }

  ghost predicate Faithful(blocks: map<Location, seq<Byte>>, f: seq<Cell>, c: seq<Byte>) {
    |f| == |c| && forall j: nat :: GivesAt(blocks, f, c, j)
  }

  lemma {:induction false} OverwrittenFaithful(blocks: map<Location, seq<Byte>>, f: seq<Cell>, c: seq<Byte>,
                                               address: nat, location: seq<Location>, data: seq<Byte>)
    requires Faithful(blocks, f, c) && address <= |f|
    requires forall l :: l in location ==> l in blocks && blocks[l] == data
    ensures Faithful(blocks, Overwritten(f, address, Cells(Slice(location, 0, |data|))), Over(c, address, data))
  {
    var cells := Cells(Slice(location, 0, |data|));
    SplicedLength(f, address, cells);
    SplicedLength(c, address, data);
    var g, d := Spliced(f, address, cells), Spliced(c, address, data);
    forall j: nat ensures GivesAt(blocks, g, d, j) {
      if j < |g| {
        SplicedAt(f, address, cells, j);
        SplicedAt(c, address, data, j);
        assert GivesAt(blocks, f, c, j);
      }
    }
  }

  /** A commit's replicas all hold the round's bytes, and it is as long as they are. */
  ghost predicate HeldAt(blocks: map<Location, seq<Byte>>, rounds: seq<Round>, log: seq<Commit>, i: nat) {
    i < |log| ==>
      && log[i].round < |rounds| && |log[i].changes| == 1
      && log[i].changes[0].val.length == |rounds[log[i].round].data|
      && forall l :: l in log[i].changes[0].val.location ==> l in blocks && blocks[l] == rounds[log[i].round].data
  }

  ghost predicate AllHeld(blocks: map<Location, seq<Byte>>, rounds: seq<Round>, log: seq<Commit>) {
    forall i: nat :: HeldAt(blocks, rounds, log, i)
  }

  lemma {:induction false} CommitsHeld(s: State, start: seq<Extent>)
    requires Fine(s, start) && !s.refused
    ensures AllHeld(s.blocks, s.rounds, s.log)
  {
    forall i: nat ensures HeldAt(s.blocks, s.rounds, s.log, i) {
      assert CommitOk(s, i);
      if i < |s.log| {
        var data := s.rounds[s.log[i].round].data;
        forall l | l in s.log[i].changes[0].val.location ensures l in s.blocks && s.blocks[l] == data {
          assert Located(s, l, data);
        }
      }
    }
  }

  lemma {:induction false} HeldBefore(blocks: map<Location, seq<Byte>>, rounds: seq<Round>, log: seq<Commit>,
                                      before: seq<Commit>)
    requires AllHeld(blocks, rounds, log) && before <= log
    ensures AllHeld(blocks, rounds, before)
  {
    forall i: nat ensures HeldAt(blocks, rounds, before, i) {
      assert HeldAt(blocks, rounds, log, i);
    }
  }

  lemma {:induction false} LastWritten(f: seq<Cell>, log: seq<Commit>, m: Entry<Change>)
    requires log != [] && LastOf(log) == [m]
    ensures Written(f, log)
         == Overwritten(Written(f, log[..|log| - 1]), m.key, Cells(Slice(m.val.location, 0, m.val.length)))
  {
  }

  lemma {:induction false} LastBytes(first: seq<Byte>, rounds: seq<Round>, log: seq<Commit>, m: Entry<Change>)
    requires log != [] && LastOf(log) == [m] && log[|log| - 1].round < |rounds|
    ensures Bytes(first, rounds, log)
         == Over(Bytes(first, rounds, log[..|log| - 1]), m.key, rounds[log[|log| - 1].round].data)
  {
  }

  lemma {:induction false} OnlyOne<T>(m: seq<T>)
    requires |m| == 1
    ensures m == [m[0]]
  {
  }

  /** One more commit. */
  lemma {:induction false} FaithfulStep(blocks: map<Location, seq<Byte>>, rounds: seq<Round>, start: seq<Extent>,
                                        first: seq<Byte>, log: seq<Commit>, before: seq<Commit>, g: seq<Cell>,
                                        d: seq<Byte>)
    requires log != [] && before == log[..|log| - 1] && HeldAt(blocks, rounds, log, |log| - 1)
    requires g == Written(Flat(start), before) && d == Bytes(first, rounds, before) && Faithful(blocks, g, d)
    requires |LastOf(log)| == 1 && LastOf(log)[0].key <= |g|
    ensures Faithful(blocks, Written(Flat(start), log), Bytes(first, rounds, log))
  {
    var m, i := LastOf(log)[0], |log| - 1;
    OnlyOne(LastOf(log));
    LastWritten(Flat(start), log, m);
    LastBytes(first, rounds, log, m);
    OverwrittenFaithful(blocks, g, d, m.key, m.val.location, rounds[log[i].round].data);
  }

  lemma {:induction false} WrittenFaithful(blocks: map<Location, seq<Byte>>, rounds: seq<Round>, start: seq<Extent>,
                                           first: seq<Byte>, log: seq<Commit>, f: seq<Cell>, c: seq<Byte>)
    requires AllHeld(blocks, rounds, log) && Proper(start, log) && WellFormed(start)
    requires Faithful(blocks, Flat(start), first)
    requires f == Written(Flat(start), log) && c == Bytes(first, rounds, log)
    ensures Faithful(blocks, f, c)
    decreases |log|
  {
    if log != [] {
      var before := log[..|log| - 1];
      var g, d := Written(Flat(start), before), Bytes(first, rounds, before);
      HeldBefore(blocks, rounds, log, before);
      WrittenFaithful(blocks, rounds, start, first, before, g, d);
      WrittenLength(start, before);
      assert HeldAt(blocks, rounds, log, |log| - 1);
      FaithfulStep(blocks, rounds, start, first, log, before, g, d);
    }
  }

  lemma {:induction false} FaithfulLater(s: State, t: State, f: seq<Cell>, c: seq<Byte>)
    requires Grown(s, t) && Faithful(s.blocks, f, c)
    ensures Faithful(t.blocks, f, c)
  {
    forall j: nat ensures GivesAt(t.blocks, f, c, j) {
      assert GivesAt(s.blocks, f, c, j);
    }
  }

  lemma {:induction false} RunGrown(s: State, run: seq<Action>)
    requires Routing(s) && CanRun(s, run)
    ensures Grown(s, Execute(s, run))
    decreases |run|
  {
    if run != [] {
      NextGrown(s, run[0]);
      NextRouting(s, run[0]);
      RunGrown(Next(s, run[0]), run[1..]);
    }
  }

  /**
   End to end: if every store succeeded and no commit had to re-base a slice, then reading any address through the
   stored map, at any replica, gives the byte that was written there last; and the file has exactly those bytes.
   */
  lemma {:induction false} ReadsBackWhatWasWritten(s: State, start: seq<Extent>, first: seq<Byte>, run: seq<Action>)
    requires Start(s) && WellFormed(start) && s.register == Pack(start) && CanRun(s, run)
    requires Faithful(s.blocks, Flat(start), first)
    requires !Execute(s, run).refused && OffsetsStay(start, Execute(s, run).log)
    ensures var t := Execute(s, run);
            Faithful(t.blocks, Flat(Committed(start, t.log)), Bytes(first, t.rounds, t.log))
  {
    var t := Execute(s, run);
    StartFine(s, start);
    RunFine(s, start, run);
    RunGrown(s, run);
    FaithfulLater(s, t, Flat(start), first);
    CommitsHeld(t, start);
    var cells, bytes := Written(Flat(start), t.log), Bytes(first, t.rounds, t.log);
    WrittenFaithful(t.blocks, t.rounds, start, first, t.log, cells, bytes);
    CommittedIsWritten(start, t.log);
  }

  // ---------------------------------------------------------------------------------------------
  // Re-reading a map
  // ---------------------------------------------------------------------------------------------

  /**
   A handle that read the map from the register expects the bytes its copy packs to. Unpacking resets offsets, so the
   swap can match an unchanged register exactly when all its offsets are 0. Otherwise only a handle that has kept its
   own copy since its last commit can still write.
   */
  lemma {:induction false} RereadMatches(es: seq<Extent>, file: seq<Extent>)
    requires WellFormed(es)
    ensures Pack(Loaded(file, Pack(es))) == Pack(es) <==> forall i :: 0 <= i < |es| ==> es[i].val.offset == 0
  {
    LoadedPack(file, es);
    if forall i :: 0 <= i < |es| ==> es[i].val.offset == 0 {
      assert Rebase(es) == es;
    }
    if Pack(Rebase(es)) == Pack(es) {
      PackInjective(Rebase(es), es);
      forall i | 0 <= i < |es| ensures es[i].val.offset == 0 {
        assert Rebase(es)[i].val.offset == 0;
      }
    }
  }
}
