/**
 What a run of the write protocol was asked to do, read off its Write actions alone: every round carries the address
 and the data of the last write on its handle, retries included, and the file ends up with what was written.
 */
module OptimisticHistory {
  import opened Wrappers
  import opened OrderedMap
  import opened Extents
  import opened IntervalCodec
  import opened OptimisticWrites
  import opened OptimisticRouting
  import opened OptimisticCommits
  import opened OptimisticTheorems

  datatype Request = Request(handle: nat, address: nat, data: seq<Byte>, servers: seq<nat>)

  function Before(run: seq<Action>): seq<Action>
    requires run != []
  {
    run[..|run| - 1]
  }

  function Latest(run: seq<Action>): Action
    requires run != []
  {
    run[|run| - 1]
  }

  /** The last write on a handle. */
  function LastWrite(run: seq<Action>, h: nat): Option<Request>
    decreases |run|
  {
    if run == [] then None
    else if Latest(run).Write? && Latest(run).handle == h then
      Some(Request(h, Latest(run).address, Latest(run).data, Latest(run).servers))
    else LastWrite(Before(run), h)
  }

  /** What is sent, in order: each write, and again for each retry of it, to the servers named then. */
  function Asked(run: seq<Action>): seq<Request>
    decreases |run|
  {
    if run == [] then [] else Asked(Before(run)) + AskedBy(Before(run), Latest(run))
  }

  function AskedBy(before: seq<Action>, a: Action): seq<Request> {
    match a
    case Write(h, address, data, servers, _) => [Request(h, address, data, servers)]
    case Retry(h, servers, _) =>
      var q := LastWrite(before, h);
      if q.Some? then [q.value.(servers := servers)] else []
    case _ => []
  }

  ghost predicate RoundAsks(s: State, asked: seq<Request>, j: nat) {
    j < |s.rounds| ==>
      j < |asked|
      && asked[j] == Request(s.rounds[j].handle, s.rounds[j].address, s.rounds[j].data, s.rounds[j].servers)
  }

  ghost predicate HandleAsks(s: State, before: seq<Action>, h: nat) {
    h in s.handles && !s.handles[h].phase.Idle? ==>
      var q := LastWrite(before, h);
      q.Some? && q.value.handle == h && q.value.address == s.handles[h].address && q.value.data == s.handles[h].data
  }

  ghost predicate Recorded(s: State, run: seq<Action>) {
    && |s.rounds| == |Asked(run)|
    && (forall j: nat :: RoundAsks(s, Asked(run), j))
    && (forall h: nat :: HandleAsks(s, run, h))
  }

  lemma {:induction false} ExecuteLast(s: State, run: seq<Action>)
    requires CanRun(s, run) && run != []
    ensures CanRun(s, Before(run)) && Enabled(Execute(s, Before(run)), Latest(run))
    ensures Execute(s, run) == Next(Execute(s, Before(run)), Latest(run))
    decreases |run|
  {
    if |run| == 1 {
      assert Before(run) == [] && run[1..] == [];
    } else {
      ExecuteLast(Next(s, run[0]), run[1..]);
      assert Before(run)[1..] == Before(run[1..]) && Before(run)[0] == run[0];
    }
  }

  /** Only a write changes what a handle is to write, and nothing else starts one. */
  ghost predicate SameTask(s: State, t: State, h: nat) {
    h in t.handles && !t.handles[h].phase.Idle? ==>
      h in s.handles && !s.handles[h].phase.Idle?
      && t.handles[h].address == s.handles[h].address && t.handles[h].data == s.handles[h].data
  }

  lemma {:induction false} SettledTask(s: State, a: Action, h: nat)
    requires Routing(s) && Enabled(s, a) && (a.Receive? || a.GiveUp?)
    ensures SameTask(s, Next(s, a), h) && Next(s, a).rounds == s.rounds
  {
    if a.Receive? {
      assert PendOk(s, Key(a.ack.client, a.ack.nonce));
    } else {
      assert PendOk(s, a.key);
    }
  }

  lemma {:induction false} QuietTask(s: State, a: Action, h: nat)
    requires Enabled(s, a) && !a.Write? && !a.Retry? && !a.Receive? && !a.GiveUp?
    ensures SameTask(s, Next(s, a), h) && Next(s, a).rounds == s.rounds
  {
    if a.Process? {
      assert Processed(s, a.update, a.stored).handles == s.handles;
    }
  }

  lemma {:induction false} RetryTask(s: State, a: Action, h: nat)
    requires Enabled(s, a) && a.Retry?
    ensures SameTask(s, Next(s, a), h)
    ensures var hd, r := s.handles[a.handle], Next(s, a).rounds;
            && |r| == |s.rounds| + 1 && r[..|s.rounds|] == s.rounds
            && r[|s.rounds|].handle == a.handle && r[|s.rounds|].servers == a.servers
            && r[|s.rounds|].address == hd.address && r[|s.rounds|].data == hd.data
  {
  }

  lemma {:induction false} WriteTask(s: State, a: Action, h: nat)
    requires Enabled(s, a) && a.Write?
    ensures h != a.handle ==> SameTask(s, Next(s, a), h)
    ensures var t := Next(s, a);
            && a.handle in t.handles && t.handles[a.handle].address == a.address && t.handles[a.handle].data == a.data
            && |t.rounds| == |s.rounds| + 1 && t.rounds[..|s.rounds|] == s.rounds
            && t.rounds[|s.rounds|].handle == a.handle && t.rounds[|s.rounds|].servers == a.servers
            && t.rounds[|s.rounds|].address == a.address && t.rounds[|s.rounds|].data == a.data
  {
  }

  /** A step that sends nothing. */
  lemma {:induction false} QuietRecorded(s: State, t: State, run: seq<Action>)
    requires run != [] && Recorded(s, Before(run)) && t.rounds == s.rounds && !Latest(run).Write? && !Latest(run).Retry?
    requires forall h: nat :: SameTask(s, t, h)
    ensures Recorded(t, run)
  {
    assert Asked(run) == Asked(Before(run));
    forall j: nat ensures RoundAsks(t, Asked(run), j) {
      assert RoundAsks(s, Asked(Before(run)), j);
    }
    forall h: nat ensures HandleAsks(t, run, h) {
      assert SameTask(s, t, h) && HandleAsks(s, Before(run), h);
    }
  }

  /** A step that sends one more round. */
  lemma {:induction false} SentRecorded(s: State, t: State, before: seq<Action>, asked: seq<Request>, q: Request)
    requires Recorded(s, before) && asked == Asked(before) + [q]
    requires |t.rounds| == |s.rounds| + 1 && t.rounds[..|s.rounds|] == s.rounds
    requires var r := t.rounds[|s.rounds|]; q == Request(r.handle, r.address, r.data, r.servers)
    ensures |t.rounds| == |asked| && forall j: nat :: RoundAsks(t, asked, j)
  {
    forall j: nat ensures RoundAsks(t, asked, j) {
      assert RoundAsks(s, Asked(before), j);
      if j < |s.rounds| {
        assert t.rounds[..|s.rounds|][j] == s.rounds[j];
      }
    }
  }

  lemma {:induction false} WriteRecorded(s: State, run: seq<Action>)
    requires run != [] && Recorded(s, Before(run)) && Latest(run).Write? && Enabled(s, Latest(run))
    ensures Recorded(Next(s, Latest(run)), run)
  {
    var a, t := Latest(run), Next(s, Latest(run));
    WriteTask(s, a, a.handle);
    SentRecorded(s, t, Before(run), Asked(run), Request(a.handle, a.address, a.data, a.servers));
    forall h: nat ensures HandleAsks(t, run, h) {
      WriteTask(s, a, h);
      assert HandleAsks(s, Before(run), h);
    }
  }

  lemma {:induction false} RetryRecorded(s: State, run: seq<Action>)
    requires run != [] && Recorded(s, Before(run)) && Latest(run).Retry? && Enabled(s, Latest(run))
    ensures Recorded(Next(s, Latest(run)), run)
  {
    var a, t := Latest(run), Next(s, Latest(run));
    assert HandleAsks(s, Before(run), a.handle);
    RetryTask(s, a, a.handle);
    SentRecorded(s, t, Before(run), Asked(run), LastWrite(Before(run), a.handle).value.(servers := a.servers));
    forall h: nat ensures HandleAsks(t, run, h) {
      RetryTask(s, a, h);
      assert HandleAsks(s, Before(run), h);
    }
  }

  lemma {:induction false} NextRecorded(s: State, run: seq<Action>)
    requires run != [] && Routing(s) && Recorded(s, Before(run)) && Enabled(s, Latest(run))
    ensures Recorded(Next(s, Latest(run)), run)
  {
    var a := Latest(run);
    if a.Write? {
      WriteRecorded(s, run);
    } else if a.Retry? {
      RetryRecorded(s, run);
    } else {
      var t := Next(s, a);
      forall h: nat ensures SameTask(s, t, h) && t.rounds == s.rounds {
        if a.Receive? || a.GiveUp? {
          SettledTask(s, a, h);
        } else {
          QuietTask(s, a, h);
        }
      }
      assert SameTask(s, t, 0);
      QuietRecorded(s, t, run);
    }
  }

  lemma {:induction false} RunRecorded(s: State, run: seq<Action>)
    requires Start(s) && CanRun(s, run)
    ensures Routing(Execute(s, run)) && Recorded(Execute(s, run), run)
    decreases |run|
  {
    if run == [] {
      StartRouting(s);
    } else {
      ExecuteLast(s, run);
      RunRecorded(s, Before(run));
      NextRouting(Execute(s, Before(run)), Latest(run));
      NextRecorded(Execute(s, Before(run)), run);
    }
  }

  /**
   In every run, every round was sent for a write, to the servers named when it was sent, with the address and the data
   of the last write on its handle before it; and every write and every retry sent one.
   */
  lemma {:induction false} RoundsCarryTheWrites(s: State, run: seq<Action>)
    requires Start(s) && CanRun(s, run)
    ensures var r, asked := Execute(s, run).rounds, Asked(run);
            |r| == |asked|
            && forall j: nat :: j < |r| ==> asked[j] == Request(r[j].handle, r[j].address, r[j].data, r[j].servers)
  {
    RunRecorded(s, run);
    var t := Execute(s, run);
    forall j: nat | j < |t.rounds|
      ensures Asked(run)[j] == Request(t.rounds[j].handle, t.rounds[j].address, t.rounds[j].data, t.rounds[j].servers)
    {
      assert RoundAsks(t, Asked(run), j);
    }
  }

  /** A swap that takes effect commits the last write on its handle. */
  lemma {:induction false} SwapCommitsTheWrite(s: State, start: seq<Extent>, run: seq<Action>, h: nat)
    requires Start(s) && WellFormed(start) && s.register == Pack(start) && CanRun(s, run) && run != []
    requires Latest(run) == Swap(h) || Latest(run) == SwapFails(h, true)
    ensures var t, q := Execute(s, run), LastWrite(Before(run), h);
            && t.log != [] && q.Some?
            && var c := t.log[|t.log| - 1];
               && c.round < |Asked(run)| && Asked(run)[c.round].handle == h
               && Asked(run)[c.round].address == q.value.address && Asked(run)[c.round].data == q.value.data
               && |c.changes| == 1 && c.changes[0].key == q.value.address
  {
    ExecuteLast(s, run);
    RunRecorded(s, Before(run));
    RunRecorded(s, run);
    StartFine(s, start);
    RunFine(s, start, Before(run));
    var u := Execute(s, Before(run));
    CommitsItsRound(u, start, Before(run), h);
    var t := Execute(s, run);
    assert t.rounds == u.rounds && t.log == u.log + [Commit(u.handles[h].round, u.handles[h].phase.changes)];
    assert Asked(run) == Asked(Before(run));
  }

  lemma {:induction false} CommitsItsRound(u: State, start: seq<Extent>, before: seq<Action>, h: nat)
    requires Fine(u, start) && Recorded(u, before) && Matches(u, h)
    ensures var hd, q := u.handles[h], LastWrite(before, h);
            && q.Some? && hd.round < |Asked(before)| && Asked(before)[hd.round].handle == h
            && Asked(before)[hd.round].address == q.value.address && Asked(before)[hd.round].data == q.value.data
            && |hd.phase.changes| == 1 && hd.phase.changes[0].key == q.value.address
  {
    var hd := u.handles[h];
    assert HandleAsks(u, before, h) && HandleOk(u, h) && HandleFine(u, h, Length(Committed(start, u.log)));
    assert RoundAsks(u, Asked(before), hd.round);
  }

  // ---------------------------------------------------------------------------------------------
  // The file
  // ---------------------------------------------------------------------------------------------

  /** The file after its commits, each of which writes what its round was asked to write. */
  function FileAfter(first: seq<Byte>, asked: seq<Request>, log: seq<Commit>): seq<Byte>
    decreases |log|
  {
    if log == [] then first
    else
      var f, r := FileAfter(first, asked, log[..|log| - 1]), log[|log| - 1].round;
      if r < |asked| then Over(f, asked[r].address, asked[r].data) else f
  }

  /** Each commit is one change, at the address that its round was asked to write at. */
  ghost predicate CommitAsks(rounds: seq<Round>, log: seq<Commit>, i: nat) {
    i < |log| ==>
      log[i].round < |rounds| && |log[i].changes| == 1 && log[i].changes[0].key == rounds[log[i].round].address
  }

  lemma {:induction false} FileIs(first: seq<Byte>, t: State, asked: seq<Request>, log: seq<Commit>)
    requires |t.rounds| == |asked| && (forall j: nat :: RoundAsks(t, asked, j))
    requires forall i: nat :: CommitAsks(t.rounds, log, i)
    ensures FileAfter(first, asked, log) == Bytes(first, t.rounds, log)
    decreases |log|
  {
    if log != [] {
      var before, c := log[..|log| - 1], log[|log| - 1];
      forall i: nat ensures CommitAsks(t.rounds, before, i) {
        assert CommitAsks(t.rounds, log, i);
      }
      FileIs(first, t, asked, before);
      assert CommitAsks(t.rounds, log, |log| - 1) && RoundAsks(t, asked, c.round);
      OnlyOne(LastOf(log));
      LastBytes(first, t.rounds, log, LastOf(log)[0]);
    }
  }

  /**
   End to end, told by the Write actions of the run alone: if every store succeeded and no commit had to re-base a slice
   then reading any address through the stored map, at any replica, gives the byte that was written there last.
   */
  lemma {:induction false} FileHoldsTheWrites(s: State, start: seq<Extent>, first: seq<Byte>, run: seq<Action>)
    requires Start(s) && WellFormed(start) && s.register == Pack(start) && CanRun(s, run)
    requires Faithful(s.blocks, Flat(start), first)
    requires !Execute(s, run).refused && OffsetsStay(start, Execute(s, run).log)
    ensures var t := Execute(s, run);
            && t.register == Pack(Committed(start, t.log))
            && Faithful(t.blocks, Flat(Committed(start, t.log)), FileAfter(first, Asked(run), t.log))
  {
    var t := Execute(s, run);
    ReadsBackWhatWasWritten(s, start, first, run);
    StartFine(s, start);
    RunFine(s, start, run);
    RunRecorded(s, run);
    forall i: nat ensures CommitAsks(t.rounds, t.log, i) {
      assert CommitOk(t, i);
    }
    FileIs(first, t, Asked(run), t.log);
  }
}
