/**
 What the register holds: the first map, with each committed change inserted once, in the order of the commits. And
 what the map says is true: each location in it names a block with exactly the bytes of that write.
 */
module OptimisticCommits {
  import opened OrderedMap
  import opened Extents
  import opened IntervalCodec
  import opened OptimisticWrites
  import opened OptimisticRouting

  /** The map after a list of commits. */
  ghost function Committed(start: seq<Extent>, log: seq<Commit>): seq<Extent>
    decreases |log|
  {
    if log == [] then start else Applied(Committed(start, log[..|log| - 1]), log[|log| - 1].changes)
  }

  /** One write's changes: one extent, at the write's address, with at least one replica, all of them located. */
  ghost predicate Sound(s: State, r: Round, m: Changes) {
    && |m| == 1 && m[0].key == r.address && m[0].val.location != []
    && (m[0].val.length == |r.data| || (m[0].val.length == NO_BLOCK && s.refused))
    && forall l :: l in m[0].val.location ==> Located(s, l, r.data)
  }

  ghost predicate ChangesOk(s: State, r: nat, m: Changes) {
    r < |s.rounds| && (m == [] || Sound(s, s.rounds[r], m))
  }

  /** `length` is the length of the committed map, which only grows. */
  ghost predicate HandleFine(s: State, h: nat, length: nat) {
    h in s.handles ==>
      var hd := s.handles[h];
      && WellFormed(hd.file)
      && (hd.phase.Idle? ==> Length(hd.file) <= length)
      && (!hd.phase.Idle? ==> hd.address <= length && hd.address <= Length(hd.file))
      && (hd.phase.Sending? ==> hd.phase.expected == Pack(hd.file) && ChangesOk(s, hd.round, hd.phase.changes))
      && (hd.phase.Committing? ==> CommittingFine(s, hd))
      && (hd.phase.Fetched? ==>
            WellFormed(Loaded(hd.file, hd.phase.value)) && hd.address <= Length(Loaded(hd.file, hd.phase.value)))
  }

  ghost predicate CommittingFine(s: State, hd: Handle)
    requires hd.phase.Committing?
  {
    && WellFormed(hd.phase.basis) && hd.address <= Length(hd.phase.basis)
    && hd.phase.expected == Pack(hd.phase.basis) && hd.file == Applied(hd.phase.basis, hd.phase.changes)
    && hd.round < |s.rounds| && hd.address == s.rounds[hd.round].address
    && Sound(s, s.rounds[hd.round], hd.phase.changes)
  }

  ghost predicate CommitOk(s: State, i: nat) {
    i < |s.log| ==> s.log[i].round < |s.rounds| && Sound(s, s.rounds[s.log[i].round], s.log[i].changes)
  }

  /** Every commit was one extent, and left no gap in the map it was made to. */
  ghost predicate Proper(start: seq<Extent>, log: seq<Commit>)
    decreases |log|
  {
    log == [] ||
    var before, m := log[..|log| - 1], log[|log| - 1].changes;
    Proper(start, before) && WellFormed(Committed(start, before)) &&
    |m| == 1 && m[0].key <= Length(Committed(start, before))
  }

  ghost predicate Holds(s: State, start: seq<Extent>) {
    Proper(start, s.log) && WellFormed(Committed(start, s.log)) && s.register == Pack(Committed(start, s.log))
  }

  ghost predicate Fine(s: State, start: seq<Extent>) {
    && Routing(s) && Holds(s, start)
    && (forall h: nat :: HandleFine(s, h, Length(Committed(start, s.log))))
    && (forall i: nat :: CommitOk(s, i))
  }

  // ---------------------------------------------------------------------------------------------
  // Blocks, rounds and failures only accumulate
  // ---------------------------------------------------------------------------------------------

  ghost predicate Grown(s: State, t: State) {
    && s.rounds <= t.rounds
    && (forall l :: l in s.blocks ==> l in t.blocks && t.blocks[l] == s.blocks[l])
    && (s.refused ==> t.refused)
  }

  lemma {:induction false} ProcessGrown(s: State, m: Update, stored: bool)
    requires Routing(s) && Enabled(s, Process(m, stored))
    ensures Grown(s, Processed(s, m, stored))
  {
    assert BlockOk(s, Location(m.server, Counter(s.ids, m.server)));
  }

  lemma {:induction false} NextGrown(s: State, a: Action)
    requires Routing(s) && Enabled(s, a)
    ensures Grown(s, Next(s, a))
  {
    if a.Process? {
      ProcessGrown(s, a.update, a.stored);
    }
  }

  lemma {:induction false} SoundLater(s: State, t: State, r: Round, m: Changes)
    requires Grown(s, t) && Sound(s, r, m)
    ensures Sound(t, r, m)
  {
    forall l | l in m[0].val.location ensures Located(t, l, r.data) {
      assert Located(s, l, r.data);
    }
  }

  /** A handle that a step does not touch stays fine. */
  lemma {:induction false} FineLater(s: State, t: State, h: nat, length: nat, more: nat)
    requires Grown(s, t) && HandleFine(s, h, length) && length <= more
    requires h in s.handles && h in t.handles && t.handles[h] == s.handles[h]
    ensures HandleFine(t, h, more)
  {
    var hd := s.handles[h];
    if hd.phase.Sending? && hd.phase.changes != [] {
      SoundLater(s, t, s.rounds[hd.round], hd.phase.changes);
    } else if hd.phase.Committing? {
      SoundLater(s, t, s.rounds[hd.round], hd.phase.changes);
    }
  }

  // ---------------------------------------------------------------------------------------------
  // Changes
  // ---------------------------------------------------------------------------------------------

  lemma {:induction false} WithReplicaIs(m: Changes, address: nat, length: nat, l: Location)
    requires m == [] || (|m| == 1 && m[0].key == address)
    ensures WithReplica(m, address, length, l)
         == [Entry(address, if m == [] then Change(length, [l])
                            else Change(m[0].val.length, m[0].val.location + [l]))]
  {
    if m != [] {
      assert LowerBound(m, address) == 0;
    }
  }

  /** An answer adds one more location of the round's bytes. */
  lemma {:induction false} AnswerSound(s: State, r: nat, m: Changes, a: Ack, more: Changes)
    requires Routing(s) && a in s.acks && a.round == r && ChangesOk(s, r, m)
    requires more == WithReplica(m, a.address, a.length, Location(a.server, a.block))
    ensures ChangesOk(s, r, more) && more != []
  {
    assert AckOk(s, a);
    WithReplicaIs(m, a.address, a.length, Location(a.server, a.block));
  }

  lemma {:induction false} AppliedOne(es: seq<Extent>, m: Changes)
    requires WellFormed(es) && |m| == 1 && m[0].key <= Length(es)
    ensures Applied(es, m) == Inserted(es, m[0].key, m[0].val.length, m[0].val.location)
    ensures WellFormed(Applied(es, m)) && Length(es) <= Length(Applied(es, m))
  {
    var ins := Inserted(es, m[0].key, m[0].val.length, m[0].val.location);
    assert m[1..] == [];
    InsertRefines(es, m[0].key, m[0].val.length, m[0].val.location);
    FlatWhole(es);
    FlatWhole(ins);
    assert |Flat(ins)| == |Locations(Flat(ins))|;
  }

  /** A packed map read back keeps its length. */
  lemma {:induction false} LoadedPack(file: seq<Extent>, es: seq<Extent>)
    requires WellFormed(es)
    ensures Loaded(file, Pack(es)) == Rebase(es) && WellFormed(Rebase(es)) && Length(Rebase(es)) == Length(es)
  {
    UnpackPack(es, []);
    assert Pack(es) + [] == Pack(es);
    RebasePrefix(es, |es|);
    assert Rebase(es)[..|es|] == Rebase(es);
  }

  /**
   Why a write after a dropped one has to look at the register: once it has been retried on the map read from there, its
   insert leaves no gap exactly when that map is empty or reaches the address.
   */
  lemma {:induction false} RetriedInsert(s: State, start: seq<Extent>, file: seq<Extent>, address: nat, c: Change)
    requires Holds(s, start)
    ensures WellFormed(Loaded(file, s.register))
    ensures var es := Committed(start, s.log);
            WellFormed(Inserted(Loaded(file, s.register), address, c.length, c.location))
            <==> es == [] || address <= Length(es)
  {
    var es := Committed(start, s.log);
    LoadedPack(file, es);
    InsertRefines(Rebase(es), address, c.length, c.location);
  }

  // ---------------------------------------------------------------------------------------------
  // Steps
  // ---------------------------------------------------------------------------------------------

  /** Every step that leaves log and register alone, given that the handle it changes is fine. */
  lemma {:induction false} QuietFine(s: State, start: seq<Extent>, t: State, h: nat)
    requires Fine(s, start) && Routing(t) && Grown(s, t) && t.log == s.log && t.register == s.register
    requires forall g: nat :: g != h && g in t.handles ==> g in s.handles && t.handles[g] == s.handles[g]
    requires HandleFine(t, h, Length(Committed(start, s.log)))
    ensures Fine(t, start)
  {
    var n := Length(Committed(start, s.log));
    forall g: nat ensures HandleFine(t, g, n) {
      if g != h && g in t.handles {
        assert HandleFine(s, g, n);
        FineLater(s, t, g, n, n);
      }
    }
    forall i: nat ensures CommitOk(t, i) {
      assert CommitOk(s, i);
      if i < |s.log| {
        SoundLater(s, t, s.rounds[s.log[i].round], s.log[i].changes);
      }
    }
  }

  lemma {:induction false} SentFine(s: State, start: seq<Extent>, h: nat, hd: Handle, servers: seq<nat>,
                                    sent: seq<bool>)
    requires Fine(s, start) && h in s.handles && !s.handles[h].phase.Sending?
    requires |sent| == |servers| && Distinct(servers)
    requires WellFormed(hd.file) && hd.address <= Length(hd.file) && hd.address <= Length(Committed(start, s.log))
    ensures Fine(Sent(s, h, hd, servers, sent), start)
  {
    SentRouting(s, h, hd, servers, sent);
    QuietFine(s, start, Sent(s, h, hd, servers, sent), h);
  }

  lemma {:induction false} AnsweredFine(s: State, start: seq<Extent>, a: Ack, known: bool, p: Pend, hd: Handle)
    requires Fine(s, start) && a in s.acks && Key(a.client, a.nonce) in s.pending
    requires p == s.pending[Key(a.client, a.nonce)] && p.handle in s.handles && hd == s.handles[p.handle]
    requires known && a.server == p.server
    ensures HandleFine(Received(s, a, known), p.handle, Length(Committed(start, s.log)))
  {
    var t, n := Received(s, a, known), Length(Committed(start, s.log));
    HitsItsRound(s, a);
    assert PendOk(s, Key(a.client, a.nonce)) && HandleFine(s, p.handle, n) && HandleOk(s, p.handle);
    var changes := WithReplica(hd.phase.changes, a.address, a.length, Location(a.server, a.block));
    AnswerSound(s, hd.round, hd.phase.changes, a, changes);
    SoundLater(s, t, s.rounds[hd.round], changes);
    if Without(hd.phase.outstanding, a.server) == [] {
      AppliedOne(hd.file, changes);
    }
  }

  /** An answer changes nothing but the handle it is for and the requests that are pending. */
  lemma {:induction false} ReceivedQuiet(s: State, a: Ack, known: bool, p: Pend, t: State)
    requires Key(a.client, a.nonce) in s.pending && p == s.pending[Key(a.client, a.nonce)] && t == Received(s, a, known)
    ensures t.log == s.log && t.register == s.register && Grown(s, t)
    ensures forall g: nat :: g != p.handle && g in t.handles ==> g in s.handles && t.handles[g] == s.handles[g]
    ensures !(a.server == p.server && known) ==> t.handles == s.handles
  {
  }

  lemma {:induction false} ReceivedHandle(s: State, start: seq<Extent>, a: Ack, known: bool, p: Pend, t: State, n: nat)
    requires Fine(s, start) && a in s.acks && Key(a.client, a.nonce) in s.pending
    requires p == s.pending[Key(a.client, a.nonce)] && t == Received(s, a, known)
    requires n == Length(Committed(start, s.log))
    ensures HandleFine(t, p.handle, n)
  {
    assert PendOk(s, Key(a.client, a.nonce)) && HandleFine(s, p.handle, n);
    if a.server == p.server && known {
      AnsweredFine(s, start, a, known, p, s.handles[p.handle]);
    } else {
      ReceivedQuiet(s, a, known, p, t);
      FineLater(s, t, p.handle, n, n);
    }
  }

  lemma {:induction false} ReceivedFine(s: State, start: seq<Extent>, a: Ack, known: bool)
    requires Fine(s, start) && a in s.acks
    ensures Fine(Received(s, a, known), start)
  {
    var k, t := Key(a.client, a.nonce), Received(s, a, known);
    if k in s.pending {
      var p := s.pending[k];
      ReceivedRouting(s, a, known);
      ReceivedHandle(s, start, a, known, p, t, Length(Committed(start, s.log)));
      ReceivedQuiet(s, a, known, p, t);
      QuietFine(s, start, t, p.handle);
    }
  }

  lemma {:induction false} GivenUpFine(s: State, start: seq<Extent>, k: Key)
    requires Fine(s, start) && k in s.pending
    ensures Fine(GivenUp(s, k), start)
  {
    var p, n := s.pending[k], Length(Committed(start, s.log));
    GivenUpRouting(s, k);
    assert PendOk(s, k) && HandleFine(s, p.handle, n);
    var hd, t := s.handles[p.handle], GivenUp(s, k);
    if hd.phase.changes != [] {
      SoundLater(s, t, s.rounds[hd.round], hd.phase.changes);
    }
    QuietFine(s, start, t, p.handle);
  }

  /** Two well-formed maps pack alike only when they are equal, so a swap that matches extends the committed map. */
  lemma {:induction false} SwapExtends(s: State, start: seq<Extent>, h: nat)
    requires Fine(s, start) && Matches(s, h)
    ensures var t := Applying(s, h); var m := s.handles[h].phase.changes;
            && t.log == s.log + [Commit(s.handles[h].round, m)]
            && Committed(start, t.log) == Applied(Committed(start, s.log), m) == s.handles[h].file
            && Holds(t, start) && Length(Committed(start, s.log)) <= Length(Committed(start, t.log))
            && s.handles[h].address <= Length(s.handles[h].file)
  {
    var hd, map_, t := s.handles[h], Committed(start, s.log), Applying(s, h);
    assert HandleFine(s, h, Length(map_));
    PackInjective(hd.phase.basis, map_);
    assert t.log[..|t.log| - 1] == s.log;
    AppliedOne(map_, hd.phase.changes);
  }

  lemma {:induction false} AppliedFine(s: State, start: seq<Extent>, h: nat, phase: Phase, t: State)
    requires Fine(s, start) && Matches(s, h) && (phase == Idle || phase == Failed) && Routing(t)
    requires t == Applying(s, h).(handles := s.handles[h := s.handles[h].(phase := phase)], done := t.done)
    ensures Fine(t, start)
  {
    SwapExtends(s, start, h);
    var u := Applying(s, h);
    var n, more := Length(Committed(start, s.log)), Length(Committed(start, t.log));
    assert HandleFine(s, h, n);
    forall g: nat ensures HandleFine(t, g, more) {
      if g != h && g in t.handles {
        assert HandleFine(s, g, n);
        FineLater(s, t, g, n, more);
      }
    }
    forall i: nat ensures CommitOk(t, i) {
      assert CommitOk(s, i);
      if i < |s.log| {
        SoundLater(s, t, s.rounds[s.log[i].round], s.log[i].changes);
      } else if i == |s.log| {
        SoundLater(s, t, s.rounds[s.handles[h].round], s.handles[h].phase.changes);
      }
    }
  }

  lemma {:induction false} OpenedFine(s: State, start: seq<Extent>, a: Action, n: nat)
    requires Fine(s, start) && Enabled(s, a) && a.Open? && n == Length(Committed(start, s.log))
    ensures HandleFine(Next(s, a), a.handle, n)
  {
    LoadedPack([], Committed(start, s.log));
  }

  lemma {:induction false} FetchedFine(s: State, start: seq<Extent>, a: Action, n: nat)
    requires Fine(s, start) && Enabled(s, a) && a.Fetch? && n == Length(Committed(start, s.log))
    ensures HandleFine(Next(s, a), a.handle, n)
  {
    var file := s.handles[a.handle].file;
    assert HandleFine(s, a.handle, n);
    LoadedPack(file, Committed(start, s.log));
    assert Loaded(file, []) == file;
  }

  /** Opening, fetching, dropping a write and failing to swap change one handle. */
  lemma {:induction false} HandleStepQuiet(s: State, a: Action, t: State)
    requires Enabled(s, a) && (a.Open? || a.Fetch? || a.Drop? || (a.SwapFails? && !a.applied)) && t == Next(s, a)
    ensures t.log == s.log && t.register == s.register && Grown(s, t)
    ensures forall g: nat :: g != a.handle && g in t.handles ==> g in s.handles && t.handles[g] == s.handles[g]
  {
  }

  lemma {:induction false} HandleStepFine(s: State, start: seq<Extent>, a: Action)
    requires Fine(s, start) && Enabled(s, a)
    requires a.Open? || a.Fetch? || a.Drop? || (a.SwapFails? && !a.applied)
    ensures Fine(Next(s, a), start)
  {
    var n, t := Length(Committed(start, s.log)), Next(s, a);
    if a.Open? {
      OpenedFine(s, start, a, n);
    } else if a.Fetch? {
      FetchedFine(s, start, a, n);
    } else {
      assert HandleFine(s, a.handle, n);
    }
    NextRouting(s, a);
    HandleStepQuiet(s, a, t);
    QuietFine(s, start, t, a.handle);
  }

  lemma {:induction false} ProcessedFine(s: State, start: seq<Extent>, m: Update, stored: bool)
    requires Fine(s, start) && Enabled(s, Process(m, stored))
    ensures Fine(Processed(s, m, stored), start)
  {
    var t, n := Processed(s, m, stored), Length(Committed(start, s.log));
    ProcessedRouting(s, m, stored);
    ProcessGrown(s, m, stored);
    assert HandleFine(s, 0, n);
    if 0 in s.handles {
      FineLater(s, t, 0, n, n);
    }
    QuietFine(s, start, t, 0);
  }

  lemma {:induction false} SpendFine(s: State, start: seq<Extent>, c: nat, k: nat)
    requires Fine(s, start)
    ensures Fine(Next(s, Spend(c, k)), start)
  {
    var t, n := Next(s, Spend(c, k)), Length(Committed(start, s.log));
    SpendRouting(s, c, k);
    assert HandleFine(s, 0, n);
    if 0 in s.handles {
      FineLater(s, t, 0, n, n);
    }
    QuietFine(s, start, t, 0);
  }

  lemma {:induction false} NextFine(s: State, start: seq<Extent>, a: Action)
    requires Fine(s, start) && Enabled(s, a)
    ensures Fine(Next(s, a), start)
  {
    if a.Process? {
      ProcessedFine(s, start, a.update, a.stored);
    } else if a.Receive? {
      ReceivedFine(s, start, a.ack, a.known);
    } else if a.GiveUp? {
      GivenUpFine(s, start, a.key);
    } else if a.Spend? {
      SpendFine(s, start, a.client, a.nonces);
    } else {
      HandleFineNext(s, start, a);
    }
  }

  lemma {:induction false} HandleFineNext(s: State, start: seq<Extent>, a: Action)
    requires Fine(s, start) && Enabled(s, a)
    requires !a.Process? && !a.Receive? && !a.GiveUp? && !a.Spend?
    ensures Fine(Next(s, a), start)
  {
    var h := a.handle;
    assert HandleFine(s, h, Length(Committed(start, s.log)));
    if a.Write? {
      LoadedPack([], Committed(start, s.log));
      SentFine(s, start, h, s.handles[h].(address := a.address, data := a.data), a.servers, a.sent);
    } else if a.Retry? {
      var hd := s.handles[h];
      SentFine(s, start, h, hd.(file := Loaded(hd.file, hd.phase.value)), a.servers, a.sent);
    } else if a.Swap? {
      NextRouting(s, a);
      AppliedFine(s, start, h, Idle, Next(s, a));
    } else if a.SwapFails? && a.applied {
      NextRouting(s, a);
      AppliedFine(s, start, h, Failed, Next(s, a));
    } else {
      HandleStepFine(s, start, a);
    }
  }

  lemma {:induction false} StartFine(s: State, start: seq<Extent>)
    requires Start(s) && WellFormed(start) && s.register == Pack(start)
    ensures Fine(s, start)
  {
    StartRouting(s);
    forall h: nat ensures HandleFine(s, h, Length(start)) {
    }
    forall i: nat ensures CommitOk(s, i) {
    }
  }

  lemma {:induction false} RunFine(s: State, start: seq<Extent>, run: seq<Action>)
    requires Fine(s, start) && CanRun(s, run)
    ensures Fine(Execute(s, run), start)
    decreases |run|
  {
    if run != [] {
      NextFine(s, start, run[0]);
      RunFine(Next(s, run[0]), start, run[1..]);
    }
  }
}
