/** Which replicas a commit lists: different servers of its round, and all of them unless a request to one failed. */
module OptimisticReplicas {
  import opened OrderedMap
  import opened Extents
  import IntervalCodec
  import opened OptimisticWrites
  import opened OptimisticRouting
  import opened OptimisticCommits

  ghost predicate HasServer(l: seq<Location>, x: nat) {
    exists k :: 0 <= k < |l| && l[k].server == x
  }

  ghost predicate DistinctServers(l: seq<Location>) {
    forall i, j :: 0 <= i < j < |l| ==> l[i].server != l[j].server
  }

  function LocationsOf(m: Changes): seq<Location> {
    if m == [] then [] else m[0].val.location
  }

  /** The round's servers, split into those still awaited and those that have answered. */
  ghost predicate Split(servers: seq<nat>, out: seq<nat>, l: seq<Location>, complete: bool) {
    && Distinct(out) && DistinctServers(l)
    && (forall x :: x in out ==> x in servers)
    && (forall k :: 0 <= k < |l| ==> l[k].server in servers && l[k].server !in out)
    && (complete ==> forall x :: x in servers ==> x in out || HasServer(l, x))
  }

  ghost predicate SplitRound(s: State, r: nat, out: seq<nat>, l: seq<Location>) {
    r < |s.rounds| && Split(s.rounds[r].servers, out, l, r !in s.failed)
  }

  ghost predicate HandleSplit(s: State, h: nat) {
    h in s.handles ==>
      var hd := s.handles[h];
      && (hd.phase.Sending? ==> SplitRound(s, hd.round, hd.phase.outstanding, LocationsOf(hd.phase.changes)))
      && (hd.phase.Committing? ==> SplitRound(s, hd.round, [], LocationsOf(hd.phase.changes)))
  }

  ghost predicate CommitSplit(s: State, i: nat) {
    i < |s.log| ==> SplitRound(s, s.log[i].round, [], LocationsOf(s.log[i].changes))
  }

  ghost predicate Replicated(s: State) {
    && (forall h: nat :: HandleSplit(s, h))
    && (forall i: nat :: CommitSplit(s, i))
  }

  // ---------------------------------------------------------------------------------------------
  // The list of awaited servers
  // ---------------------------------------------------------------------------------------------

  lemma {:induction false} ReachedAre(servers: seq<nat>, sent: seq<bool>, x: nat)
    requires |sent| == |servers| && x in Reached(servers, sent)
    ensures x in servers
    decreases |servers|
  {
    var i := |servers| - 1;
    if x != servers[i] {
      ReachedAre(servers[..i], sent[..i], x);
    }
  }

  lemma {:induction false} ReachedDistinct(servers: seq<nat>, sent: seq<bool>)
    requires |sent| == |servers| && Distinct(servers)
    ensures Distinct(Reached(servers, sent))
    decreases |servers|
  {
    if servers != [] {
      var i := |servers| - 1;
      var rest := Reached(servers[..i], sent[..i]);
      ReachedDistinct(servers[..i], sent[..i]);
      forall x | x in rest ensures x != servers[i] {
        ReachedAre(servers[..i], sent[..i], x);
        var k :| 0 <= k < i && servers[..i][k] == x;
        assert servers[k] != servers[i];
      }
      var first := if sent[i] then [servers[i]] else [];
      forall j, k | 0 <= j < k < |first + rest| ensures (first + rest)[j] != (first + rest)[k] {
        assert (first + rest)[k] == rest[k - |first|] && rest[k - |first|] in rest;
        if |first| <= j {
          assert (first + rest)[j] == rest[j - |first|];
        }
      }
      assert Reached(servers, sent) == first + rest;
    }
  }

  /** A round starts with every server awaited that a send reached. */
  lemma {:induction false} SplitAtFirst(servers: seq<nat>, sent: seq<bool>)
    requires |sent| == |servers| && Distinct(servers)
    ensures Split(servers, Reached(servers, sent), [], false !in sent)
  {
    ReachedDistinct(servers, sent);
    forall x | x in Reached(servers, sent) ensures x in servers {
      ReachedAre(servers, sent, x);
    }
    if false !in sent {
      forall x | x in servers ensures x in Reached(servers, sent) {
        var j :| 0 <= j < |servers| && servers[j] == x;
        assert sent[j] in sent;
        ReachedHas(servers, sent, j);
      }
    }
  }

  lemma {:induction false} WithoutHas(l: seq<nat>, x: nat, y: nat)
    requires Distinct(l)
    ensures x in Without(l, y) <==> x in l && x != y
    ensures Distinct(Without(l, y))
  {
    if l != [] {
      assert Distinct(l[1..]);
      WithoutHas(l[1..], x, y);
      if l[0] != y {
        WithoutHas(l[1..], l[0], y);
        assert l[0] !in l[1..];
      }
    }
  }

  lemma {:induction false} WithoutSplits(servers: seq<nat>, out: seq<nat>, l: seq<Location>, complete: bool, x: nat)
    requires Split(servers, out, l, complete)
    ensures Split(servers, Without(out, x), l, false)
  {
    WithoutHas(out, x, x);
    forall y | y in Without(out, x) ensures y in servers {
      WithoutHas(out, y, x);
    }
    forall k | 0 <= k < |l| ensures l[k].server !in Without(out, x) {
      WithoutHas(out, l[k].server, x);
    }
  }

  /** A server that answers moves from one side to the other. */
  lemma {:induction false} AnswerSplits(servers: seq<nat>, out: seq<nat>, l: seq<Location>, complete: bool, n: Location)
    requires Split(servers, out, l, complete) && n.server in out
    ensures Split(servers, Without(out, n.server), l + [n], complete)
  {
    var rest, more := Without(out, n.server), l + [n];
    WithoutSplits(servers, out, l, complete, n.server);
    WithoutHas(out, n.server, n.server);
    assert more[|l|] == n;
    if complete {
      forall x | x in servers ensures x in rest || HasServer(more, x) {
        WithoutHas(out, x, n.server);
        if HasServer(l, x) {
          var k :| 0 <= k < |l| && l[k].server == x;
          assert more[k].server == x;
        }
      }
    }
  }

  // ---------------------------------------------------------------------------------------------
  // Steps
  // ---------------------------------------------------------------------------------------------

  /** Rounds are only added, and a round that has failed stays so. */
  ghost predicate Later(s: State, t: State) {
    s.rounds <= t.rounds && s.failed <= t.failed
  }

  lemma {:induction false} SplitLater(s: State, t: State, r: nat, out: seq<nat>, l: seq<Location>)
    requires SplitRound(s, r, out, l) && Later(s, t)
    ensures SplitRound(t, r, out, l)
  {
  }

  lemma {:induction false} QuietSplit(s: State, t: State, h: nat)
    requires Replicated(s) && Later(s, t) && HandleSplit(t, h)
    requires forall g: nat :: g != h && g in t.handles ==> g in s.handles && t.handles[g] == s.handles[g]
    requires forall i: nat :: i < |t.log| ==> CommitSplit(t, i)
    ensures Replicated(t)
  {
    forall g: nat ensures HandleSplit(t, g) {
      if g != h {
        assert HandleSplit(s, g);
        SameHandleSplit(s, t, g);
      }
    }
    forall i: nat ensures CommitSplit(t, i) {
    }
  }

  lemma {:induction false} LogLater(s: State, t: State)
    requires Replicated(s) && Later(s, t) && t.log == s.log
    ensures forall i: nat :: i < |t.log| ==> CommitSplit(t, i)
  {
    forall i: nat | i < |t.log| ensures CommitSplit(t, i) {
      assert CommitSplit(s, i);
      SplitLater(s, t, s.log[i].round, [], LocationsOf(s.log[i].changes));
    }
  }

  lemma {:induction false} SentSplit(s: State, h: nat, hd: Handle, servers: seq<nat>, sent: seq<bool>)
    requires Replicated(s) && |sent| == |servers| && Distinct(servers) && h in s.handles
    ensures Replicated(Sent(s, h, hd, servers, sent))
  {
    var t := Sent(s, h, hd, servers, sent);
    SplitAtFirst(servers, sent);
    LogLater(s, t);
    QuietSplit(s, t, h);
  }

  lemma {:induction false} AnsweredSplit(s: State, start: seq<Extent>, a: Ack, p: Pend, hd: Handle, t: State)
    requires Replicated(s) && Fine(s, start) && a in s.acks && Key(a.client, a.nonce) in s.pending
    requires p == s.pending[Key(a.client, a.nonce)] && p.handle in s.handles && hd == s.handles[p.handle]
    requires a.server == p.server && t == Received(s, a, true)
    ensures HandleSplit(t, p.handle)
  {
    var n := Length(Committed(start, s.log));
    HitsItsRound(s, a);
    assert PendOk(s, Key(a.client, a.nonce)) && HandleSplit(s, p.handle) && HandleFine(s, p.handle, n);
    assert AckOk(s, a) && HandleOk(s, p.handle);
    var l := Location(a.server, a.block);
    WithReplicaIs(hd.phase.changes, a.address, a.length, l);
    AnswerSplits(s.rounds[hd.round].servers, hd.phase.outstanding, LocationsOf(hd.phase.changes),
                 hd.round !in s.failed, l);
    assert LocationsOf(WithReplica(hd.phase.changes, a.address, a.length, l)) == LocationsOf(hd.phase.changes) + [l];
  }

  lemma {:induction false} ReceivedSplit(s: State, start: seq<Extent>, a: Ack, known: bool)
    requires Replicated(s) && Fine(s, start) && a in s.acks
    ensures Replicated(Received(s, a, known))
  {
    var k, t := Key(a.client, a.nonce), Received(s, a, known);
    if k in s.pending {
      var p := s.pending[k];
      assert PendOk(s, k) && HandleSplit(s, p.handle);
      LogLater(s, t);
      if a.server == p.server && known {
        AnsweredSplit(s, start, a, p, s.handles[p.handle], t);
      }
      QuietSplit(s, t, p.handle);
    }
  }

  lemma {:induction false} GivenUpSplit(s: State, k: Key)
    requires Replicated(s) && Routing(s) && k in s.pending
    ensures Replicated(GivenUp(s, k))
  {
    var p, t := s.pending[k], GivenUp(s, k);
    assert PendOk(s, k) && HandleSplit(s, p.handle);
    var hd := s.handles[p.handle];
    WithoutSplits(s.rounds[hd.round].servers, hd.phase.outstanding, LocationsOf(hd.phase.changes),
                  hd.round !in s.failed, p.server);
    LogLater(s, t);
    QuietSplit(s, t, p.handle);
  }

  lemma {:induction false} SwapSplit(s: State, h: nat, t: State)
    requires Replicated(s) && Matches(s, h) && Later(s, t) && t.log == Applying(s, h).log
    requires forall g: nat :: g != h && g in t.handles ==> g in s.handles && t.handles[g] == s.handles[g]
    requires h in t.handles && !t.handles[h].phase.Sending? && !t.handles[h].phase.Committing?
    ensures Replicated(t)
  {
    assert HandleSplit(s, h);
    forall i: nat | i < |t.log| ensures CommitSplit(t, i) {
      assert CommitSplit(s, i);
      SplitLater(s, t, t.log[i].round, [], LocationsOf(t.log[i].changes));
    }
    QuietSplit(s, t, h);
  }

  lemma {:induction false} SameHandleSplit(s: State, t: State, h: nat)
    requires HandleSplit(s, h) && Later(s, t)
    requires h in t.handles ==> h in s.handles && t.handles[h] == s.handles[h]
    ensures HandleSplit(t, h)
  {
    if h in t.handles {
      var hd := s.handles[h];
      if hd.phase.Sending? {
        SplitLater(s, t, hd.round, hd.phase.outstanding, LocationsOf(hd.phase.changes));
      } else if hd.phase.Committing? {
        SplitLater(s, t, hd.round, [], LocationsOf(hd.phase.changes));
      }
    }
  }

  /** A step that touches no handle and no commit. */
  lemma {:induction false} StillSplit(s: State, t: State)
    requires Replicated(s) && Later(s, t) && t.log == s.log && t.handles == s.handles
    ensures Replicated(t)
  {
    LogLater(s, t);
    assert HandleSplit(s, 0);
    SameHandleSplit(s, t, 0);
    QuietSplit(s, t, 0);
  }

  /** A step that leaves one handle neither sending nor committing. */
  lemma {:induction false} RestingSplit(s: State, t: State, h: nat, hd: Handle)
    requires Replicated(s) && Later(s, t) && t.log == s.log && t.handles == s.handles[h := hd]
    requires !hd.phase.Sending? && !hd.phase.Committing?
    ensures Replicated(t)
  {
    LogLater(s, t);
    QuietSplit(s, t, h);
  }

  lemma {:induction false} OtherSplit(s: State, a: Action)
    requires Replicated(s) && Enabled(s, a)
    requires a.Open? || a.Fetch? || a.Drop? || a.Process? || a.Spend? || (a.SwapFails? && !a.applied)
    ensures Replicated(Next(s, a))
  {
    var t := Next(s, a);
    if a.Process? || a.Spend? {
      StillSplit(s, t);
    } else {
      RestingSplit(s, t, a.handle, t.handles[a.handle]);
    }
  }

  lemma {:induction false} NextSplit(s: State, start: seq<Extent>, a: Action)
    requires Replicated(s) && Fine(s, start) && Enabled(s, a)
    ensures Replicated(Next(s, a))
  {
    if a.Write? {
      SentSplit(s, a.handle, s.handles[a.handle].(address := a.address, data := a.data), a.servers, a.sent);
    } else if a.Retry? {
      var hd := s.handles[a.handle];
      SentSplit(s, a.handle, hd.(file := Loaded(hd.file, hd.phase.value)), a.servers, a.sent);
    } else if a.Receive? {
      ReceivedSplit(s, start, a.ack, a.known);
    } else if a.GiveUp? {
      GivenUpSplit(s, a.key);
    } else if a.Swap? {
      SwapSplit(s, a.handle, Next(s, a));
    } else if a.SwapFails? && a.applied {
      SwapSplit(s, a.handle, Next(s, a));
    } else {
      OtherSplit(s, a);
    }
  }

  lemma {:induction false} RunSplit(s: State, start: seq<Extent>, run: seq<Action>)
    requires Replicated(s) && Fine(s, start) && CanRun(s, run)
    ensures Replicated(Execute(s, run))
    decreases |run|
  {
    if run != [] {
      NextSplit(s, start, run[0]);
      NextFine(s, start, run[0]);
      RunSplit(Next(s, run[0]), start, run[1..]);
    }
  }

  /**
   In every run, a commit lists different servers of its round; and every server of the round, unless a send failed or
   a request was given up in it.
   */
  lemma {:induction false} CommitsListTheirReplicas(s: State, start: seq<Extent>, run: seq<Action>, i: nat)
    requires Start(s) && WellFormed(start) && s.register == IntervalCodec.Pack(start) && CanRun(s, run)
    requires i < |Execute(s, run).log|
    ensures var t := Execute(s, run);
            var l := LocationsOf(t.log[i].changes);
            && t.log[i].round < |t.rounds| && DistinctServers(l)
            && (forall x: nat :: HasServer(l, x) ==> x in t.rounds[t.log[i].round].servers)
            && (t.log[i].round !in t.failed ==>
                  forall x :: x in t.rounds[t.log[i].round].servers ==> HasServer(l, x))
  {
    StartFine(s, start);
    forall h: nat ensures HandleSplit(s, h) && CommitSplit(s, h) {
    }
    RunSplit(s, start, run);
    assert CommitSplit(Execute(s, run), i);
  }
}
