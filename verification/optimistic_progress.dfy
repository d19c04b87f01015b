/**
 What the write protocol is for, when nothing goes wrong: a write that is not disturbed is stored by every server it is
 sent to, and is committed with all of them; and so is the retry of a write that came too late.
 */
module OptimisticProgress {
  import opened Wrappers
  import opened OrderedMap
  import opened Extents
  import opened IntervalCodec
  import opened OptimisticWrites
  import opened OptimisticRouting
  import opened OptimisticCommits

  /** One sending of a write: the fields of its round, and the map it starts from. */
  datatype Plan = Plan(handle: nat, client: nat, base: nat, servers: seq<nat>, address: nat, data: seq<Byte>,
                       round: nat, file: seq<Extent>)

  function UpdateFor(p: Plan, i: nat): Update
    requires i < |p.servers|
  {
    Update(p.servers[i], p.client, p.base, p.servers, p.address, p.data, p.round)
  }

  function AckFor(p: Plan, ids: seq<nat>, i: nat): Ack
    requires i < |p.servers| == |ids|
  {
    Ack(p.servers[i], p.client, p.base + i, ids[i], p.address, |p.data|, p.round)
  }

  function Yes(n: nat): (r: seq<bool>)
    ensures |r| == n
  {
    seq(n, _ => true)
  }

  /** The locations of the servers from the last one down to server m. */
  function Places(p: Plan, ids: seq<nat>, m: nat): (r: seq<Location>)
    requires m <= |p.servers| == |ids|
    ensures |r| == |p.servers| - m
    decreases |p.servers| - m
  {
    if m == |p.servers| then [] else Places(p, ids, m + 1) + [Location(p.servers[m], ids[m])]
  }

  function Collected(p: Plan, ids: seq<nat>, m: nat): Changes
    requires m <= |p.servers| == |ids|
  {
    if m == |p.servers| then [] else [Entry(p.address, Change(|p.data|, Places(p, ids, m)))]
  }

  ghost predicate Planned(p: Plan, ids: seq<nat>) {
    |ids| == |p.servers| > 0 && Distinct(p.servers)
  }

  ghost predicate PendsFor(s: State, p: Plan, i: nat) {
    i < |p.servers| ==>
      var k := Key(p.client, p.base + i); k in s.pending && s.pending[k] == Pend(p.servers[i], p.handle)
  }

  ghost predicate StoredAt(s: State, p: Plan, ids: seq<nat>, i: nat)
    requires |ids| == |p.servers|
  {
    i < |p.servers| ==>
      && AckFor(p, ids, i) in s.acks
      && var l := Location(p.servers[i], ids[i]); l in s.blocks && s.blocks[l] == p.data
  }

  ghost predicate Waits(s: State, p: Plan, ids: seq<nat>, i: nat, k: nat)
    requires |ids| == |p.servers|
  {
    k <= i < |p.servers| ==>
      && (i == 0 || k > 0 ==> UpdateFor(p, i) in s.updates)
      && Counter(s.ids, p.servers[i]) == ids[i] < NO_BLOCK
  }

  /** The first k servers have stored the data and answered; the handle waits for all of them. */
  ghost predicate Storing(s: State, p: Plan, ids: seq<nat>, k: nat)
    requires Planned(p, ids)
  {
    && p.handle in s.handles
    && s.handles[p.handle] == Handle(p.client, p.file, Sending(Pack(p.file), Reached(p.servers, Yes(|p.servers|)), []),
                                     p.address, p.data, p.round)
    && (forall i: nat :: PendsFor(s, p, i))
    && (forall i: nat :: i < k ==> StoredAt(s, p, ids, i))
    && (forall i: nat :: Waits(s, p, ids, i, k))
  }

  lemma {:induction false} IndexIs(l: seq<nat>, i: nat)
    requires Distinct(l) && i < |l|
    ensures IndexOf(l, l[i]) == i
  {
    assert l[i] in l;
    var j := IndexOf(l, l[i]);
    assert l[j] == l[i];
  }

  // ---------------------------------------------------------------------------------------------
  // Sending
  // ---------------------------------------------------------------------------------------------

  lemma {:induction false} SentStarts(s: State, h: nat, hd: Handle, p: Plan, ids: seq<nat>, t: State)
    requires Planned(p, ids) && t == Sent(s, h, hd, p.servers, Yes(|p.servers|))
    requires p == Plan(h, hd.client, Counter(s.counters, hd.client), p.servers, hd.address, hd.data, |s.rounds|,
                       hd.file)
    requires forall i :: 0 <= i < |ids| ==> ids[i] == Counter(s.ids, p.servers[i]) < NO_BLOCK
    ensures Storing(t, p, ids, 0) && t.register == s.register
  {
    forall i: nat ensures PendsFor(t, p, i) {
      PostedAt(s.pending, h, hd.client, p.base, p.servers, Yes(|p.servers|), Key(hd.client, p.base + i));
    }
    forall i: nat ensures Waits(t, p, ids, i, 0) {
    }
  }

  // ---------------------------------------------------------------------------------------------
  // Storing
  // ---------------------------------------------------------------------------------------------

  lemma {:induction false} StoreStep(s: State, p: Plan, ids: seq<nat>, k: nat, t: State)
    requires Planned(p, ids) && k < |p.servers| && Storing(s, p, ids, k)
    requires Waits(s, p, ids, k, k) ==> t == Processed(s, UpdateFor(p, k), true)
    ensures Enabled(s, Process(UpdateFor(p, k), true)) && t == Next(s, Process(UpdateFor(p, k), true))
    ensures Storing(t, p, ids, k + 1) && t.register == s.register
  {
    assert Waits(s, p, ids, k, k);
    var m := UpdateFor(p, k);
    IndexIs(p.servers, k);
    assert p.servers[k] in p.servers;
    assert AckOf(m, true, ids[k]) == AckFor(p, ids, k);
    forall i: nat ensures PendsFor(t, p, i) {
      assert PendsFor(s, p, i);
    }
    forall i: nat | i < k + 1 ensures StoredAt(t, p, ids, i) {
      if i < k {
        assert StoredAt(s, p, ids, i);
        assert i < |p.servers| ==> p.servers[i] != p.servers[k];
      }
    }
    var next := k + 1;
    forall i: nat ensures Waits(t, p, ids, i, next) {
      assert Waits(s, p, ids, i, k);
      if k < i < |p.servers| {
        assert p.servers[i] != p.servers[k];
        assert k == 0 ==> UpdateFor(p, i) in Copies(m);
      }
    }
  }

  function Stores(p: Plan, k: nat): seq<Action>
    requires k <= |p.servers|
    decreases |p.servers| - k
  {
    if k == |p.servers| then [] else [Process(UpdateFor(p, k), true)] + Stores(p, k + 1)
  }

  lemma {:induction false} OneStep(s: State, a: Action, more: seq<Action>)
    requires Enabled(s, a) && CanRun(Next(s, a), more)
    ensures CanRun(s, [a] + more) && Execute(s, [a] + more) == Execute(Next(s, a), more)
  {
    assert ([a] + more)[1..] == more;
  }

  lemma {:induction false} StoreRun(s: State, p: Plan, ids: seq<nat>, k: nat)
    requires Planned(p, ids) && k <= |p.servers| && Storing(s, p, ids, k)
    ensures CanRun(s, Stores(p, k))
    ensures var t := Execute(s, Stores(p, k)); Storing(t, p, ids, |p.servers|) && t.register == s.register
    decreases |p.servers| - k
  {
    if k < |p.servers| {
      assert Waits(s, p, ids, k, k);
      var t := Processed(s, UpdateFor(p, k), true);
      StoreStep(s, p, ids, k, t);
      StoreRun(t, p, ids, k + 1);
      OneStep(s, Process(UpdateFor(p, k), true), Stores(p, k + 1));
    }
  }

  // ---------------------------------------------------------------------------------------------
  // Answering
  // ---------------------------------------------------------------------------------------------

  /** The handle, when m answers are to come; after the last one it commits. */
  ghost predicate Collecting(hd: Handle, p: Plan, ids: seq<nat>, m: nat)
    requires Planned(p, ids) && m <= |p.servers|
  {
    && hd.client == p.client && hd.address == p.address && hd.data == p.data && hd.round == p.round
    && (if m > 0 then
          hd.file == p.file
          && hd.phase == Sending(Pack(p.file), Reached(p.servers[..m], Yes(m)), Collected(p, ids, m))
        else
          hd.file == Applied(p.file, Collected(p, ids, 0))
          && hd.phase == Committing(Pack(p.file), Collected(p, ids, 0), p.file))
  }

  /** All servers have answered, and the client has taken the answers of the servers from m on. */
  ghost predicate Answering(s: State, p: Plan, ids: seq<nat>, m: nat)
    requires Planned(p, ids) && m <= |p.servers|
  {
    && p.handle in s.handles && Collecting(s.handles[p.handle], p, ids, m)
    && (forall i: nat :: i < m ==> PendsFor(s, p, i))
    && (forall i: nat :: StoredAt(s, p, ids, i))
  }

  lemma {:induction false} AnswersStart(s: State, p: Plan, ids: seq<nat>)
    requires Planned(p, ids) && Storing(s, p, ids, |p.servers|)
    ensures Answering(s, p, ids, |p.servers|)
  {
    assert p.servers[..|p.servers|] == p.servers;
    forall i: nat ensures StoredAt(s, p, ids, i) {
    }
    forall i: nat | i < |p.servers| ensures PendsFor(s, p, i) {
    }
  }

  lemma {:induction false} ReachedLast(l: seq<nat>, m: nat)
    requires 0 < m <= |l|
    ensures Reached(l[..m], Yes(m)) == [l[m - 1]] + Reached(l[..m - 1], Yes(m - 1))
    ensures m > 1 ==> Reached(l[..m - 1], Yes(m - 1)) != []
  {
    assert l[..m][..m - 1] == l[..m - 1] && Yes(m)[..m - 1] == Yes(m - 1);
    if m > 1 {
      assert l[..m - 1][..m - 2] == l[..m - 2] && Yes(m - 1)[..m - 2] == Yes(m - 2);
    }
  }

  lemma {:induction false} NoneReached(l: seq<nat>)
    ensures Reached(l[..0], Yes(0)) == []
  {
  }

  lemma {:induction false} WithoutFirst(x: nat, l: seq<nat>)
    ensures Without([x] + l, x) == l
  {
    assert ([x] + l)[1..] == l;
  }

  lemma {:induction false} OneMore(p: Plan, ids: seq<nat>, m: nat)
    requires Planned(p, ids) && 0 < m <= |p.servers|
    ensures WithReplica(Collected(p, ids, m), p.address, |p.data|, Location(p.servers[m - 1], ids[m - 1]))
         == Collected(p, ids, m - 1)
  {
    var l := Location(p.servers[m - 1], ids[m - 1]);
    WithReplicaIs(Collected(p, ids, m), p.address, |p.data|, l);
    assert Places(p, ids, m - 1) == Places(p, ids, m) + [l] && [] + [l] == [l];
  }

  /** The client's handle when it takes the answer of server m - 1. */
  lemma {:induction false} AnswerStep(hd: Handle, p: Plan, ids: seq<nat>, m: nat, after: Handle)
    requires Planned(p, ids) && 0 < m <= |p.servers| && Collecting(hd, p, ids, m)
    requires after == Answered(hd, p.servers[m - 1], AckFor(p, ids, m - 1))
    ensures Collecting(after, p, ids, m - 1)
  {
    ReachedLast(p.servers, m);
    WithoutFirst(p.servers[m - 1], Reached(p.servers[..m - 1], Yes(m - 1)));
    OneMore(p, ids, m);
    NoneReached(p.servers);
  }

  lemma {:induction false} ReceiveStep(s: State, p: Plan, ids: seq<nat>, m: nat, t: State)
    requires Planned(p, ids) && 0 < m <= |p.servers| && Answering(s, p, ids, m)
    requires t == Received(s, AckFor(p, ids, m - 1), true)
    ensures Enabled(s, Receive(AckFor(p, ids, m - 1), true)) && t == Next(s, Receive(AckFor(p, ids, m - 1), true))
    ensures Answering(t, p, ids, m - 1) && t.register == s.register
  {
    var a := AckFor(p, ids, m - 1);
    assert PendsFor(s, p, m - 1) && StoredAt(s, p, ids, m - 1);
    AnswerStep(s.handles[p.handle], p, ids, m, t.handles[p.handle]);
    forall i: nat | i < m - 1 ensures PendsFor(t, p, i) {
      assert PendsFor(s, p, i);
    }
    forall i: nat ensures StoredAt(t, p, ids, i) {
      assert StoredAt(s, p, ids, i);
    }
  }

  function Receives(p: Plan, ids: seq<nat>, m: nat): seq<Action>
    requires m <= |p.servers| == |ids|
  {
    if m == 0 then [] else [Receive(AckFor(p, ids, m - 1), true)] + Receives(p, ids, m - 1)
  }

  lemma {:induction false} ReceiveRun(s: State, p: Plan, ids: seq<nat>, m: nat)
    requires Planned(p, ids) && m <= |p.servers| && Answering(s, p, ids, m)
    ensures CanRun(s, Receives(p, ids, m))
    ensures var t := Execute(s, Receives(p, ids, m)); Answering(t, p, ids, 0) && t.register == s.register
    decreases m
  {
    if m > 0 {
      var t := Received(s, AckFor(p, ids, m - 1), true);
      ReceiveStep(s, p, ids, m, t);
      ReceiveRun(t, p, ids, m - 1);
      OneStep(s, Receive(AckFor(p, ids, m - 1), true), Receives(p, ids, m - 1));
    }
  }

  // ---------------------------------------------------------------------------------------------
  // The whole of it
  // ---------------------------------------------------------------------------------------------

  lemma {:induction false} RunOn(s: State, first: seq<Action>, second: seq<Action>)
    requires CanRun(s, first) && CanRun(Execute(s, first), second)
    ensures CanRun(s, first + second) && Execute(s, first + second) == Execute(Execute(s, first), second)
    decreases |first|
  {
    if first == [] {
      assert first + second == second;
    } else {
      assert (first + second)[1..] == first[1..] + second;
      RunOn(Next(s, first[0]), first[1..], second);
    }
  }

  /** What follows a sending that nothing disturbs: every server stores, every answer is taken, the swap matches. */
  function Undisturbed(p: Plan, ids: seq<nat>): seq<Action>
    requires |ids| == |p.servers|
  {
    Stores(p, 0) + (Receives(p, ids, |p.servers|) + [Swap(p.handle)])
  }

  /** The write is done, and each of its locations is one of its servers, with its data. */
  ghost predicate Succeeded(t: State, p: Plan, ids: seq<nat>)
    requires |ids| == |p.servers|
  {
    && p.handle in t.handles && t.handles[p.handle].phase.Idle? && p.round in t.done
    && t.log != [] && t.log[|t.log| - 1].round == p.round
    && forall i :: 0 <= i < |p.servers| ==>
         var l := Location(p.servers[i], ids[i]); l in Places(p, ids, 0) && l in t.blocks && t.blocks[l] == p.data
  }

  lemma {:induction false} Listed(p: Plan, ids: seq<nat>, m: nat, i: nat)
    requires m <= i < |p.servers| == |ids|
    ensures Location(p.servers[i], ids[i]) in Places(p, ids, m)
    decreases i - m
  {
    if m < i {
      Listed(p, ids, m + 1, i);
    }
  }

  lemma {:induction false} SwapSucceeds(s: State, p: Plan, ids: seq<nat>, t: State, l: seq<Location>)
    requires Planned(p, ids) && Answering(s, p, ids, 0) && s.register == Pack(p.file)
    requires WellFormed(p.file) && p.address <= Length(p.file) && l == Places(p, ids, 0)
    requires Matches(s, p.handle) ==> t == Next(s, Swap(p.handle))
    ensures Matches(s, p.handle) && Succeeded(t, p, ids)
    ensures t.register == Pack(Inserted(p.file, p.address, |p.data|, l))
  {
    AppliedOne(p.file, Collected(p, ids, 0));
    forall i | 0 <= i < |p.servers|
      ensures var l := Location(p.servers[i], ids[i]);
              l in Places(p, ids, 0) && l in t.blocks && t.blocks[l] == p.data
    {
      assert StoredAt(s, p, ids, i);
      Listed(p, ids, 0, i);
    }
  }

  lemma {:induction false} SentSucceeds(s: State, p: Plan, ids: seq<nat>)
    requires Planned(p, ids) && Storing(s, p, ids, 0) && s.register == Pack(p.file)
    requires WellFormed(p.file) && p.address <= Length(p.file)
    ensures CanRun(s, Undisturbed(p, ids))
    ensures var t := Execute(s, Undisturbed(p, ids));
            Succeeded(t, p, ids) && t.register == Pack(Inserted(p.file, p.address, |p.data|, Places(p, ids, 0)))
  {
    StoreRun(s, p, ids, 0);
    var u := Execute(s, Stores(p, 0));
    AnswersStart(u, p, ids);
    ReceiveRun(u, p, ids, |p.servers|);
    var v := Execute(u, Receives(p, ids, |p.servers|));
    assert Matches(v, p.handle);
    SwapSucceeds(v, p, ids, Next(v, Swap(p.handle)), Places(p, ids, 0));
    OneStep(v, Swap(p.handle), []);
    assert [Swap(p.handle)] + [] == [Swap(p.handle)];
    RunOn(u, Receives(p, ids, |p.servers|), [Swap(p.handle)]);
    RunOn(s, Stores(p, 0), Receives(p, ids, |p.servers|) + [Swap(p.handle)]);
  }

  /** The block ids the servers are about to give out. */
  ghost predicate ReadyServers(s: State, servers: seq<nat>, ids: seq<nat>) {
    && |ids| == |servers| > 0 && Distinct(servers)
    && forall i :: 0 <= i < |servers| ==> ids[i] == Counter(s.ids, servers[i]) < NO_BLOCK
  }

  /**
   A write on a handle whose map is the one in the register, sent to any number of servers that have room, can be
   carried through: every server stores the data, and the register then packs the map with one more extent, which lists
   all of them.
   */
  lemma {:induction false} WriteSucceeds(s: State, h: nat, address: nat, data: seq<Byte>, servers: seq<nat>,
                                         ids: seq<nat>, p: Plan)
    requires h in s.handles && s.handles[h].phase.Idle? && address <= Length(s.handles[h].file)
    requires WellFormed(s.handles[h].file) && s.register == Pack(s.handles[h].file) && ReadyServers(s, servers, ids)
    requires var hd := s.handles[h];
             p == Plan(h, hd.client, Counter(s.counters, hd.client), servers, address, data, |s.rounds|, hd.file)
    ensures var run := [Write(h, address, data, servers, Yes(|servers|))] + Undisturbed(p, ids);
            && CanRun(s, run) && Succeeded(Execute(s, run), p, ids)
            && Execute(s, run).register == Pack(Inserted(p.file, address, |data|, Places(p, ids, 0)))
  {
    var a, hd := Write(h, address, data, servers, Yes(|servers|)), s.handles[h].(address := address, data := data);
    SentStarts(s, h, hd, p, ids, Next(s, a));
    SentSucceeds(Next(s, a), p, ids);
    OneStep(s, a, Undisturbed(p, ids));
  }

  /** A write that came too late: its swap fails, the map is read again, and the write is sent once more. */
  function Again(h: nat, servers: seq<nat>): seq<Action> {
    [SwapFails(h, false)] + ([Fetch(h, true)] + [Retry(h, servers, Yes(|servers|))])
  }

  lemma {:induction false} RetryStarts(s: State, h: nat, es: seq<Extent>, servers: seq<nat>, ids: seq<nat>, p: Plan)
    requires h in s.handles && s.handles[h].phase.Committing? && s.register == Pack(es) && WellFormed(es)
    requires ReadyServers(s, servers, ids)
    requires var hd := s.handles[h];
             p == Plan(h, hd.client, Counter(s.counters, hd.client), servers, hd.address, hd.data, |s.rounds|,
                       Rebase(es))
    ensures CanRun(s, Again(h, servers))
    ensures var t := Execute(s, Again(h, servers)); Storing(t, p, ids, 0) && t.register == s.register
  {
    var hd, a, b, c := s.handles[h], SwapFails(h, false), Fetch(h, true), Retry(h, servers, Yes(|servers|));
    var t := Next(s, a);
    var u := Next(t, b);
    LoadedPack(hd.file, es);
    assert u.handles[h] == hd.(phase := Fetched(Pack(es)));
    SentStarts(u, h, u.handles[h].(file := Rebase(es)), p, ids, Next(u, c));
    OneStep(u, c, []);
    OneStep(t, b, [c] + []);
    OneStep(s, a, [b] + ([c] + []));
    assert [c] + [] == [c];
  }

  /**
   The retry of a write that came too late can be carried through too, with the same address and data, on the map that
   was read again, when that map has no offsets to lose and reaches the address.
   */
  lemma {:induction false} RetrySucceeds(s: State, h: nat, es: seq<Extent>, servers: seq<nat>, ids: seq<nat>, p: Plan)
    requires h in s.handles && s.handles[h].phase.Committing? && s.register == Pack(es) && WellFormed(es)
    requires (forall i :: 0 <= i < |es| ==> es[i].val.offset == 0) && s.handles[h].address <= Length(es)
    requires ReadyServers(s, servers, ids)
    requires var hd := s.handles[h];
             p == Plan(h, hd.client, Counter(s.counters, hd.client), servers, hd.address, hd.data, |s.rounds|, es)
    ensures var run := Again(h, servers) + Undisturbed(p, ids);
            && CanRun(s, run) && Succeeded(Execute(s, run), p, ids)
            && Execute(s, run).register == Pack(Inserted(es, p.address, |p.data|, Places(p, ids, 0)))
  {
    assert Rebase(es) == es;
    RetryStarts(s, h, es, servers, ids, p);
    SentSucceeds(Execute(s, Again(h, servers)), p, ids);
    RunOn(s, Again(h, servers), Undisturbed(p, ids));
  }
}
