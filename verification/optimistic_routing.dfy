/**
 Which answer belongs to which request: the nonces of different rounds never collide, every answer carries the nonce
 that was given to the server it comes from, and what it says about a block is true of that server.
 */
module OptimisticRouting {
  import opened Extents
  import opened OptimisticWrites

  /** A round's nonces lie below its client's counter. */
  ghost predicate RoundOk(s: State, i: nat) {
    i < |s.rounds| ==>
      Distinct(s.rounds[i].servers) &&
      s.rounds[i].base + |s.rounds[i].servers| <= Counter(s.counters, s.rounds[i].client)
  }

  ghost predicate RoundsApart(s: State, i: nat, j: nat) {
    i < j < |s.rounds| && s.rounds[i].client == s.rounds[j].client ==>
      s.rounds[i].base + |s.rounds[i].servers| <= s.rounds[j].base
  }

  ghost predicate UpdateOk(s: State, m: Update) {
    m in s.updates ==>
      m.round < |s.rounds| && m.server in m.servers &&
      m == Update(m.server, s.rounds[m.round].client, s.rounds[m.round].base, s.rounds[m.round].servers,
                  s.rounds[m.round].address, s.rounds[m.round].data, m.round)
  }

  /** The server holds a block with exactly these bytes; or, once some store has failed, there is no block. */
  ghost predicate Located(s: State, l: Location, data: seq<Byte>) {
    if l.block < NO_BLOCK then l in s.blocks && s.blocks[l] == data else l.block == NO_BLOCK && s.refused
  }

  ghost predicate AckOk(s: State, m: Ack) {
    m in s.acks ==>
      m.round < |s.rounds| && s.rounds[m.round].client == m.client && m.server in s.rounds[m.round].servers &&
      m.nonce == s.rounds[m.round].base + IndexOf(s.rounds[m.round].servers, m.server) &&
      m.address == s.rounds[m.round].address &&
      Located(s, Location(m.server, m.block), s.rounds[m.round].data) &&
      m.length == (if m.block < NO_BLOCK then |s.rounds[m.round].data| else NO_BLOCK)
  }

  ghost predicate BlockOk(s: State, l: Location) {
    l in s.blocks ==> l.block < Counter(s.ids, l.server) && l.block < NO_BLOCK
  }

  /** A handle that has started a write is in the middle of its latest round, or done with it. */
  ghost predicate HandleOk(s: State, h: nat) {
    h in s.handles && !s.handles[h].phase.Idle? ==>
      var hd := s.handles[h];
      hd.round < |s.rounds| && s.rounds[hd.round].handle == h && s.rounds[hd.round].client == hd.client &&
      s.rounds[hd.round].address == hd.address && s.rounds[hd.round].data == hd.data
  }

  /** A pending nonce belongs to the current round of a handle that still waits for that server. */
  ghost predicate PendOk(s: State, k: Key) {
    k in s.pending ==>
      var p := s.pending[k];
      p.handle in s.handles && s.handles[p.handle].phase.Sending? &&
      p.server in s.handles[p.handle].phase.outstanding &&
      s.handles[p.handle].round < |s.rounds| && InRound(s.rounds[s.handles[p.handle].round], k, p.server)
  }

  ghost predicate InRound(r: Round, k: Key, server: nat) {
    r.client == k.client && r.base <= k.nonce < r.base + |r.servers| && r.servers[k.nonce - r.base] == server
  }

  ghost predicate World(s: State) {
    && (forall i: nat :: RoundOk(s, i))
    && (forall i: nat, j: nat :: RoundsApart(s, i, j))
    && (forall m :: UpdateOk(s, m))
    && (forall m :: AckOk(s, m))
    && (forall l :: BlockOk(s, l))
  }

  ghost predicate Routing(s: State) {
    && World(s)
    && (forall h: nat :: HandleOk(s, h))
    && (forall k :: PendOk(s, k))
  }

  ghost predicate SameWorld(s: State, t: State) {
    s.rounds == t.rounds && s.updates == t.updates && s.acks == t.acks && s.blocks == t.blocks && s.ids == t.ids &&
    s.refused == t.refused && forall c: nat :: Counter(s.counters, c) <= Counter(t.counters, c)
  }

  lemma {:induction false} WorldKept(s: State, t: State)
    requires World(s) && SameWorld(s, t)
    ensures World(t)
  {
    forall i: nat ensures RoundOk(t, i) {
      assert RoundOk(s, i);
    }
    forall i: nat, j: nat ensures RoundsApart(t, i, j) {
      assert RoundsApart(s, i, j);
    }
    forall m ensures UpdateOk(t, m) {
      assert UpdateOk(s, m);
    }
    forall m ensures AckOk(t, m) {
      assert AckOk(s, m);
    }
    forall l ensures BlockOk(t, l) {
      assert BlockOk(s, l);
    }
  }

  // ---------------------------------------------------------------------------------------------
  // Sending
  // ---------------------------------------------------------------------------------------------

  /** The sending loop gives nonce base + i to replica i, for each replica the send reached, and touches no other. */
  lemma {:induction false} PostedAt(p: map<Key, Pend>, h: nat, c: nat, base: nat, servers: seq<nat>, sent: seq<bool>,
                                    k: Key)
    requires |sent| == |servers|
    ensures var r := Posted(p, h, c, base, servers, sent);
            if k.client == c && base <= k.nonce < base + |servers| && sent[k.nonce - base]
            then k in r && r[k] == Pend(servers[k.nonce - base], h)
            else (k in r <==> k in p) && (k in r ==> r[k] == p[k])
    decreases |servers|
  {
    if servers != [] {
      var i := |servers| - 1;
      var q := if sent[i] then p[Key(c, base + i) := Pend(servers[i], h)] else p;
      PostedAt(q, h, c, base, servers[..i], sent[..i], k);
    }
  }

  lemma {:induction false} ReachedHas(servers: seq<nat>, sent: seq<bool>, j: nat)
    requires |sent| == |servers| && j < |servers| && sent[j]
    ensures servers[j] in Reached(servers, sent)
    decreases |servers|
  {
    var i := |servers| - 1;
    if j < i {
      ReachedHas(servers[..i], sent[..i], j);
    }
  }

  lemma {:induction false} NewPend(s: State, h: nat, hd: Handle, servers: seq<nat>, sent: seq<bool>, k: Key, i: nat)
    requires |sent| == |servers| && i < |servers| && sent[i] && k == Key(hd.client, Counter(s.counters, hd.client) + i)
    ensures PendOk(Sent(s, h, hd, servers, sent), k)
  {
    PostedAt(s.pending, h, hd.client, Counter(s.counters, hd.client), servers, sent, k);
    ReachedHas(servers, sent, i);
  }

  lemma {:induction false} OldPend(s: State, h: nat, hd: Handle, servers: seq<nat>, sent: seq<bool>, k: Key)
    requires |sent| == |servers| && PendOk(s, k) && k in s.pending && s.pending[k].handle != h
    requires var r := Sent(s, h, hd, servers, sent).pending; k in r && r[k] == s.pending[k]
    ensures PendOk(Sent(s, h, hd, servers, sent), k)
  {
  }

  lemma {:induction false} SentPend(s: State, h: nat, hd: Handle, servers: seq<nat>, sent: seq<bool>, k: Key)
    requires Routing(s) && |sent| == |servers| && h in s.handles && !s.handles[h].phase.Sending?
    ensures PendOk(Sent(s, h, hd, servers, sent), k)
  {
    var base := Counter(s.counters, hd.client);
    PostedAt(s.pending, h, hd.client, base, servers, sent, k);
    if k.client == hd.client && base <= k.nonce < base + |servers| && sent[k.nonce - base] {
      NewPend(s, h, hd, servers, sent, k, k.nonce - base);
    } else if k in s.pending {
      assert PendOk(s, k);
      OldPend(s, h, hd, servers, sent, k);
    }
  }

  lemma {:induction false} SentRounds(s: State, h: nat, hd: Handle, servers: seq<nat>, sent: seq<bool>, i: nat, j: nat)
    requires Routing(s) && |sent| == |servers| && Distinct(servers)
    ensures RoundOk(Sent(s, h, hd, servers, sent), i) && RoundsApart(Sent(s, h, hd, servers, sent), i, j)
  {
    assert RoundOk(s, i) && RoundsApart(s, i, j);
  }

  lemma {:induction false} SentWorld(s: State, h: nat, hd: Handle, servers: seq<nat>, sent: seq<bool>)
    requires Routing(s) && |sent| == |servers| && Distinct(servers)
    ensures World(Sent(s, h, hd, servers, sent))
  {
    var t := Sent(s, h, hd, servers, sent);
    forall i: nat ensures RoundOk(t, i) {
      SentRounds(s, h, hd, servers, sent, i, 0);
    }
    forall i: nat, j: nat ensures RoundsApart(t, i, j) {
      SentRounds(s, h, hd, servers, sent, i, j);
    }
    forall m ensures UpdateOk(t, m) {
      assert UpdateOk(s, m);
    }
    forall m ensures AckOk(t, m) {
      assert AckOk(s, m);
    }
    forall l ensures BlockOk(t, l) {
      assert BlockOk(s, l);
    }
  }

  lemma {:induction false} SentRouting(s: State, h: nat, hd: Handle, servers: seq<nat>, sent: seq<bool>)
    requires Routing(s) && |sent| == |servers| && Distinct(servers)
    requires h in s.handles && !s.handles[h].phase.Sending?
    ensures Routing(Sent(s, h, hd, servers, sent))
  {
    var t := Sent(s, h, hd, servers, sent);
    SentWorld(s, h, hd, servers, sent);
    forall g: nat ensures HandleOk(t, g) {
      assert HandleOk(s, g);
    }
    forall k ensures PendOk(t, k) {
      SentPend(s, h, hd, servers, sent, k);
    }
  }

  // ---------------------------------------------------------------------------------------------
  // Storing and answering
  // ---------------------------------------------------------------------------------------------

  lemma {:induction false} NewAckOk(s: State, m: Update, stored: bool)
    requires Routing(s) && Enabled(s, Process(m, stored))
    ensures AckOk(Processed(s, m, stored), AckOf(m, stored, Counter(s.ids, m.server)))
  {
    assert UpdateOk(s, m);
  }

  /** Ids of blocks are not used again, so an answer stays true. */
  lemma {:induction false} OldAckOk(s: State, m: Update, stored: bool, a: Ack)
    requires Routing(s) && Enabled(s, Process(m, stored)) && a in s.acks
    ensures AckOk(Processed(s, m, stored), a)
  {
    assert AckOk(s, a) && BlockOk(s, Location(m.server, Counter(s.ids, m.server)));
  }

  lemma {:induction false} ProcessedWorld(s: State, m: Update, stored: bool)
    requires Routing(s) && Enabled(s, Process(m, stored))
    ensures World(Processed(s, m, stored))
  {
    var t := Processed(s, m, stored);
    forall i: nat ensures RoundOk(t, i) {
      assert RoundOk(s, i);
    }
    forall i: nat, j: nat ensures RoundsApart(t, i, j) {
      assert RoundsApart(s, i, j);
    }
    forall n ensures UpdateOk(t, n) {
      assert UpdateOk(s, n) && UpdateOk(s, m);
    }
    forall a ensures AckOk(t, a) {
      NewAckOk(s, m, stored);
      if a in s.acks {
        OldAckOk(s, m, stored, a);
      }
    }
    forall l ensures BlockOk(t, l) {
      assert BlockOk(s, l);
    }
  }

  lemma {:induction false} ProcessedRouting(s: State, m: Update, stored: bool)
    requires Routing(s) && Enabled(s, Process(m, stored))
    ensures Routing(Processed(s, m, stored))
  {
    var t := Processed(s, m, stored);
    ProcessedWorld(s, m, stored);
    forall h: nat ensures HandleOk(t, h) {
      assert HandleOk(s, h);
    }
    forall k ensures PendOk(t, k) {
      assert PendOk(s, k);
    }
  }

  lemma {:induction false} StillOut(l: seq<nat>, x: nat, y: nat)
    requires x in l && x != y
    ensures x in Without(l, y)
  {
    if l[0] != y && x != l[0] {
      StillOut(l[1..], x, y);
    }
  }

  /** Two requests that are pending for one handle went to different servers. */
  lemma {:induction false} PendingApart(s: State, k: Key, n: Key)
    requires Routing(s) && k in s.pending && n in s.pending && k != n && s.pending[k].handle == s.pending[n].handle
    ensures s.pending[k].server != s.pending[n].server
  {
    assert PendOk(s, k) && PendOk(s, n);
    assert RoundOk(s, s.handles[s.pending[k].handle].round);
  }

  /** One request is over: the handle waits for one server less, and every other pending request stays as it was. */
  lemma {:induction false} SettledRouting(s: State, k: Key, hd: Handle, t: State)
    requires Routing(s) && k in s.pending && s.pending[k].handle in s.handles
    requires var p := s.pending[k]; var before := s.handles[p.handle];
             && t == s.(pending := s.pending - {k}, handles := s.handles[p.handle := hd], failed := t.failed)
             && hd.client == before.client && hd.round == before.round
             && hd.address == before.address && hd.data == before.data
             && (before.phase.Idle? <==> hd.phase.Idle?)
             && (before.phase.Sending? && Without(before.phase.outstanding, p.server) != [] ==>
                   hd.phase.Sending? && hd.phase.outstanding == Without(before.phase.outstanding, p.server))
    ensures Routing(t)
  {
    var p := s.pending[k];
    WorldKept(s, t);
    forall h: nat ensures HandleOk(t, h) {
      assert HandleOk(s, h);
    }
    forall n ensures PendOk(t, n) {
      assert PendOk(s, n);
      if n in t.pending && s.pending[n].handle == p.handle {
        PendingApart(s, k, n);
        StillOut(s.handles[p.handle].phase.outstanding, s.pending[n].server, p.server);
      }
    }
  }

  lemma {:induction false} DroppedRouting(s: State, k: Key)
    requires Routing(s) && k in s.pending
    ensures Routing(s.(pending := s.pending - {k}))
  {
    assert PendOk(s, k);
    var hd := s.handles[s.pending[k].handle];
    var t := s.(pending := s.pending - {k});
    WorldKept(s, t);
    forall h: nat ensures HandleOk(t, h) {
      assert HandleOk(s, h);
    }
    forall n ensures PendOk(t, n) {
      assert PendOk(s, n);
    }
  }

  lemma {:induction false} ReceivedRouting(s: State, a: Ack, known: bool)
    requires Routing(s)
    ensures Routing(Received(s, a, known))
  {
    var k := Key(a.client, a.nonce);
    if k in s.pending {
      assert PendOk(s, k);
      var p := s.pending[k];
      if a.server == p.server && known {
        SettledRouting(s, k, Answered(s.handles[p.handle], a.server, a), Received(s, a, known));
      } else {
        DroppedRouting(s, k);
      }
    }
  }

  lemma {:induction false} GivenUpRouting(s: State, k: Key)
    requires Routing(s) && k in s.pending
    ensures Routing(GivenUp(s, k))
  {
    assert PendOk(s, k);
    var p := s.pending[k];
    SettledRouting(s, k, Forgotten(s.handles[p.handle], p.server), GivenUp(s, k));
  }

  /**
   What processing an update adds to the network: one answer, under the nonce of the server's first place in the list;
   and, from the first server of the list alone, one copy for each of the others.
   */
  lemma {:induction false} ProcessSends(s: State, m: Update, stored: bool, u: Update)
    requires Enabled(s, Process(m, stored))
    ensures var t := Next(s, Process(m, stored));
            && (u in t.updates <==>
                  u in s.updates
                  || (m.servers != [] && m.servers[0] == m.server
                      && exists i :: 1 <= i < |m.servers| && u == m.(server := m.servers[i])))
            && t.handles == s.handles && t.pending == s.pending && t.register == s.register
  {
  }

  /** Once the first server has processed an update, there is a copy for every other server of the list. */
  lemma {:induction false} MasterForwards(s: State, m: Update, stored: bool, x: nat)
    requires Enabled(s, Process(m, stored)) && m.servers != [] && m.servers[0] == m.server
    requires x in m.servers && x != m.server
    ensures m.(server := x) in Next(s, Process(m, stored)).updates
  {
    var i :| 0 <= i < |m.servers| && m.servers[i] == x;
    assert m.(server := m.servers[i]) in Copies(m);
  }

  lemma {:induction false} ProcessAnswers(s: State, m: Update, stored: bool, i: nat)
    requires Enabled(s, Process(m, stored)) && i < |m.servers| && m.servers[i] == m.server
    requires forall j :: 0 <= j < i ==> m.servers[j] != m.server
    ensures var t, id := Next(s, Process(m, stored)), Counter(s.ids, m.server);
            if stored then
              && t.acks == s.acks + {Ack(m.server, m.client, m.nonce + i, id, m.address, |m.data|, m.round)}
              && t.blocks == s.blocks[Location(m.server, id) := m.data]
              && t.ids == s.ids[m.server := id + 1] && t.refused == s.refused
            else
              && t.acks == s.acks + {Ack(m.server, m.client, m.nonce + i, NO_BLOCK, m.address, NO_BLOCK, m.round)}
              && t.blocks == s.blocks && t.ids == s.ids && t.refused
  {
    var k := IndexOf(m.servers, m.server);
    assert m.servers[k] == m.server && k == i;
  }

  // ---------------------------------------------------------------------------------------------
  // Every run
  // ---------------------------------------------------------------------------------------------

  lemma {:induction false} ReplacedRouting(s: State, h: nat, hd: Handle, t: State)
    requires Routing(s) && SameWorld(s, t) && t.pending == s.pending && t.handles == s.handles[h := hd]
    requires h in s.handles && s.handles[h].phase.Sending? ==> s.handles[h].phase.outstanding == []
    requires HandleOk(t, h)
    ensures Routing(t)
  {
    WorldKept(s, t);
    forall g: nat ensures HandleOk(t, g) {
      assert HandleOk(s, g);
    }
    forall k ensures PendOk(t, k) {
      assert PendOk(s, k);
    }
  }

  lemma {:induction false} SpendRouting(s: State, c: nat, n: nat)
    requires Routing(s)
    ensures Routing(Next(s, Spend(c, n)))
  {
    var t := Next(s, Spend(c, n));
    WorldKept(s, t);
    forall h: nat ensures HandleOk(t, h) {
      assert HandleOk(s, h);
    }
    forall k ensures PendOk(t, k) {
      assert PendOk(s, k);
    }
  }

  /** The steps that leave messages, rounds and pending requests alone. */
  lemma {:induction false} OtherRouting(s: State, a: Action)
    requires Routing(s) && Enabled(s, a)
    requires a.Open? || a.Swap? || a.SwapFails? || a.Fetch? || a.Drop?
    ensures Routing(Next(s, a))
  {
    var h := a.handle;
    assert HandleOk(s, h);
    ReplacedRouting(s, h, Next(s, a).handles[h], Next(s, a));
  }

  lemma {:induction false} NextRouting(s: State, a: Action)
    requires Routing(s) && Enabled(s, a)
    ensures Routing(Next(s, a))
  {
    if a.Write? {
      SentRouting(s, a.handle, s.handles[a.handle].(address := a.address, data := a.data), a.servers, a.sent);
    } else if a.Retry? {
      var hd := s.handles[a.handle];
      SentRouting(s, a.handle, hd.(file := Loaded(hd.file, hd.phase.value)), a.servers, a.sent);
    } else if a.Process? {
      ProcessedRouting(s, a.update, a.stored);
    } else if a.Receive? {
      ReceivedRouting(s, a.ack, a.known);
    } else if a.GiveUp? {
      GivenUpRouting(s, a.key);
    } else if a.Spend? {
      SpendRouting(s, a.client, a.nonces);
    } else {
      OtherRouting(s, a);
    }
  }

  /** Nothing has happened yet, but there may be blocks already. */
  ghost predicate Start(s: State) {
    && s.handles == map[] && s.pending == map[] && s.updates == {} && s.acks == {} && s.rounds == [] && s.log == []
    && s.done == {} && !s.refused
    && forall l :: BlockOk(s, l)
  }

  lemma {:induction false} StartRouting(s: State)
    requires Start(s)
    ensures Routing(s)
  {
    forall i: nat ensures RoundOk(s, i) && HandleOk(s, i) {
    }
    forall i: nat, j: nat ensures RoundsApart(s, i, j) {
    }
    forall m ensures UpdateOk(s, m) {
    }
    forall m ensures AckOk(s, m) {
    }
    forall k ensures PendOk(s, k) {
    }
  }

  lemma {:induction false} RunRouting(s: State, run: seq<Action>)
    requires Routing(s) && CanRun(s, run)
    ensures Routing(Execute(s, run))
    decreases |run|
  {
    if run != [] {
      NextRouting(s, run[0]);
      RunRouting(Next(s, run[0]), run[1..]);
    }
  }

  /** No nonce is ever given out twice. */
  lemma {:induction false} NoncesNeverCollide(s: State, run: seq<Action>, i: nat, j: nat, x: nat, y: nat)
    requires Start(s) && CanRun(s, run) && i < |Execute(s, run).rounds| && j < |Execute(s, run).rounds|
    requires x < |Execute(s, run).rounds[i].servers| && y < |Execute(s, run).rounds[j].servers|
    requires Execute(s, run).rounds[i].client == Execute(s, run).rounds[j].client
    ensures Execute(s, run).rounds[i].base + x == Execute(s, run).rounds[j].base + y <==> i == j && x == y
  {
    StartRouting(s);
    RunRouting(s, run);
    var t := Execute(s, run);
    assert RoundsApart(t, i, j) && RoundsApart(t, j, i);
  }

  lemma {:induction false} HitsItsRound(s: State, a: Ack)
    requires Routing(s) && a in s.acks && Key(a.client, a.nonce) in s.pending
    ensures var p := s.pending[Key(a.client, a.nonce)];
            p.handle in s.handles && s.handles[p.handle].round == a.round && p.server == a.server
  {
    var k := Key(a.client, a.nonce);
    assert AckOk(s, a) && PendOk(s, k);
    var r := s.handles[s.pending[k].handle].round;
    assert RoundsApart(s, a.round, r) && RoundsApart(s, r, a.round);
  }

  /**
   In every run: an answer that meets a pending request comes from the server the request went to, answers the
   handle's current round, and reports a block of that server with that round's bytes. So no answer is attributed to
   a wrong server, and the branch for a wrong server's answer is never taken.
   */
  lemma {:induction false} AnswersMeetTheirRequest(s: State, run: seq<Action>, a: Ack)
    requires Start(s) && CanRun(s, run)
    requires a in Execute(s, run).acks && Key(a.client, a.nonce) in Execute(s, run).pending
    ensures var t := Execute(s, run);
            var p := t.pending[Key(a.client, a.nonce)];
            && a.server == p.server && p.handle in t.handles && t.handles[p.handle].phase.Sending?
            && a.server in t.handles[p.handle].phase.outstanding && a.address == t.handles[p.handle].address
            && Located(t, Location(a.server, a.block), t.handles[p.handle].data)
  {
    StartRouting(s);
    RunRouting(s, run);
    var t := Execute(s, run);
    HitsItsRound(t, a);
    var k := Key(a.client, a.nonce);
    assert PendOk(t, k) && AckOk(t, a) && HandleOk(t, t.pending[k].handle);
  }
}
