/**
 The replicated optimistic write, as a state machine: clients, storage servers, a network, and one register that holds
 a file's packed extent map and is changed by compare-and-set only.

 A client sends its data to a master, which forwards it to the other replicas; each replica stores a new block and
 acknowledges to the client. When nothing is outstanding the client inserts what was acknowledged into its copy of
 the map and tries to commit it; on failure it fetches the map and starts over, data included.

 The network is two sets of messages that only grow: a message may be delivered late, repeatedly, out of order, or
 never.
 */
module OptimisticWrites {
  import opened Wrappers
  import opened OrderedMap
  import opened Extents
  import opened IntervalCodec
  import Blockstore

  type Byte = Blockstore.Byte

  /** The block id a server leaves in its answer when it could not store, and the length it then reports. */
  const NO_BLOCK: nat := 0xFFFF_FFFF_FFFF_FFFF

  /** What one write changes: file offset -> (length, replicas). */
  datatype Change = Change(length: nat, location: seq<Location>)
  type Changes = seq<Entry<Change>>

  /** A nonce belongs to a client. */
  datatype Key = Key(client: nat, nonce: nat)
  datatype Pend = Pend(server: nat, handle: nat)

  /**
   What a handle is doing. Sending: waiting for the servers `outstanding`. Committing: the compare-and-set is on its
   way; `basis` is the map that `expected` packs. Failed: it did not succeed. Fetched: the register was read again.
   Dropped: the write has ended with an error. The handle keeps its map, which may hold what was never committed.
   */
  datatype Phase =
    | Idle
    | Sending(expected: seq<nat>, outstanding: seq<nat>, changes: Changes)
    | Committing(expected: seq<nat>, changes: Changes, basis: seq<Extent>)
    | Failed
    | Fetched(value: seq<nat>)
    | Dropped

  /** An open file: its map, and its current write with the number of the round that sent it last. */
  datatype Handle = Handle(client: nat, file: seq<Extent>, phase: Phase, address: nat, data: seq<Byte>, round: nat)

  /** Bookkeeping: every time a client sent a write to a list of servers. Replica i was given the nonce base + i. */
  datatype Round = Round(handle: nat, client: nat, base: nat, servers: seq<nat>, address: nat, data: seq<Byte>)

  /** In the messages, `round` is bookkeeping too: no step looks at it. */
  datatype Update =
    Update(server: nat, client: nat, nonce: nat, servers: seq<nat>, address: nat, data: seq<Byte>, round: nat)
  datatype Ack = Ack(server: nat, client: nat, nonce: nat, block: nat, address: nat, length: nat, round: nat)

  datatype Commit = Commit(round: nat, changes: Changes)

  /**
   `blocks` holds every server's blocks, by server and block id. The last five fields are bookkeeping: the rounds, the
   commits, the rounds reported to have succeeded, whether some server failed to store, and the rounds in which a send
   or a request failed.
   */
  datatype State = State(
    handles: map<nat, Handle>, counters: map<nat, nat>, pending: map<Key, Pend>, updates: set<Update>,
    acks: set<Ack>, blocks: map<Location, seq<Byte>>, ids: map<nat, nat>, register: seq<nat>,
    rounds: seq<Round>, log: seq<Commit>, done: set<nat>, refused: bool, failed: set<nat>)

  datatype Action =
    | Open(handle: nat, client: nat)
    | Write(handle: nat, address: nat, data: seq<Byte>, servers: seq<nat>, sent: seq<bool>)
    | Process(update: Update, stored: bool)     // a server takes an update; its log may be full
    | Receive(ack: Ack, known: bool)         // a client takes an answer; it may not know the server any more
    | GiveUp(key: Key)                           // a client fails a request: the server left, or the connection broke
    | Swap(handle: nat)                          // the compare-and-set succeeds, and the client is told so
    | SwapFails(handle: nat, applied: bool)      // the client is told that it failed; it may have taken effect
    | Fetch(handle: nat, answered: bool)
    | Retry(handle: nat, servers: seq<nat>, sent: seq<bool>)
    | Drop(handle: nat)                          // nothing is awaited any more, or a request cannot be sent
    | Spend(client: nat, nonces: nat)            // the client uses nonces for something else

  predicate Distinct(l: seq<nat>) {
    forall i, j :: 0 <= i < j < |l| ==> l[i] != l[j]
  }

  function Counter(m: map<nat, nat>, k: nat): nat {
    if k in m then m[k] else 0
  }

  // ---------------------------------------------------------------------------------------------
  // The client
  // ---------------------------------------------------------------------------------------------

  /** perform_aggregation: the counter is advanced past all nonces, which are then given out from the last replica. */
  function Posted(p: map<Key, Pend>, h: nat, c: nat, base: nat, servers: seq<nat>, sent: seq<bool>): map<Key, Pend>
    requires |sent| == |servers|
    decreases |servers|
  {
    if servers == [] then p
    else
      var i := |servers| - 1;
      Posted(if sent[i] then p[Key(c, base + i) := Pend(servers[i], h)] else p, h, c, base, servers[..i], sent[..i])
  }

  /** The servers a send reached, in sending order. */
  function Reached(servers: seq<nat>, sent: seq<bool>): seq<nat>
    requires |sent| == |servers|
  {
    if servers == [] then []
    else
      var i := |servers| - 1;
      (if sent[i] then [servers[i]] else []) + Reached(servers[..i], sent[..i])
  }

  /** do_op: remember the packed map, forget earlier changes, send. Only the master is sent the data. */
  function Sent(s: State, h: nat, hd: Handle, servers: seq<nat>, sent: seq<bool>): State
    requires |sent| == |servers|
  {
    var c, base, r := hd.client, Counter(s.counters, hd.client), |s.rounds|;
    s.(handles := s.handles[h := hd.(phase := Sending(Pack(hd.file), Reached(servers, sent), []), round := r)],
       counters := s.counters[c := base + |servers|],
       pending := Posted(s.pending, h, c, base, servers, sent),
       updates := s.updates + (if servers != [] && sent[0]
                               then {Update(servers[0], c, base, servers, hd.address, hd.data, r)} else {}),
       rounds := s.rounds + [Round(h, c, base, servers, hd.address, hd.data)],
       failed := s.failed + (if false in sent then {r} else {}))
  }

  /** Removes the first occurrence. */
  function Without(l: seq<nat>, x: nat): seq<nat> {
    if l == [] then [] else if l[0] == x then l[1..] else [l[0]] + Without(l[1..], x)
  }

  /** The first answer for a file offset fixes the length; every answer adds a replica. */
  function WithReplica(m: Changes, address: nat, length: nat, l: Location): Changes {
    if Has(m, address) then
      var c := m[LowerBound(m, address)].val;
      Put(m, address, c.(location := c.location + [l]))
    else Put(m, address, Change(length, [l]))
  }

  /** apply_changeset. (Only maps without gaps are modelled, and no handle ever holds another: see HandleFine.) */
  ghost function Applied(es: seq<Extent>, m: Changes): seq<Extent>
    decreases |m|
  {
    if m == [] || !WellFormed(es) then es
    else Applied(Inserted(es, m[0].key, m[0].val.length, m[0].val.location), m[1..])
  }

  /** handle_wtf_message: after the last answer, apply the changes and send the compare-and-set. */
  ghost function Answered(hd: Handle, server: nat, a: Ack): Handle
  {
    if !hd.phase.Sending? then hd
    else
      var rest := Without(hd.phase.outstanding, server);
      var changes := WithReplica(hd.phase.changes, a.address, a.length, Location(server, a.block));
      if rest == [] then
        hd.(file := Applied(hd.file, changes), phase := Committing(hd.phase.expected, changes, hd.file))
      else hd.(phase := Sending(hd.phase.expected, rest, changes))
  }

  function Forgotten(hd: Handle, server: nat): Handle {
    if !hd.phase.Sending? then hd
    else hd.(phase := hd.phase.(outstanding := Without(hd.phase.outstanding, server)))
  }

  /** An unknown nonce is dropped; a known one is no longer pending; the answer counts if it is the right server's. */
  ghost function Received(s: State, a: Ack, known: bool): State
  {
    var k := Key(a.client, a.nonce);
    if k !in s.pending then s
    else
      var p := s.pending[k];
      var t := s.(pending := s.pending - {k});
      if a.server == p.server && known && p.handle in s.handles
      then t.(handles := s.handles[p.handle := Answered(s.handles[p.handle], a.server, a)]) else t
  }

  function GivenUp(s: State, k: Key): State
    requires k in s.pending
  {
    var p := s.pending[k];
    var t := s.(pending := s.pending - {k});
    if p.handle !in s.handles then t
    else t.(handles := s.handles[p.handle := Forgotten(s.handles[p.handle], p.server)],
            failed := s.failed + {s.handles[p.handle].round})
  }

  /** Reading a map into a handle: an empty value, or none, leaves the handle's map as it is. */
  ghost function Loaded(file: seq<Extent>, value: seq<nat>): seq<Extent> {
    match Unpack(value)
    case None => file
    case Some((es, _)) => es
  }

  function Applying(s: State, h: nat): State
    requires h in s.handles && s.handles[h].phase.Committing?
  {
    var hd := s.handles[h];
    s.(register := Pack(hd.file), log := s.log + [Commit(hd.round, hd.phase.changes)])
  }

  // ---------------------------------------------------------------------------------------------
  // The server
  // ---------------------------------------------------------------------------------------------

  function IndexOf(l: seq<nat>, x: nat): (i: nat)
    requires x in l
    ensures i < |l| && l[i] == x && forall j :: 0 <= j < i ==> l[j] != x
  {
    if l[0] == x then 0 else 1 + IndexOf(l[1..], x)
  }

  function AckOf(m: Update, stored: bool, id: nat): Ack
  {
    var i := if m.server in m.servers then IndexOf(m.servers, m.server) else 0;
    Ack(m.server, m.client, m.nonce + i, if stored then id else NO_BLOCK, m.address,
        if stored then |m.data| else NO_BLOCK, m.round)
  }

  function Copies(m: Update): set<Update>
  {
    if m.servers == [] || m.servers[0] != m.server then {}
    else set i | 1 <= i < |m.servers| :: m.(server := m.servers[i])
  }

  /** process_update: store the data in a new block, forward if this is the master, answer. */
  function Processed(s: State, m: Update, stored: bool): State
  {
    var id := Counter(s.ids, m.server);
    var t := s.(updates := s.updates + Copies(m), acks := s.acks + {AckOf(m, stored, id)});
    if stored then t.(blocks := s.blocks[Location(m.server, id) := m.data], ids := s.ids[m.server := id + 1])
    else t.(refused := true)
  }

  // ---------------------------------------------------------------------------------------------
  // Steps and runs
  // ---------------------------------------------------------------------------------------------

  /** The compare-and-set finds what it expects. */
  predicate Matches(s: State, h: nat) {
    h in s.handles && s.handles[h].phase.Committing? && s.handles[h].phase.expected == s.register
  }

  /**
   A write may start when the one before it on the handle is over, where it leaves no gap. When that one was dropped,
   the handle's map says too little about the file: then the file as it is in the register must reach the address too.
   */
  ghost predicate MayStart(s: State, hd: Handle, address: nat) {
    address <= Length(hd.file)
    && (hd.phase.Idle? || (hd.phase.Dropped? && address <= Length(Loaded([], s.register))))
  }

  /** A write that can get no further: no server is awaited, or the swap or the next read cannot be sent. */
  predicate Stranded(hd: Handle) {
    (hd.phase.Sending? && hd.phase.outstanding == []) || hd.phase.Committing? || hd.phase.Failed?
  }

  /** A handle runs one write at a time, which leaves no gap; the servers of a round are distinct. */
  ghost predicate Enabled(s: State, a: Action) {
    match a
    case Open(h, _) => h !in s.handles
    case Write(h, address, _, servers, sent) =>
      h in s.handles && MayStart(s, s.handles[h], address) && Distinct(servers) && |sent| == |servers|
    case Process(m, stored) => m in s.updates && (stored ==> Counter(s.ids, m.server) < NO_BLOCK)
    case Receive(m, _) => m in s.acks
    case GiveUp(k) => k in s.pending
    case Swap(h) => Matches(s, h)
    case SwapFails(h, applied) =>
      h in s.handles && s.handles[h].phase.Committing? && (applied ==> Matches(s, h))
    case Fetch(h, _) => h in s.handles && s.handles[h].phase.Failed?
    case Retry(h, servers, sent) =>
      h in s.handles && s.handles[h].phase.Fetched? && Distinct(servers) && |sent| == |servers|
    case Drop(h) => h in s.handles && Stranded(s.handles[h])
    case Spend(_, _) => true
  }

  ghost function Next(s: State, a: Action): State
    requires Enabled(s, a)
  {
    match a
    case Open(h, c) => s.(handles := s.handles[h := Handle(c, Loaded([], s.register), Idle, 0, [], 0)])
    case Write(h, address, data, servers, sent) =>
      Sent(s, h, s.handles[h].(address := address, data := data), servers, sent)
    case Process(m, stored) => Processed(s, m, stored)
    case Receive(m, known) => Received(s, m, known)
    case GiveUp(k) => GivenUp(s, k)
    case Swap(h) =>
      Applying(s, h).(handles := s.handles[h := s.handles[h].(phase := Idle)], done := s.done + {s.handles[h].round})
    case SwapFails(h, applied) =>
      var t := if applied then Applying(s, h) else s;
      t.(handles := s.handles[h := s.handles[h].(phase := Failed)])
    case Fetch(h, answered) =>
      var value := if answered then s.register else [];
      s.(handles := s.handles[h := s.handles[h].(phase := Fetched(value))])
    case Retry(h, servers, sent) =>
      var hd := s.handles[h];
      Sent(s, h, hd.(file := Loaded(hd.file, hd.phase.value)), servers, sent)
    case Drop(h) => s.(handles := s.handles[h := s.handles[h].(phase := Dropped)])
    case Spend(c, n) => s.(counters := s.counters[c := Counter(s.counters, c) + n])
  }

  ghost predicate CanRun(s: State, run: seq<Action>)
    decreases |run|
  {
    run == [] || (Enabled(s, run[0]) && CanRun(Next(s, run[0]), run[1..]))
  }

  ghost function Execute(s: State, run: seq<Action>): State
    requires CanRun(s, run)
    decreases |run|
  {
    if run == [] then s else Execute(Next(s, run[0]), run[1..])
  }
}
