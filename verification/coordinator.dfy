/**
 The coordinator: a replicated state machine over configurations, barriers and checkpoints, together with the counters
 ("conditions") the replication layer keeps for it. Step is one command; Restart is a snapshot followed by a restore.
 */
module Coordination {
  import opened Wrappers
  import opened Barriers

  datatype ServerState = ASSIGNED | NOT_AVAILABLE | AVAILABLE | SHUTDOWN | KILLED

  datatype Server = Server(id: nat, state: ServerState, bindTo: nat)

  datatype Config = Config(cluster: nat, version: nat, flags: nat, servers: seq<Server>)

  datatype Condition = OnConfig | OnAck | OnStable | OnCheckpoint | OnCheckpointStable | OnCheckpointGc

  /** A condition counter and the value a broadcast raised it to. */
  datatype Broadcast = Broadcast(condition: Condition, value: nat)

  datatype Command =
    | Initialize(token: nat)
    | ReadOnly(on: bool)
    | Register(server: nat, bindTo: nat)
    | Online(server: nat, address: Option<nat>)
    | Offline(server: nat)
    | Shutdown(server: nat)
    | Kill(server: nat)
    | Forget(server: nat)
    | Suspect(server: nat)
    | ReportDisconnect(server: nat, seen: nat)
    | GetConfig
    | AckConfig(server: nat, seen: nat)
    | StableConfig(server: nat, seen: nat)
    | CheckpointStable(server: nat, config: nat, number: nat)
    | Alarm

  datatype Reply = Silent | Success | Duplicate | NotFound | Uninitialized | NoCanDo | TheConfig(config: Config)

  datatype Output = Output(reply: Reply, broadcasts: seq<Broadcast>)

  datatype Conditions = Conditions(config: nat, ack: nat, stable: nat, checkpoint: nat, checkpointStable: nat, gc: nat)

  datatype World = World(
    cluster: nat, version: nat, flags: nat, servers: seq<Server>,
    ackThrough: nat, ackBarrier: Barrier, stableThrough: nat, stableBarrier: Barrier,
    checkpoint: nat, checkpointThrough: nat, gcThrough: nat, checkpointBarrier: Barrier,
    cached: Option<Config>, conditions: Conditions)

  const Initial: World :=
    World(0, 0, 0, [], 0, Start, 0, Start, 0, 0, 0, Start, None, Conditions(0, 0, 0, 0, 0, 0))

  const OUTSTANDING_CHECKPOINTS := 120

  // ---------------------------------------------------------------------------------------------
  // The invariant of every run
  // ---------------------------------------------------------------------------------------------

  ghost predicate IdsBefore(l: seq<Server>, i: int, j: int) {
    0 <= i < j < |l| ==> l[i].id < l[j].id
  }

  ghost predicate InIdOrder(l: seq<Server>) {
    forall i, j :: IdsBefore(l, i, j)
  }

  /** A counter stands where its barrier does. The barrier may carry, in front, entries left by restores. */
  ghost predicate InStep(through: nat, b: Barrier, newest: nat) {
    Sturdy(b) && through == Min(Pruned(b)) && b[|b| - 1].number == newest
  }

  function GcTarget(through: nat): nat {
    if through > OUTSTANDING_CHECKPOINTS then through - OUTSTANDING_CHECKPOINTS else 0
  }

  ghost predicate Counting(w: World) {
    w.conditions == Conditions(w.version, w.ackThrough, w.stableThrough, w.checkpoint, w.checkpointThrough, w.gcThrough)
  }

  /** Everything but the cached configuration, which the commands bring up to date last. */
  ghost predicate Steady(w: World) {
    && InIdOrder(w.servers)
    && InStep(w.ackThrough, w.ackBarrier, w.version)
    && InStep(w.stableThrough, w.stableBarrier, w.version)
    && InStep(w.checkpointThrough, w.checkpointBarrier, w.checkpoint)
    && w.gcThrough == GcTarget(w.checkpointThrough)
    && Counting(w)
  }

  ghost predicate Valid(w: World) {
    Steady(w) && (w.cluster != 0 ==> w.version > 0 && w.cached == Some(Live(w)))
  }

  function Live(w: World): Config {
    Config(w.cluster, w.version, w.flags, w.servers)
  }

  // ---------------------------------------------------------------------------------------------
  // Commands
  // ---------------------------------------------------------------------------------------------

  function Value(k: Conditions, c: Condition): nat {
    match c
    case OnConfig => k.config
    case OnAck => k.ack
    case OnStable => k.stable
    case OnCheckpoint => k.checkpoint
    case OnCheckpointStable => k.checkpointStable
    case OnCheckpointGc => k.gc
  }

  function Bumped(k: Conditions, c: Condition): Conditions {
    match c
    case OnConfig => k.(config := k.config + 1)
    case OnAck => k.(ack := k.ack + 1)
    case OnStable => k.(stable := k.stable + 1)
    case OnCheckpoint => k.(checkpoint := k.checkpoint + 1)
    case OnCheckpointStable => k.(checkpointStable := k.checkpointStable + 1)
    case OnCheckpointGc => k.(gc := k.gc + 1)
  }

  /** What a loop of broadcasts emits while it raises a counter. */
  function Raise(c: Condition, from: nat, upTo: nat): seq<Broadcast>
    decreases upTo as int - from
  {
    if from >= upTo then [] else [Broadcast(c, from + 1)] + Raise(c, from + 1, upTo)
  }

  /** Where such a loop leaves the counter. */
  function Caught(counter: nat, target: nat): nat {
    if counter < target then target else counter
  }

  datatype Effect = Effect(world: World, sent: seq<Broadcast>)

  predicate Standing(w: World) {
    w.ackBarrier != [] && w.stableBarrier != [] && w.checkpointBarrier != []
  }

  function CheckAck(w: World): Effect
    requires Standing(w)
  {
    var t := Caught(w.ackThrough, Min(w.ackBarrier));
    Effect(w.(ackThrough := t, conditions := w.conditions.(ack := t)), Raise(OnAck, w.ackThrough, t))
  }

  function CheckStable(w: World): Effect
    requires Standing(w)
  {
    var t := Caught(w.stableThrough, Min(w.stableBarrier));
    Effect(w.(stableThrough := t, conditions := w.conditions.(stable := t)), Raise(OnStable, w.stableThrough, t))
  }

  function CheckCheckpoint(w: World): Effect
    requires Standing(w)
  {
    var t := Caught(w.checkpointThrough, Min(w.checkpointBarrier));
    var g := Caught(w.gcThrough, GcTarget(Min(w.checkpointBarrier)));
    Effect(w.(checkpointThrough := t, gcThrough := g, conditions := w.conditions.(checkpointStable := t, gc := g)),
           Raise(OnCheckpointStable, w.checkpointThrough, t) + Raise(OnCheckpointGc, w.gcThrough, g))
  }

  function Ids(l: seq<Server>): (r: seq<nat>)
    ensures |r| == |l|
  {
    seq(|l|, i requires 0 <= i < |l| => l[i].id)
  }

  function WithVersion(w: World): World {
    w.(version := w.version + 1,
       conditions := w.conditions.(config := w.conditions.config + 1),
       ackBarrier := AfterIssue(w.ackBarrier, w.version + 1, Ids(w.servers)),
       stableBarrier := AfterIssue(w.stableBarrier, w.version + 1, Ids(w.servers)))
  }

  function WithCache(w: World): World {
    w.(cached := Some(Live(w)))
  }

  function NextConfiguration(w: World): Effect
    requires Standing(w)
  {
    var w0 := WithVersion(w);
    var e1 := CheckAck(w0);
    var e2 := CheckStable(e1.world);
    Effect(WithCache(e2.world), [Broadcast(OnConfig, w0.conditions.config)] + e1.sent + e2.sent)
  }

  function WithCheckpoint(w: World): World {
    w.(checkpoint := w.checkpoint + 1,
       conditions := w.conditions.(checkpoint := w.conditions.checkpoint + 1),
       checkpointBarrier := AfterIssue(w.checkpointBarrier, w.checkpoint + 1, Ids(w.servers)))
  }

  function TakeCheckpoint(w: World): Effect
    requires Standing(w)
  {
    var w0 := WithCheckpoint(w);
    var e := CheckCheckpoint(w0);
    Effect(e.world, [Broadcast(OnCheckpoint, w0.conditions.checkpoint)] + e.sent)
  }

  /** The position of the server with this id, or the length. */
  function Position(l: seq<Server>, sid: nat): (i: nat)
    ensures i <= |l|
    ensures forall j :: 0 <= j < i ==> l[j].id != sid
    ensures i < |l| ==> l[i].id == sid
  {
    if l == [] || l[0].id == sid then 0
    else
      var i := Position(l[1..], sid);
      assert forall j :: 1 <= j < 1 + i ==> l[j] == l[1..][j - 1];
      1 + i
  }

  /** A server put in its place in id order. */
  function Placed(s: Server, l: seq<Server>): seq<Server> {
    if l == [] || s.id <= l[0].id then [s] + l else [l[0]] + Placed(s, l[1..])
  }

  function AddressTaken(l: seq<Server>, sid: nat, address: nat): bool {
    exists i :: 0 <= i < |l| && l[i].id != sid && l[i].bindTo == address
  }

  function ReadOnlyFlags(flags: nat, on: bool): nat {
    if on then (if flags % 2 == 0 then flags + 1 else flags) else flags - flags % 2
  }

  datatype Outcome = Outcome(world: World, output: Output)

  function Unchanged(w: World, reply: Reply): Outcome {
    Outcome(w, Output(reply, []))
  }

  function Reconfigured(w: World): Outcome
    requires Standing(w)
  {
    var e := NextConfiguration(w); Outcome(e.world, Output(Success, e.sent))
  }

  /** What a command about one server comes to: an answer alone, or a new list of servers to be configured. */
  datatype Decision = Keep(reply: Reply) | Change(servers: seq<Server>)

  function Decide(l: seq<Server>, c: Command): Decision {
    match c
    case Register(sid, address) =>
      if Position(l, sid) < |l| then Keep(Duplicate) else Change(Placed(Server(sid, ASSIGNED, address), l))
    case Online(sid, address) =>
      var i := Position(l, sid);
      if i == |l| then Keep(NotFound) else DecideOnline(l, i, address)
    case Offline(sid) =>
      var i := Position(l, sid);
      if i == |l| then Keep(NotFound)
      else if l[i].state == KILLED then Keep(NoCanDo)
      else if l[i].state == NOT_AVAILABLE || l[i].state == SHUTDOWN then Keep(Success)
      else Change(l[i := l[i].(state := NOT_AVAILABLE)])
    case Shutdown(sid) =>
      var i := Position(l, sid);
      if i == |l| then Keep(NotFound)
      else if l[i].state == KILLED then Keep(NoCanDo)
      else if l[i].state == SHUTDOWN then Keep(Success)
      else Change(l[i := l[i].(state := SHUTDOWN)])
    case Kill(sid) =>
      var i := Position(l, sid);
      if i == |l| then Keep(NotFound)
      else if l[i].state == KILLED then Keep(Success)
      else Change(l[i := l[i].(state := KILLED)])
    case Forget(sid) =>
      var i := Position(l, sid);
      if i == |l| then Keep(NotFound) else Change(l[..i] + l[i + 1..])
    case Suspect(sid) =>
      var i := Position(l, sid);
      if i == |l| then Keep(NotFound)
      else if l[i].state == SHUTDOWN || l[i].state == NOT_AVAILABLE then Keep(Success)
      else if l[i].state == KILLED then Keep(NoCanDo)
      else Change(l[i := l[i].(state := NOT_AVAILABLE)])
    case _ => Keep(Silent)
  }

  function DecideOnline(l: seq<Server>, i: nat, address: Option<nat>): Decision
    requires i < |l|
  {
    var s := l[i];
    var moves := address.Some? && address.value != s.bindTo;
    if s.state == KILLED then Keep(NoCanDo)
    else if moves && AddressTaken(l, s.id, address.value) then Keep(Duplicate)
    else if !moves && s.state == AVAILABLE then Keep(Success)
    else Change(l[i := Server(s.id, AVAILABLE, if moves then address.value else s.bindTo)])
  }

  function AckStep(w: World, sid: nat, v: nat): Outcome
    requires Standing(w)
  {
    var e := CheckAck(w.(ackBarrier := AfterPass(w.ackBarrier, v, sid)));
    Outcome(e.world, Output(Silent, e.sent))
  }

  function StableStep(w: World, sid: nat, v: nat): Outcome
    requires Standing(w)
  {
    var e := CheckStable(w.(stableBarrier := AfterPass(w.stableBarrier, v, sid)));
    Outcome(e.world, Output(Silent, e.sent))
  }

  function CheckpointStep(w: World, sid: nat, number: nat): Outcome
    requires Standing(w)
  {
    var e := CheckCheckpoint(w.(checkpointBarrier := AfterPass(w.checkpointBarrier, number, sid)));
    Outcome(e.world, Output(Success, e.sent))
  }

  function AlarmStep(w: World): Outcome
    requires Standing(w)
  {
    var e := TakeCheckpoint(w); Outcome(e.world, Output(Silent, e.sent))
  }

  function ServerStep(w: World, c: Command): Outcome
    requires Standing(w)
  {
    var d := Decide(w.servers, c);
    if d.Keep? then Unchanged(w, d.reply) else Reconfigured(w.(servers := d.servers))
  }

  function Step(w: World, c: Command): Outcome
    requires Standing(w)
  {
    if c.Initialize? then
      if w.cluster != 0 then Unchanged(w, Success) else Reconfigured(w.(cluster := c.token))
    else if w.cluster == 0 then Unchanged(w, Uninitialized)
    else if c.ReadOnly? then
      if ReadOnlyFlags(w.flags, c.on) == w.flags then Unchanged(w, Success)
      else Reconfigured(w.(flags := ReadOnlyFlags(w.flags, c.on)))
    else if c.GetConfig? then Unchanged(w, if w.cached.Some? then TheConfig(w.cached.value) else Silent)
    else if c.AckConfig? then AckStep(w, c.server, c.seen)
    else if c.StableConfig? then StableStep(w, c.server, c.seen)
    else if c.CheckpointStable? then
      if c.config < w.version then Unchanged(w, NoCanDo) else CheckpointStep(w, c.server, c.number)
    else if c.Alarm? then AlarmStep(w)
    else ServerStep(w, c)
  }

  // ---------------------------------------------------------------------------------------------
  // What a step is, one kind of command at a time
  // ---------------------------------------------------------------------------------------------

  predicate ServerCommand(c: Command) {
    c.Register? || c.Online? || c.Offline? || c.Shutdown? || c.Kill? || c.Forget? || c.Suspect?
  }

  lemma {:induction false} KeepIs(w: World, c: Command, r: Reply)
    requires Standing(w) && w.cluster != 0 && ServerCommand(c) && Decide(w.servers, c) == Keep(r)
    ensures Step(w, c) == Unchanged(w, r)
  {
  }

  lemma {:induction false} ChangeIs(w: World, c: Command, l: seq<Server>)
    requires Standing(w) && w.cluster != 0 && ServerCommand(c) && Decide(w.servers, c) == Change(l)
    ensures Step(w, c) == Reconfigured(w.(servers := l))
  {
  }

  lemma {:induction false} AckIs(w: World, sid: nat, v: nat)
    requires Standing(w) && w.cluster != 0
    ensures Step(w, AckConfig(sid, v)) == AckStep(w, sid, v)
  {
  }

  lemma {:induction false} StableIs(w: World, sid: nat, v: nat)
    requires Standing(w) && w.cluster != 0
    ensures Step(w, StableConfig(sid, v)) == StableStep(w, sid, v)
  {
  }

  lemma {:induction false} CheckpointIs(w: World, sid: nat, config: nat, number: nat)
    requires Standing(w) && w.cluster != 0
    ensures Step(w, CheckpointStable(sid, config, number))
         == if config < w.version then Unchanged(w, NoCanDo) else CheckpointStep(w, sid, number)
  {
  }

  lemma {:induction false} TickIs(w: World)
    requires Standing(w) && w.cluster != 0
    ensures Step(w, Alarm) == AlarmStep(w)
  {
  }

  // ---------------------------------------------------------------------------------------------
  // Every step keeps the invariant
  // ---------------------------------------------------------------------------------------------

  lemma {:induction false} IssueMoves(through: nat, b: Barrier, newest: nat, v: nat, servers: seq<nat>,
                                      c: Barrier, r: Barrier)
    requires InStep(through, b, newest) && newest < v && c == Pruned(b) && r == AfterIssue(c, v, servers)
    ensures through <= Min(r) <= v && r[|r| - 1].number == v && Shaped(r)
  {
    MinBehind(b);
    IssueShape(c, v, servers);
  }

  lemma {:induction false} ShapedSturdy(r: Barrier)
    requires Shaped(r)
    ensures Sturdy(r) && Pruned(r) == r
  {
    RestoredSturdy(0, r);
    RestoredNone(r);
  }

  lemma {:induction false} IssueInStep(through: nat, b: Barrier, newest: nat, v: nat, servers: seq<nat>)
    requires InStep(through, b, newest) && newest < v
    ensures var r := AfterIssue(b, v, servers);
            && through <= Min(r) <= v
            && Caught(through, Min(r)) == Min(r) && InStep(Min(r), r, v)
  {
    var c := Pruned(b);
    var r := AfterIssue(c, v, servers);
    IssueClears(b, v, servers);
    IssueMoves(through, b, newest, v, servers, c, r);
    ShapedSturdy(r);
    MovesInStep(through, v, r);
  }

  lemma {:induction false} MinBehind(b: Barrier)
    requires Sturdy(b)
    ensures Min(b) <= Min(Pruned(b)) && b[|b| - 1] == Pruned(b)[|Pruned(b)| - 1]
    ensures Min(Pruned(b)) <= b[|b| - 1].number
  {
    MinBelowLast(Pruned(b));
  }

  /** A barrier that did not move, whatever restores left in front of it. */
  lemma {:induction false} StaysInStep(through: nat, b: Barrier, newest: nat, c: Barrier)
    requires InStep(through, b, newest) && c == Pruned(b)
    ensures Caught(through, Min(b)) == through && Caught(through, Min(c)) == through
  {
    MinBehind(b);
  }

  /** A barrier that moved on, and the counter that catches up with it. */
  lemma {:induction false} MovesInStep(through: nat, newest: nat, d: Barrier)
    requires Sturdy(d) && Pruned(d) == d && through <= Min(d) && d[|d| - 1].number == newest
    ensures Caught(through, Min(d)) == Min(d) && InStep(Min(d), d, newest)
  {
  }

  lemma {:induction false} PassMoves(through: nat, b: Barrier, newest: nat, v: nat, sid: nat, c: Barrier, d: Barrier)
    requires InStep(through, b, newest) && c == Pruned(b) && d == AfterPass(c, v, sid)
    ensures through <= Min(d) && d[|d| - 1].number == newest
  {
    MinBehind(b);
    PassShape(c, v, sid);
  }

  lemma {:induction false} PassInStep(through: nat, b: Barrier, newest: nat, v: nat, sid: nat)
    requires InStep(through, b, newest)
    ensures var r := AfterPass(b, v, sid);
            && InStep(Caught(through, Min(r)), r, newest)
            && Caught(through, Min(r)) == Caught(through, Min(AfterPass(Pruned(b), v, sid)))
  {
    var c := Pruned(b);
    var r, d := AfterPass(b, v, sid), AfterPass(c, v, sid);
    PassClears(b, v, sid);
    if r == b {
      StaysInStep(through, b, newest, c);
    } else {
      PassMoves(through, b, newest, v, sid, c, d);
      MovesInStep(through, newest, d);
    }
  }

  /** A new configuration, spelled out. */
  lemma {:induction false} NextIs(w: World, ra: Barrier, rs: Barrier)
    requires Standing(w) && Counting(w)
    requires ra == AfterIssue(w.ackBarrier, w.version + 1, Ids(w.servers))
    requires rs == AfterIssue(w.stableBarrier, w.version + 1, Ids(w.servers))
    requires w.ackThrough <= Min(ra) && w.stableThrough <= Min(rs)
    ensures NextConfiguration(w) == Effect(
              World(w.cluster, w.version + 1, w.flags, w.servers, Min(ra), ra, Min(rs), rs,
                    w.checkpoint, w.checkpointThrough, w.gcThrough, w.checkpointBarrier,
                    Some(Config(w.cluster, w.version + 1, w.flags, w.servers)),
                    Conditions(w.version + 1, Min(ra), Min(rs), w.checkpoint, w.checkpointThrough, w.gcThrough)),
              [Broadcast(OnConfig, w.version + 1)] + Raise(OnAck, w.ackThrough, Min(ra))
              + Raise(OnStable, w.stableThrough, Min(rs)))
  {
  }

  lemma {:induction false} NextKeeps(w: World)
    requires Steady(w)
    ensures Standing(w)
    ensures var n := NextConfiguration(w).world;
            && Valid(n)
            && n.cached == Some(Live(n)) && Live(n) == Config(w.cluster, w.version + 1, w.flags, w.servers)
  {
    var ra := AfterIssue(w.ackBarrier, w.version + 1, Ids(w.servers));
    var rs := AfterIssue(w.stableBarrier, w.version + 1, Ids(w.servers));
    IssueInStep(w.ackThrough, w.ackBarrier, w.version, w.version + 1, Ids(w.servers));
    IssueInStep(w.stableThrough, w.stableBarrier, w.version, w.version + 1, Ids(w.servers));
    NextIs(w, ra, rs);
  }

  lemma {:induction false} PlacedInOrder(s: Server, l: seq<Server>)
    requires InIdOrder(l) && Position(l, s.id) == |l|
    ensures InIdOrder(Placed(s, l))
    ensures forall x :: x in Placed(s, l) <==> x == s || x in l
  {
    if l != [] && l[0].id < s.id {
      InOrderTail(l);
      PositionTail(l, s.id);
      PlacedInOrder(s, l[1..]);
      var r := Placed(s, l[1..]);
      assert Placed(s, l) == [l[0]] + r;
      TailAbove(l);
      Prepended(l[0], r);
    } else if l != [] {
      TailAbove(l);
      assert l[0].id != s.id;
      Prepended(s, l);
    }
  }

  lemma {:induction false} PositionTail(l: seq<Server>, sid: nat)
    requires l != [] && Position(l, sid) == |l|
    ensures Position(l[1..], sid) == |l[1..]|
  {
  }

  lemma {:induction false} InOrderTail(l: seq<Server>)
    requires InIdOrder(l) && l != []
    ensures InIdOrder(l[1..])
  {
    forall i, j ensures IdsBefore(l[1..], i, j) {
      assert IdsBefore(l, i + 1, j + 1);
    }
  }

  lemma {:induction false} TailAbove(l: seq<Server>)
    requires InIdOrder(l) && l != []
    ensures forall x :: x in l[1..] ==> l[0].id < x.id
    ensures forall x :: x in l ==> x == l[0] || x in l[1..]
  {
    forall x | x in l[1..] ensures l[0].id < x.id {
      var k :| 0 <= k < |l[1..]| && l[1..][k] == x;
      assert IdsBefore(l, 0, k + 1);
    }
  }

  lemma {:induction false} Prepended(s: Server, l: seq<Server>)
    requires InIdOrder(l) && forall x :: x in l ==> s.id < x.id
    ensures InIdOrder([s] + l)
  {
    forall i, j ensures IdsBefore([s] + l, i, j) {
      assert IdsBefore(l, i - 1, j - 1);
    }
  }

  lemma {:induction false} ReplacedInOrder(l: seq<Server>, i: nat, s: Server)
    requires InIdOrder(l) && i < |l| && s.id == l[i].id
    ensures InIdOrder(l[i := s])
  {
    var r := l[i := s];
    forall j, k ensures IdsBefore(r, j, k) {
      assert IdsBefore(l, j, k);
    }
  }

  lemma {:induction false} RemovedInOrder(l: seq<Server>, i: nat)
    requires InIdOrder(l) && i < |l|
    ensures InIdOrder(l[..i] + l[i + 1..])
  {
    var r := l[..i] + l[i + 1..];
    forall j, k ensures IdsBefore(r, j, k) {
      assert IdsBefore(l, if j < i then j else j + 1, if k < i then k else k + 1);
    }
  }

  lemma {:induction false} DecideChanges(l: seq<Server>, c: Command)
    requires InIdOrder(l) && Decide(l, c).Change?
    ensures InIdOrder(Decide(l, c).servers) && Decide(l, c).servers != l
  {
    var r := Decide(l, c).servers;
    if c.Register? {
      PlacedInOrder(Server(c.server, ASSIGNED, c.bindTo), l);
      PlacedLonger(Server(c.server, ASSIGNED, c.bindTo), l);
    } else {
      var i := Position(l, c.server);
      if c.Forget? {
        RemovedInOrder(l, i);
      } else {
        ReplacedInOrder(l, i, r[i]);
        assert r[i] != l[i];
      }
    }
  }

  lemma {:induction false} PlacedLonger(s: Server, l: seq<Server>)
    ensures |Placed(s, l)| == |l| + 1
  {
    if l != [] && l[0].id < s.id {
      PlacedLonger(s, l[1..]);
    }
  }

  /** A step leaves the live configuration alone, or gives it the next version because it changed. */
  ghost predicate Evolves(w: World, x: World) {
    || Live(x) == Live(w)
    || (x.version == w.version + 1
        && (w.cluster != 0 ==> x.cluster == w.cluster && (x.flags != w.flags || x.servers != w.servers)))
  }

  lemma {:induction false} CheckpointCatches(w: World, m: nat)
    requires w.gcThrough == GcTarget(w.checkpointThrough)
    ensures Caught(w.gcThrough, GcTarget(m)) == GcTarget(Caught(w.checkpointThrough, m))
  {
  }

  lemma {:induction false} AckRaised(w: World, r: Barrier, t: nat)
    requires Valid(w) && InStep(t, r, w.version)
    ensures Valid(w.(ackBarrier := r, ackThrough := t, conditions := w.conditions.(ack := t)))
  {
  }

  lemma {:induction false} StableRaised(w: World, r: Barrier, t: nat)
    requires Valid(w) && InStep(t, r, w.version)
    ensures Valid(w.(stableBarrier := r, stableThrough := t, conditions := w.conditions.(stable := t)))
  {
  }

  lemma {:induction false} CheckpointRaised(w: World, r: Barrier, t: nat, newest: nat)
    requires Valid(w) && InStep(t, r, newest)
    ensures Valid(w.(checkpoint := newest, checkpointBarrier := r, checkpointThrough := t, gcThrough := GcTarget(t),
                     conditions := w.conditions.(checkpoint := newest, checkpointStable := t, gc := GcTarget(t))))
  {
  }

  lemma {:induction false} AckKeeps(w: World, sid: nat, v: nat)
    requires Valid(w)
    ensures Standing(w) && Valid(AckStep(w, sid, v).world)
  {
    var r := AfterPass(w.ackBarrier, v, sid);
    PassInStep(w.ackThrough, w.ackBarrier, w.version, v, sid);
    AckRaised(w, r, Caught(w.ackThrough, Min(r)));
  }

  lemma {:induction false} StableKeeps(w: World, sid: nat, v: nat)
    requires Valid(w)
    ensures Standing(w) && Valid(StableStep(w, sid, v).world)
  {
    var r := AfterPass(w.stableBarrier, v, sid);
    PassInStep(w.stableThrough, w.stableBarrier, w.version, v, sid);
    StableRaised(w, r, Caught(w.stableThrough, Min(r)));
  }

  lemma {:induction false} CheckpointKeeps(w: World, sid: nat, v: nat)
    requires Valid(w)
    ensures Standing(w) && Valid(CheckpointStep(w, sid, v).world)
  {
    var r := AfterPass(w.checkpointBarrier, v, sid);
    PassInStep(w.checkpointThrough, w.checkpointBarrier, w.checkpoint, v, sid);
    CheckpointCatches(w, Min(r));
    CheckpointRaised(w, r, Caught(w.checkpointThrough, Min(r)), w.checkpoint);
  }

  lemma {:induction false} AlarmIs(w: World, r: Barrier, n: nat)
    requires Standing(w) && Counting(w) && n == w.checkpoint + 1
    requires r == AfterIssue(w.checkpointBarrier, n, Ids(w.servers)) && w.checkpointThrough <= Min(r)
    requires Caught(w.gcThrough, GcTarget(Min(r))) == GcTarget(Min(r))
    ensures AlarmStep(w) == Outcome(
              w.(checkpoint := n, checkpointBarrier := r, checkpointThrough := Min(r), gcThrough := GcTarget(Min(r)),
                 conditions := w.conditions.(checkpoint := n, checkpointStable := Min(r), gc := GcTarget(Min(r)))),
              Output(Silent, [Broadcast(OnCheckpoint, n)] + (Raise(OnCheckpointStable, w.checkpointThrough, Min(r))
                                                            + Raise(OnCheckpointGc, w.gcThrough, GcTarget(Min(r))))))
  {
  }

  lemma {:induction false} AlarmKeeps(w: World)
    requires Valid(w)
    ensures Standing(w) && Valid(AlarmStep(w).world)
  {
    var n := w.checkpoint + 1;
    var r := AfterIssue(w.checkpointBarrier, n, Ids(w.servers));
    IssueInStep(w.checkpointThrough, w.checkpointBarrier, w.checkpoint, n, Ids(w.servers));
    CheckpointCatches(w, Min(r));
    AlarmIs(w, r, n);
    CheckpointRaised(w, r, Min(r), n);
  }

  lemma {:induction false} ReconfiguredKeeps(w: World, x: World)
    requires Steady(w) && Steady(x) && x.version == w.version
    requires w.cluster != 0 ==> x.cluster == w.cluster && (x.flags != w.flags || x.servers != w.servers)
    ensures Valid(Reconfigured(x).world) && Evolves(w, Reconfigured(x).world)
  {
    NextKeeps(x);
  }

  /** Every command keeps the invariant, and steps the version exactly when it changes the configuration. */
  lemma {:induction false} StepKeeps(w: World, c: Command)
    requires Valid(w)
    ensures Standing(w) && Valid(Step(w, c).world) && Evolves(w, Step(w, c).world)
  {
    if c.Initialize? {
      if w.cluster == 0 {
        ReconfiguredKeeps(w, w.(cluster := c.token));
      }
    } else if w.cluster == 0 {
    } else if c.ReadOnly? {
      if ReadOnlyFlags(w.flags, c.on) != w.flags {
        ReconfiguredKeeps(w, w.(flags := ReadOnlyFlags(w.flags, c.on)));
      }
    } else if c.AckConfig? {
      AckKeeps(w, c.server, c.seen);
    } else if c.StableConfig? {
      StableKeeps(w, c.server, c.seen);
    } else if c.CheckpointStable? {
      CheckpointKeeps(w, c.server, c.number);
    } else if c.Alarm? {
      AlarmKeeps(w);
    } else if !c.GetConfig? && Decide(w.servers, c).Change? {
      DecideChanges(w.servers, c);
      ReconfiguredKeeps(w, w.(servers := Decide(w.servers, c).servers));
    }
  }
}
