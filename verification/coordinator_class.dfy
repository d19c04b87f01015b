/**
 The coordinator as the program keeps it: an object whose fields each command updates, three barrier objects, and the
 replication layer's context, which counts and records broadcasts. The source's asserts appear as asserts.
 */
module Coordinators {
  import opened Wrappers
  import opened Barriers
  import opened Coordination

  class Context {
    var conditions: Conditions
    var sent: seq<Broadcast>
    var reply: Reply

    constructor ()
      ensures conditions == Conditions(0, 0, 0, 0, 0, 0) && sent == [] && reply == Silent
    {
      conditions, sent, reply := Conditions(0, 0, 0, 0, 0, 0), [], Silent;
    }

    /** A broadcast adds one to its condition and gives back the new value. */
    method Raise(c: Condition) returns (value: nat)
      modifies this
      ensures conditions == Bumped(old(conditions), c) && value == Value(conditions, c)
      ensures sent == old(sent) + [Broadcast(c, value)] && reply == old(reply)
    {
      conditions := Bumped(conditions, c);
      value := Value(conditions, c);
      sent := sent + [Broadcast(c, value)];
    }

    method Respond(r: Reply)
      modifies this
      ensures reply == r && conditions == old(conditions) && sent == old(sent)
    {
      reply := r;
    }
  }

  lemma {:induction false} RaiseOneMore(c: Condition, from: nat, upTo: nat)
    requires from <= upTo
    ensures Coordination.Raise(c, from, upTo + 1) == Coordination.Raise(c, from, upTo) + [Broadcast(c, upTo + 1)]
    decreases upTo - from
  {
    if from < upTo {
      RaiseOneMore(c, from + 1, upTo);
    }
  }

  // ---------------------------------------------------------------------------------------------
  // Sorting by id
  // ---------------------------------------------------------------------------------------------

  /** std::stable_sort by id. */
  function SortById(l: seq<Server>): seq<Server> {
    if l == [] then [] else Placed(l[0], SortById(l[1..]))
  }

  lemma {:induction false} SortSorted(l: seq<Server>)
    requires InIdOrder(l)
    ensures SortById(l) == l
  {
    if l != [] {
      InOrderTail(l);
      SortSorted(l[1..]);
      assert IdsBefore(l, 0, 1);
    }
  }

  lemma {:induction false} PlacedAtEnd(s: Server, l: seq<Server>)
    requires InIdOrder(l + [s])
    ensures Placed(s, l) == l + [s]
  {
    if l != [] {
      assert (l + [s])[1..] == l[1..] + [s];
      InOrderTail(l + [s]);
      PlacedAtEnd(s, l[1..]);
      assert IdsBefore(l + [s], 0, |l|);
    }
  }

  lemma {:induction false} SortBehind(a: seq<Server>, c: seq<Server>)
    requires InIdOrder(a + SortById(c))
    ensures SortById(a + c) == a + SortById(c)
  {
    if a == [] {
      assert a + c == c && a + SortById(c) == SortById(c);
    } else {
      assert (a + c)[1..] == a[1..] + c && (a + SortById(c))[1..] == a[1..] + SortById(c);
      InOrderTail(a + SortById(c));
      SortBehind(a[1..], c);
      assert IdsBefore(a + SortById(c), 0, 1);
    }
  }

  /** Forgetting a server: the last one takes its place, and sorting puts that one back. */
  lemma {:induction false} ForgetSorts(l: seq<Server>, i: nat)
    requires InIdOrder(l) && i < |l|
    ensures SortById(l[i := l[|l| - 1]][..|l| - 1]) == l[..i] + l[i + 1..]
  {
    var n := |l| - 1;
    RemovedInOrder(l, i);
    if i == n {
      assert l[i := l[n]][..n] == l[..i] + l[i + 1..];
      SortSorted(l[..i]);
      assert l[..i] + l[i + 1..] == l[..i];
    } else {
      var b, x := l[i + 1..n], l[n];
      assert l[i + 1..] == b + [x];
      assert l[i := l[n]][..n] == l[..i] + ([x] + b);
      Sublists(l, i + 1);
      SortPrefix(b, x);
      SortBehind(l[..i], [x] + b);
    }
  }

  lemma {:induction false} Sublists(l: seq<Server>, i: nat)
    requires InIdOrder(l) && i <= |l|
    ensures InIdOrder(l[i..])
  {
    forall j, k ensures IdsBefore(l[i..], j, k) {
      assert IdsBefore(l, i + j, i + k);
    }
  }

  lemma {:induction false} SortPrefix(b: seq<Server>, x: Server)
    requires InIdOrder(b + [x])
    ensures SortById([x] + b) == b + [x]
  {
    forall j, k ensures IdsBefore(b, j, k) {
      assert IdsBefore(b + [x], j, k);
    }
    SortSorted(b);
    PlacedAtEnd(x, b);
    assert ([x] + b)[1..] == b;
  }

  lemma {:induction false} PositionIs(l: seq<Server>, sid: nat, i: nat)
    requires i <= |l| && (forall j :: 0 <= j < i ==> l[j].id != sid) && (i < |l| ==> l[i].id == sid)
    ensures Position(l, sid) == i
  {
  }

  lemma {:induction false} PlacedIs(s: Server, l: seq<Server>, i: nat)
    requires i <= |l| && (forall j :: 0 <= j < i ==> l[j].id < s.id) && (i < |l| ==> s.id <= l[i].id)
    ensures Placed(s, l) == l[..i] + [s] + l[i..]
    decreases |l|
  {
    if i > 0 {
      assert forall j :: 0 <= j < i - 1 ==> l[1..][j] == l[j + 1];
      PlacedIs(s, l[1..], i - 1);
    }
  }

  /** What issuing a configuration relies on. */
  ghost predicate FitToConfigure(w: World) {
    && Standing(w) && Counting(w) && InIdOrder(w.servers)
    && w.ackBarrier[|w.ackBarrier| - 1].number == w.version
    && w.stableBarrier[|w.stableBarrier| - 1].number == w.version
  }

  lemma {:induction false} SteadyFit(w: World)
    requires Steady(w)
    ensures FitToConfigure(w)
  {
  }

  /** What taking a checkpoint relies on. */
  ghost predicate FitToCheckpoint(w: World) {
    && Standing(w) && Counting(w) && InIdOrder(w.servers)
    && w.checkpointBarrier[|w.checkpointBarrier| - 1].number == w.checkpoint
    && w.checkpointThrough <= w.checkpoint && w.gcThrough <= GcTarget(w.checkpointThrough)
    && Min(WithCheckpoint(w).checkpointBarrier) <= w.checkpoint + 1
  }

  lemma {:induction false} CheckpointWithin(through: nat, b: Barrier, newest: nat, servers: seq<nat>)
    requires InStep(through, b, newest)
    ensures b != [] && b[|b| - 1].number == newest && through <= newest
    ensures Min(AfterIssue(b, newest + 1, servers)) <= newest + 1
  {
    MinBehind(b);
    IssueInStep(through, b, newest, newest + 1, servers);
  }

  lemma {:induction false} ValidFit(w: World)
    requires Valid(w)
    ensures FitToCheckpoint(w)
  {
    CheckpointWithin(w.checkpointThrough, w.checkpointBarrier, w.checkpoint, Ids(w.servers));
  }

  lemma {:induction false} SentInOrder<T>(a: seq<T>, b: seq<T>, c: seq<T>, d: seq<T>)
    ensures a + b + c + d == a + (b + c + d)
  {
  }

  lemma {:induction false} ForgetDecides(l: seq<Server>, sid: nat, i: nat)
    requires i == Position(l, sid)
    ensures Decide(l, Forget(sid)) == if i == |l| then Keep(NotFound) else Change(l[..i] + l[i + 1..])
    ensures i < |l| ==> l[i].id == sid
  {
  }

  lemma {:induction false} DecideKeeps(l: seq<Server>, c: Command)
    requires InIdOrder(l)
    ensures Decide(l, c).Change? ==> InIdOrder(Decide(l, c).servers)
  {
    if Decide(l, c).Change? {
      DecideChanges(l, c);
    }
  }

  lemma {:induction false} PassFit(w: World, number: nat, sid: nat)
    requires Valid(w)
    ensures w.checkpointThrough <= w.checkpoint && Min(AfterPass(w.checkpointBarrier, number, sid)) <= w.checkpoint
  {
    PassInStep(w.checkpointThrough, w.checkpointBarrier, w.checkpoint, number, sid);
    MinBehind(w.checkpointBarrier);
    MinBehind(AfterPass(w.checkpointBarrier, number, sid));
  }

  class Coordinator {
    var cluster: nat
    var version: nat
    var flags: nat
    var servers: seq<Server>
    var ackThrough: nat
    const ackBarrier: ServerBarrier
    var stableThrough: nat
    const stableBarrier: ServerBarrier
    var checkpoint: nat
    var checkpointThrough: nat
    var gcThrough: nat
    const checkpointBarrier: ServerBarrier
    var latestConfig: Option<Config>
    const ctx: Context

    ghost function Parts(): set<object> {
      {this, ackBarrier, stableBarrier, checkpointBarrier, ctx}
    }

    ghost predicate Distinct() {
      ackBarrier != stableBarrier && ackBarrier != checkpointBarrier && stableBarrier != checkpointBarrier
    }

    ghost function State(): World
      reads this, ackBarrier, stableBarrier, checkpointBarrier, ctx
    {
      World(cluster, version, flags, servers, ackThrough, ackBarrier.versions, stableThrough, stableBarrier.versions,
            checkpoint, checkpointThrough, gcThrough, checkpointBarrier.versions, latestConfig, ctx.conditions)
    }

    /** What is left when a command is done: the specified state, broadcasts and reply. */
    ghost predicate Did(sent: seq<Broadcast>, o: Outcome)
      reads this, ackBarrier, stableBarrier, checkpointBarrier, ctx
    {
      State() == o.world && ctx.sent == sent + o.output.broadcasts && ctx.reply == o.output.reply
    }

    constructor ()
      ensures Distinct() && fresh(Parts()) && State() == Initial && ctx.sent == [] && ctx.reply == Silent
    {
      cluster, version, flags, servers, ackThrough, stableThrough := 0, 0, 0, [], 0, 0;
      checkpoint, checkpointThrough, gcThrough, latestConfig := 0, 0, 0, None;
      ackBarrier := new ServerBarrier();
      stableBarrier := new ServerBarrier();
      checkpointBarrier := new ServerBarrier();
      ctx := new Context();
      new;
      assert ackThrough == Min(ackBarrier.versions);
      assert stableThrough == Min(stableBarrier.versions);
      assert checkpointThrough == Min(checkpointBarrier.versions);
    }

    method CheckAckCondition()
      requires ackBarrier.versions != [] && ctx.conditions.ack == ackThrough && Standing(State())
      modifies this`ackThrough, ctx
      ensures State() == CheckAck(old(State())).world
      ensures ctx.sent == old(ctx.sent) + CheckAck(old(State())).sent && ctx.reply == old(ctx.reply)
    {
      ghost var from := ackThrough;
      var min := ackBarrier.MinVersion();
      while ackThrough < min
        invariant from <= ackThrough <= Caught(from, min)
        invariant ctx.conditions == old(ctx.conditions).(ack := ackThrough) && ctx.reply == old(ctx.reply)
        invariant ctx.sent == old(ctx.sent) + Coordination.Raise(OnAck, from, ackThrough)
        decreases min as int - ackThrough
      {
        RaiseOneMore(OnAck, from, ackThrough);
        var through := ctx.Raise(OnAck);
        ackThrough := through;
      }
    }

    method CheckStableCondition()
      requires ctx.conditions.stable == stableThrough && Standing(State())
      modifies this`stableThrough, ctx
      ensures State() == CheckStable(old(State())).world
      ensures ctx.sent == old(ctx.sent) + CheckStable(old(State())).sent && ctx.reply == old(ctx.reply)
    {
      ghost var from := stableThrough;
      var min := stableBarrier.MinVersion();
      while stableThrough < min
        invariant from <= stableThrough <= Caught(from, min)
        invariant ctx.conditions == old(ctx.conditions).(stable := stableThrough) && ctx.reply == old(ctx.reply)
        invariant ctx.sent == old(ctx.sent) + Coordination.Raise(OnStable, from, stableThrough)
        decreases min as int - stableThrough
      {
        RaiseOneMore(OnStable, from, stableThrough);
        var through := ctx.Raise(OnStable);
        stableThrough := through;
      }
    }

    /** The first loop of check_checkpoint_stable_condition: the stable checkpoints catch up with the barrier. */
    method RaiseCheckpointThrough(min: nat)
      requires ctx.conditions.checkpointStable == checkpointThrough
      modifies this`checkpointThrough, ctx
      ensures checkpointThrough == Caught(old(checkpointThrough), min)
      ensures ctx.conditions == old(ctx.conditions).(checkpointStable := checkpointThrough)
      ensures ctx.sent == old(ctx.sent)
                          + Coordination.Raise(OnCheckpointStable, old(checkpointThrough), checkpointThrough)
      ensures ctx.reply == old(ctx.reply)
    {
      ghost var from := checkpointThrough;
      while checkpointThrough < min
        invariant from <= checkpointThrough <= Caught(from, min)
        invariant ctx.conditions == old(ctx.conditions).(checkpointStable := checkpointThrough)
        invariant ctx.reply == old(ctx.reply)
        invariant ctx.sent == old(ctx.sent) + Coordination.Raise(OnCheckpointStable, from, checkpointThrough)
        decreases min as int - checkpointThrough
      {
        RaiseOneMore(OnCheckpointStable, from, checkpointThrough);
        var through := ctx.Raise(OnCheckpointStable);
        checkpointThrough := through;
      }
    }

    /** Its second loop: the collected checkpoints catch up, 120 behind. */
    method RaiseGcThrough(min: nat)
      requires ctx.conditions.gc == gcThrough
      modifies this`gcThrough, ctx
      ensures gcThrough == Caught(old(gcThrough), GcTarget(min))
      ensures ctx.conditions == old(ctx.conditions).(gc := gcThrough)
      ensures ctx.sent == old(ctx.sent) + Coordination.Raise(OnCheckpointGc, old(gcThrough), gcThrough)
      ensures ctx.reply == old(ctx.reply)
    {
      ghost var from := gcThrough;
      while gcThrough + OUTSTANDING_CHECKPOINTS < min
        invariant from <= gcThrough <= Caught(from, GcTarget(min))
        invariant ctx.conditions == old(ctx.conditions).(gc := gcThrough) && ctx.reply == old(ctx.reply)
        invariant ctx.sent == old(ctx.sent) + Coordination.Raise(OnCheckpointGc, from, gcThrough)
        decreases min as int - gcThrough
      {
        RaiseOneMore(OnCheckpointGc, from, gcThrough);
        var through := ctx.Raise(OnCheckpointGc);
        gcThrough := through;
      }
    }

    method CheckCheckpointStableCondition()
      requires ctx.conditions.checkpointStable == checkpointThrough && ctx.conditions.gc == gcThrough
      requires Standing(State())
      requires checkpointThrough <= checkpoint && Min(checkpointBarrier.versions) <= checkpoint
      requires gcThrough <= GcTarget(checkpointThrough)
      modifies this`checkpointThrough, this`gcThrough, ctx
      ensures State() == CheckCheckpoint(old(State())).world
      ensures ctx.sent == old(ctx.sent) + CheckCheckpoint(old(State())).sent && ctx.reply == old(ctx.reply)
    {
      assert checkpointThrough <= checkpoint;
      var min := checkpointBarrier.MinVersion();
      RaiseCheckpointThrough(min);
      RaiseGcThrough(min);
      assert checkpointThrough <= checkpoint;
      assert gcThrough + OUTSTANDING_CHECKPOINTS <= checkpoint || checkpoint <= OUTSTANDING_CHECKPOINTS;
    }

    /** The ids of the servers. They are in strict id order, so sorting them and dropping duplicates changes nothing. */
    method ServersInConfiguration() returns (sids: seq<nat>)
      requires InIdOrder(servers)
      ensures sids == Ids(servers) && forall i, j :: 0 <= i < j < |sids| ==> sids[i] < sids[j]
    {
      sids := [];
      var it := 0;
      while it != |servers|
        invariant it <= |servers| && |sids| == it && forall j :: 0 <= j < it ==> sids[j] == servers[j].id
      {
        sids := sids + [servers[it].id];
        it := it + 1;
      }
      forall i, j | 0 <= i < j < |sids| ensures sids[i] < sids[j] {
        assert IdsBefore(servers, i, j);
      }
    }

    method GenerateCachedConfiguration()
      modifies this`latestConfig
      ensures latestConfig == Some(Live(State()))
    {
      latestConfig := Some(Config(cluster, version, flags, servers));
    }

    /** The first half of generate_next_configuration: the new version, and its entry in two barriers. */
    method IssueVersion()
      requires Distinct() && FitToConfigure(State())
      modifies this`version, ackBarrier, stableBarrier, ctx
      ensures State() == WithVersion(old(State()))
      ensures ctx.sent == old(ctx.sent) + [Broadcast(OnConfig, version)] && ctx.reply == old(ctx.reply)
    {
      var condState := ctx.Raise(OnConfig);
      version := version + 1;
      assert condState == version;
      var sids := ServersInConfiguration();
      ackBarrier.NewVersion(version, sids);
      stableBarrier.NewVersion(version, sids);
    }

    method GenerateNextConfiguration()
      requires Distinct() && FitToConfigure(State())
      modifies this, ackBarrier, stableBarrier, ctx
      ensures State() == NextConfiguration(old(State())).world
      ensures ctx.sent == old(ctx.sent) + NextConfiguration(old(State())).sent && ctx.reply == old(ctx.reply)
    {
      ghost var w, sent := State(), ctx.sent;
      IssueVersion();
      ghost var w0 := State();
      CheckAckCondition();
      ghost var w1 := State();
      CheckStableCondition();
      ghost var w2 := State();
      GenerateCachedConfiguration();
      assert w1 == CheckAck(w0).world && w2 == CheckStable(w1).world && State() == WithCache(w2);
      SentInOrder(sent, [Broadcast(OnConfig, w0.version)], CheckAck(w0).sent, CheckStable(w1).sent);
    }

    /** The next checkpoint, for the configured servers. */
    method IssueCheckpoint()
      requires Distinct() && FitToCheckpoint(State())
      modifies this`checkpoint, checkpointBarrier, ctx
      ensures State() == WithCheckpoint(old(State())) && ctx.reply == old(ctx.reply)
      ensures ctx.sent == old(ctx.sent) + [Broadcast(OnCheckpoint, State().conditions.checkpoint)]
    {
      var condState := ctx.Raise(OnCheckpoint);
      checkpoint := checkpoint + 1;
      assert condState == checkpoint;
      assert checkpointThrough <= checkpoint;
      var sids := ServersInConfiguration();
      checkpointBarrier.NewVersion(checkpoint, sids);
    }

    method Checkpoint()
      requires Distinct() && FitToCheckpoint(State())
      modifies this`checkpoint, this`checkpointThrough, this`gcThrough, checkpointBarrier, ctx
      ensures State() == TakeCheckpoint(old(State())).world
      ensures ctx.sent == old(ctx.sent) + TakeCheckpoint(old(State())).sent && ctx.reply == old(ctx.reply)
    {
      IssueCheckpoint();
      CheckCheckpointStableCondition();
    }

    /** A command that ends in a new configuration, from the state its edits have led to. */
    method Configure(ghost sent: seq<Broadcast>)
      requires Distinct() && Steady(State()) && ctx.sent == sent
      modifies this, ackBarrier, stableBarrier, ctx
      ensures Standing(old(State())) && Did(sent, Reconfigured(old(State())))
    {
      SteadyFit(State());
      GenerateNextConfiguration();
      ctx.Respond(Success);
    }

    method Init(token: nat)
      requires Distinct() && Valid(State())
      modifies this, ackBarrier, stableBarrier, ctx
      ensures Standing(old(State())) && Did(old(ctx.sent), Step(old(State()), Initialize(token)))
    {
      if cluster != 0 {
        ctx.Respond(Success);
        return;
      }
      cluster := token;
      Configure(ctx.sent);
    }

    method SetFlag(on: bool) returns (changed: bool)
      modifies this`flags
      ensures flags == ReadOnlyFlags(old(flags), on) && changed == (flags != old(flags))
    {
      var oldFlags := flags;
      if on {
        if flags % 2 == 0 {
          flags := flags + 1;
        }
      } else {
        flags := flags - flags % 2;
      }
      changed := oldFlags != flags;
    }

    method SetReadOnly(on: bool)
      requires Distinct() && Valid(State()) && cluster != 0
      modifies this, ackBarrier, stableBarrier, ctx
      ensures Standing(old(State())) && Did(old(ctx.sent), Step(old(State()), ReadOnly(on)))
    {
      ghost var w := State();
      var changed := SetFlag(on);
      assert State() == w.(flags := ReadOnlyFlags(w.flags, on));
      if changed {
        Configure(ctx.sent);
      } else {
        ctx.Respond(Success);
      }
    }

    /** The server's place in the list, or the length when it is not there. */
    method GetServer(sid: nat) returns (i: nat)
      ensures i == Position(servers, sid)
    {
      i := 0;
      while i < |servers|
        invariant i <= |servers| && forall j :: 0 <= j < i ==> servers[j].id != sid
      {
        if servers[i].id == sid {
          PositionIs(servers, sid, i);
          return;
        }
        i := i + 1;
      }
      PositionIs(servers, sid, i);
    }

    /** Append a server, and move it down past those that do not have a lower id. */
    method NewServer(s: Server)
      requires InIdOrder(servers)
      modifies this`servers
      ensures servers == Placed(s, old(servers))
    {
      ghost var l := servers;
      var idx := |servers|;
      servers := servers + [s];
      while idx > 0
        invariant 0 <= idx <= |l| && servers == l[..idx] + [s] + l[idx..]
        invariant idx < |l| ==> s.id <= l[idx].id
        decreases idx
      {
        if servers[idx - 1].id < servers[idx].id {
          break;
        }
        servers := servers[idx - 1 := servers[idx]][idx := servers[idx - 1]];
        idx := idx - 1;
      }
      forall j | 0 <= j < idx ensures l[j].id < s.id {
        assert IdsBefore(l, j, idx - 1);
      }
      PlacedIs(s, l, idx);
    }

    /** A command about one server that has changed the list as decided. */
    method ConfigureServers(ghost w: World, ghost c: Command, ghost sent: seq<Broadcast>)
      requires Distinct() && Valid(w) && w.cluster != 0 && ctx.sent == sent
      requires ServerCommand(c) && Decide(w.servers, c) == Change(servers) && State() == w.(servers := servers)
      modifies this, ackBarrier, stableBarrier, ctx
      ensures Standing(w) && Did(sent, Step(w, c))
    {
      DecideKeeps(w.servers, c);
      ChangeIs(w, c, servers);
      Configure(sent);
    }

    method Answer(r: Reply, ghost c: Command)
      requires Valid(State()) && cluster != 0 && ServerCommand(c) && Decide(servers, c) == Keep(r)
      modifies ctx
      ensures Standing(old(State())) && Did(old(ctx.sent), Step(old(State()), c))
    {
      KeepIs(State(), c, r);
      ctx.Respond(r);
    }

    method ServerRegister(sid: nat, address: nat)
      requires Distinct() && Valid(State()) && cluster != 0
      modifies this, ackBarrier, stableBarrier, ctx
      ensures Standing(old(State())) && Did(old(ctx.sent), Step(old(State()), Register(sid, address)))
    {
      ghost var w := State();
      var i := GetServer(sid);
      if i < |servers| {
        Answer(Duplicate, Register(sid, address));
        return;
      }
      NewServer(Server(sid, ASSIGNED, address));
      ConfigureServers(w, Register(sid, address), ctx.sent);
    }

    method AddressInUse(sid: nat, address: nat) returns (used: bool)
      ensures used == AddressTaken(servers, sid, address)
    {
      var i := 0;
      while i < |servers|
        invariant i <= |servers|
        invariant forall j :: 0 <= j < i ==> !(servers[j].id != sid && servers[j].bindTo == address)
      {
        if servers[i].id != sid && servers[i].bindTo == address {
          return true;
        }
        i := i + 1;
      }
      used := false;
    }

    method ServerOnline(sid: nat, address: Option<nat>)
      requires Distinct() && Valid(State()) && cluster != 0
      modifies this, ackBarrier, stableBarrier, ctx
      ensures Standing(old(State())) && Did(old(ctx.sent), Step(old(State()), Online(sid, address)))
    {
      ghost var w, c := State(), Online(sid, address);
      var i := GetServer(sid);
      if i == |servers| {
        Answer(NotFound, c);
        return;
      }
      if servers[i].state == KILLED {
        Answer(NoCanDo, c);
        return;
      }
      var changed, s := false, servers[i];
      if address.Some? && s.bindTo != address.value {
        var used := AddressInUse(sid, address.value);
        if used {
          Answer(Duplicate, c);
          return;
        }
        s := s.(bindTo := address.value);
        changed := true;
      }
      if s.state != AVAILABLE {
        s := s.(state := AVAILABLE);
        changed := true;
      }
      if changed {
        servers := servers[i := s];
        ConfigureServers(w, c, ctx.sent);
      } else {
        Answer(Success, c);
      }
    }

    method SetState(i: nat, state: ServerState, ghost c: Command)
      requires Distinct() && Valid(State()) && cluster != 0 && i < |servers| && ServerCommand(c)
      requires Decide(servers, c) == Change(servers[i := servers[i].(state := state)])
      modifies this, ackBarrier, stableBarrier, ctx
      ensures Standing(old(State())) && Did(old(ctx.sent), Step(old(State()), c))
    {
      ghost var w := State();
      servers := servers[i := servers[i].(state := state)];
      ConfigureServers(w, c, ctx.sent);
    }

    method ServerOffline(sid: nat)
      requires Distinct() && Valid(State()) && cluster != 0
      modifies this, ackBarrier, stableBarrier, ctx
      ensures Standing(old(State())) && Did(old(ctx.sent), Step(old(State()), Offline(sid)))
    {
      var i := GetServer(sid);
      if i == |servers| {
        Answer(NotFound, Offline(sid));
      } else if servers[i].state == KILLED {
        Answer(NoCanDo, Offline(sid));
      } else if servers[i].state != NOT_AVAILABLE && servers[i].state != SHUTDOWN {
        SetState(i, NOT_AVAILABLE, Offline(sid));
      } else {
        Answer(Success, Offline(sid));
      }
    }

    method ServerShutdown(sid: nat)
      requires Distinct() && Valid(State()) && cluster != 0
      modifies this, ackBarrier, stableBarrier, ctx
      ensures Standing(old(State())) && Did(old(ctx.sent), Step(old(State()), Shutdown(sid)))
    {
      var i := GetServer(sid);
      if i == |servers| {
        Answer(NotFound, Shutdown(sid));
      } else if servers[i].state == KILLED {
        Answer(NoCanDo, Shutdown(sid));
      } else if servers[i].state != SHUTDOWN {
        SetState(i, SHUTDOWN, Shutdown(sid));
      } else {
        Answer(Success, Shutdown(sid));
      }
    }

    method ServerKill(sid: nat)
      requires Distinct() && Valid(State()) && cluster != 0
      modifies this, ackBarrier, stableBarrier, ctx
      ensures Standing(old(State())) && Did(old(ctx.sent), Step(old(State()), Kill(sid)))
    {
      var i := GetServer(sid);
      if i == |servers| {
        Answer(NotFound, Kill(sid));
      } else if servers[i].state != KILLED {
        SetState(i, KILLED, Kill(sid));
      } else {
        Answer(Success, Kill(sid));
      }
    }

    method ServerSuspect(sid: nat)
      requires Distinct() && Valid(State()) && cluster != 0
      modifies this, ackBarrier, stableBarrier, ctx
      ensures Standing(old(State())) && Did(old(ctx.sent), Step(old(State()), Suspect(sid)))
    {
      var i := GetServer(sid);
      if i == |servers| {
        Answer(NotFound, Suspect(sid));
      } else if servers[i].state == SHUTDOWN {
        Answer(Success, Suspect(sid));
      } else if servers[i].state == KILLED {
        Answer(NoCanDo, Suspect(sid));
      } else if servers[i].state != NOT_AVAILABLE {
        SetState(i, NOT_AVAILABLE, Suspect(sid));
      } else {
        Answer(Success, Suspect(sid));
      }
    }

    /** Swap the server with the last one and drop it, wherever it occurs, then sort. */
    method Remove(sid: nat, ghost at: nat)
      requires InIdOrder(servers) && at < |servers| && servers[at].id == sid
      modifies this`servers
      ensures servers == old(servers)[..at] + old(servers)[at + 1..]
    {
      ghost var l := servers;
      var i := 0;
      while i < |servers|
        invariant i <= at ==> servers == l
        invariant i > at ==> servers == l[at := l[|l| - 1]][..|l| - 1]
      {
        assert IdsBefore(l, i, at) && IdsBefore(l, at, i) && IdsBefore(l, at, |l| - 1);
        if servers[i].id == sid {
          var last := |servers| - 1;
          servers := servers[i := servers[last]];
          servers := servers[..last];
        }
        i := i + 1;
      }
      ForgetSorts(l, at);
      servers := SortById(servers);
    }

    method ServerForget(sid: nat)
      requires Distinct() && Valid(State()) && cluster != 0
      modifies this, ackBarrier, stableBarrier, ctx
      ensures Standing(old(State())) && Did(old(ctx.sent), Step(old(State()), Forget(sid)))
    {
      ghost var w := State();
      var at := GetServer(sid);
      ForgetDecides(servers, sid, at);
      if at == |servers| {
        Answer(NotFound, Forget(sid));
        return;
      }
      Remove(sid, at);
      assert State() == w.(servers := servers);
      ConfigureServers(w, Forget(sid), ctx.sent);
    }

    method ConfigGet()
      requires Valid(State()) && cluster != 0
      modifies ctx
      ensures Standing(old(State())) && Did(old(ctx.sent), Step(old(State()), GetConfig))
    {
      assert cluster != 0 && version != 0;
      assert latestConfig.Some?;
      ctx.Respond(TheConfig(latestConfig.value));
    }

    method ConfigAck(sid: nat, seen: nat)
      requires Distinct() && Valid(State()) && cluster != 0 && ctx.reply == Silent
      modifies this, ackBarrier, ctx
      ensures Standing(old(State())) && Did(old(ctx.sent), Step(old(State()), AckConfig(sid, seen)))
    {
      ghost var w := State();
      AckIs(w, sid, seen);
      ackBarrier.Pass(seen, sid);
      assert State() == w.(ackBarrier := AfterPass(w.ackBarrier, seen, sid));
      CheckAckCondition();
    }

    method ConfigStable(sid: nat, seen: nat)
      requires Distinct() && Valid(State()) && cluster != 0 && ctx.reply == Silent
      modifies this, stableBarrier, ctx
      ensures Standing(old(State())) && Did(old(ctx.sent), Step(old(State()), StableConfig(sid, seen)))
    {
      ghost var w := State();
      StableIs(w, sid, seen);
      stableBarrier.Pass(seen, sid);
      assert State() == w.(stableBarrier := AfterPass(w.stableBarrier, seen, sid));
      CheckStableCondition();
    }

    /** Take note of a report, and raise what it allows. */
    method NoteStable(sid: nat, number: nat)
      requires Distinct() && Standing(State()) && Counting(State()) && gcThrough <= GcTarget(checkpointThrough)
      requires checkpointThrough <= checkpoint && Min(AfterPass(checkpointBarrier.versions, number, sid)) <= checkpoint
      modifies this`checkpointThrough, this`gcThrough, checkpointBarrier, ctx
      ensures State() == CheckpointStep(old(State()), sid, number).world && ctx.reply == old(ctx.reply)
      ensures ctx.sent == old(ctx.sent) + CheckpointStep(old(State()), sid, number).output.broadcasts
    {
      ghost var w := State();
      checkpointBarrier.Pass(number, sid);
      assert State() == w.(checkpointBarrier := AfterPass(w.checkpointBarrier, number, sid));
      CheckCheckpointStableCondition();
    }

    method CheckpointStable(sid: nat, config: nat, number: nat)
      requires Distinct() && Valid(State()) && cluster != 0
      modifies this, checkpointBarrier, ctx
      ensures Standing(old(State()))
      ensures Did(old(ctx.sent), Step(old(State()), Command.CheckpointStable(sid, config, number)))
    {
      if config < version {
        ctx.Respond(NoCanDo);
        return;
      }
      ghost var w := State();
      PassFit(w, number, sid);
      CheckpointIs(w, sid, config, number);
      ghost var o := CheckpointStep(w, sid, number);
      NoteStable(sid, number);
      assert State() == o.world;
      ctx.Respond(Success);
      assert State() == o.world;
    }

    method Tick()
      requires Distinct() && Valid(State()) && cluster != 0 && ctx.reply == Silent
      modifies this, checkpointBarrier, ctx
      ensures Standing(old(State())) && Did(old(ctx.sent), Step(old(State()), Alarm))
    {
      ValidFit(State());
      TickIs(State());
      Checkpoint();
    }
  }
}
