/** What holds over every run of the coordinator, restores included. */
module CoordinatorRuns {
  import opened Wrappers
  import opened Barriers
  import opened Coordination

  /** One thing that happens to a coordinator: a command, or a crash after which it is rebuilt from its snapshot. */
  datatype Happening = Do(command: Command) | Restore

  /** Rebuilt from a snapshot: every barrier is unpacked behind a fresh entry, and the cache is generated again. */
  function Rebuilt(w: World): World {
    w.(ackBarrier := Restored(1, w.ackBarrier), stableBarrier := Restored(1, w.stableBarrier),
       checkpointBarrier := Restored(1, w.checkpointBarrier), cached := Some(Live(w)))
  }

  lemma {:induction false} RebuiltKeeps(w: World)
    requires Valid(w)
    ensures Valid(Rebuilt(w)) && Core(Rebuilt(w)) == Core(w)
  {
    RestoreAgain(w.ackBarrier);
    RestoreAgain(w.stableBarrier);
    RestoreAgain(w.checkpointBarrier);
    assert Restored(1, w.ackBarrier)[|w.ackBarrier|] == w.ackBarrier[|w.ackBarrier| - 1];
    assert Restored(1, w.stableBarrier)[|w.stableBarrier|] == w.stableBarrier[|w.stableBarrier| - 1];
    assert Restored(1, w.checkpointBarrier)[|w.checkpointBarrier|] == w.checkpointBarrier[|w.checkpointBarrier| - 1];
  }

  lemma {:induction false} InitialValid()
    ensures Valid(Initial)
  {
    RestoredSturdy(0, Start);
    assert Restored(0, Start) == Start;
  }

  // ---------------------------------------------------------------------------------------------
  // Restores cannot be observed
  // ---------------------------------------------------------------------------------------------

  /** What matters of a state: barriers without what restores left, and a cache only once there is a cluster. */
  function Core(w: World): World {
    w.(ackBarrier := Pruned(w.ackBarrier), stableBarrier := Pruned(w.stableBarrier),
       checkpointBarrier := Pruned(w.checkpointBarrier), cached := if w.cluster == 0 then None else w.cached)
  }

  ghost predicate Alike(w: World, x: World) {
    Valid(w) && Valid(x) && Core(w) == Core(x)
  }

  /** Two states that differ at most in what restores left and in what is cached. */
  ghost predicate SameFace(w: World, x: World) {
    && w.cluster == x.cluster && w.version == x.version && w.flags == x.flags && w.servers == x.servers
    && w.ackThrough == x.ackThrough && w.stableThrough == x.stableThrough && w.checkpoint == x.checkpoint
    && w.checkpointThrough == x.checkpointThrough && w.gcThrough == x.gcThrough
    && Pruned(w.ackBarrier) == Pruned(x.ackBarrier) && Pruned(w.stableBarrier) == Pruned(x.stableBarrier)
    && Pruned(w.checkpointBarrier) == Pruned(x.checkpointBarrier)
  }

  lemma {:induction false} CoreFace(w: World, x: World)
    requires Counting(w) && Counting(x)
    ensures Core(w) == Core(x) <==> SameFace(w, x) && (w.cluster != 0 ==> w.cached == x.cached)
  {
    if Core(w) == Core(x) {
      assert Core(w).cluster == Core(x).cluster && Core(w).version == Core(x).version && Core(w).flags == Core(x).flags;
      assert Core(w).servers == Core(x).servers && Core(w).ackThrough == Core(x).ackThrough;
      assert Core(w).stableThrough == Core(x).stableThrough && Core(w).checkpoint == Core(x).checkpoint;
      assert Core(w).checkpointThrough == Core(x).checkpointThrough && Core(w).gcThrough == Core(x).gcThrough;
      assert Core(w).ackBarrier == Core(x).ackBarrier && Core(w).stableBarrier == Core(x).stableBarrier;
      assert Core(w).checkpointBarrier == Core(x).checkpointBarrier && Core(w).cached == Core(x).cached;
    }
  }

  lemma {:induction false} ReconfiguredAlike(w: World, x: World)
    requires Steady(w) && Steady(x) && SameFace(w, x)
    ensures Standing(w) && Standing(x)
    ensures Reconfigured(w).output == Reconfigured(x).output
    ensures Core(Reconfigured(w).world) == Core(Reconfigured(x).world)
  {
    var v, ids := w.version + 1, Ids(w.servers);
    var ra, rs := AfterIssue(w.ackBarrier, v, ids), AfterIssue(w.stableBarrier, v, ids);
    assert Standing(w) && Standing(x) && Counting(w) && Counting(x);
    assert w.ackThrough <= Min(ra) && w.stableThrough <= Min(rs) by {
      IssueInStep(w.ackThrough, w.ackBarrier, w.version, v, ids);
      IssueInStep(w.stableThrough, w.stableBarrier, w.version, v, ids);
    }
    assert ra == AfterIssue(x.ackBarrier, v, ids) && rs == AfterIssue(x.stableBarrier, v, ids) by {
      IssueClears(w.ackBarrier, v, ids);
      IssueClears(x.ackBarrier, v, ids);
      IssueClears(w.stableBarrier, v, ids);
      IssueClears(x.stableBarrier, v, ids);
    }
    NextSends(w, x, v, ids, ra, rs);
    SameNextFace(w, x, ra, rs);
    NextCore(w, x, v, ids, ra, rs);
  }

  lemma {:induction false} SentByNext(w: World, v: nat, ids: seq<nat>, ra: Barrier, rs: Barrier)
    requires Standing(w) && Counting(w) && v == w.version + 1 && ids == Ids(w.servers)
    requires ra == AfterIssue(w.ackBarrier, v, ids) && rs == AfterIssue(w.stableBarrier, v, ids)
    requires w.ackThrough <= Min(ra) && w.stableThrough <= Min(rs)
    ensures NextConfiguration(w).sent
         == [Broadcast(OnConfig, v)] + Raise(OnAck, w.ackThrough, Min(ra)) + Raise(OnStable, w.stableThrough, Min(rs))
  {
    NextIs(w, ra, rs);
  }

  lemma {:induction false} NextSends(w: World, x: World, v: nat, ids: seq<nat>, ra: Barrier, rs: Barrier)
    requires Standing(w) && Standing(x) && Counting(w) && Counting(x)
    requires v == w.version + 1 == x.version + 1 && ids == Ids(w.servers) == Ids(x.servers)
    requires ra == AfterIssue(w.ackBarrier, v, ids) == AfterIssue(x.ackBarrier, v, ids)
    requires rs == AfterIssue(w.stableBarrier, v, ids) == AfterIssue(x.stableBarrier, v, ids)
    requires w.ackThrough == x.ackThrough <= Min(ra) && w.stableThrough == x.stableThrough <= Min(rs)
    ensures NextConfiguration(w).sent == NextConfiguration(x).sent
  {
    SentByNext(w, v, ids, ra, rs);
    SentByNext(x, v, ids, ra, rs);
  }

  /** What matters of the state after the next configuration. */
  function NextFace(w: World, ra: Barrier, rs: Barrier): World
    requires ra != [] && rs != []
  {
    World(w.cluster, w.version + 1, w.flags, w.servers, Min(ra), Pruned(ra), Min(rs), Pruned(rs),
          w.checkpoint, w.checkpointThrough, w.gcThrough, Pruned(w.checkpointBarrier),
          if w.cluster == 0 then None else Some(Config(w.cluster, w.version + 1, w.flags, w.servers)),
          Conditions(w.version + 1, Min(ra), Min(rs), w.checkpoint, w.checkpointThrough, w.gcThrough))
  }

  lemma {:induction false} CoreOfNext(w: World, v: nat, ids: seq<nat>, ra: Barrier, rs: Barrier)
    requires Standing(w) && Counting(w) && v == w.version + 1 && ids == Ids(w.servers)
    requires ra == AfterIssue(w.ackBarrier, v, ids) && rs == AfterIssue(w.stableBarrier, v, ids)
    requires w.ackThrough <= Min(ra) && w.stableThrough <= Min(rs)
    ensures Core(NextConfiguration(w).world) == NextFace(w, ra, rs)
  {
    NextIs(w, ra, rs);
  }

  lemma {:induction false} SameNextFace(w: World, x: World, ra: Barrier, rs: Barrier)
    requires SameFace(w, x) && ra != [] && rs != []
    ensures NextFace(w, ra, rs) == NextFace(x, ra, rs)
  {
  }

  lemma {:induction false} NextCore(w: World, x: World, v: nat, ids: seq<nat>, ra: Barrier, rs: Barrier)
    requires Standing(w) && Standing(x) && Counting(w) && Counting(x)
    requires v == w.version + 1 == x.version + 1 && ids == Ids(w.servers) == Ids(x.servers)
    requires ra == AfterIssue(w.ackBarrier, v, ids) == AfterIssue(x.ackBarrier, v, ids)
    requires rs == AfterIssue(w.stableBarrier, v, ids) == AfterIssue(x.stableBarrier, v, ids)
    requires w.ackThrough == x.ackThrough <= Min(ra) && w.stableThrough == x.stableThrough <= Min(rs)
    requires NextFace(w, ra, rs) == NextFace(x, ra, rs)
    ensures Core(NextConfiguration(w).world) == Core(NextConfiguration(x).world)
  {
    CoreOfNext(w, v, ids, ra, rs);
    CoreOfNext(x, v, ids, ra, rs);
  }

  lemma {:induction false} AckAlike(w: World, x: World, sid: nat, v: nat)
    requires Alike(w, x)
    ensures Standing(w) && Standing(x)
    ensures AckStep(w, sid, v).output == AckStep(x, sid, v).output
    ensures Core(AckStep(w, sid, v).world) == Core(AckStep(x, sid, v).world)
  {
    CoreFace(w, x);
    PassInStep(w.ackThrough, w.ackBarrier, w.version, v, sid);
    PassInStep(x.ackThrough, x.ackBarrier, x.version, v, sid);
    PassClears(w.ackBarrier, v, sid);
    PassClears(x.ackBarrier, v, sid);
  }

  lemma {:induction false} StableAlike(w: World, x: World, sid: nat, v: nat)
    requires Alike(w, x)
    ensures Standing(w) && Standing(x)
    ensures StableStep(w, sid, v).output == StableStep(x, sid, v).output
    ensures Core(StableStep(w, sid, v).world) == Core(StableStep(x, sid, v).world)
  {
    CoreFace(w, x);
    PassInStep(w.stableThrough, w.stableBarrier, w.version, v, sid);
    PassInStep(x.stableThrough, x.stableBarrier, x.version, v, sid);
    PassClears(w.stableBarrier, v, sid);
    PassClears(x.stableBarrier, v, sid);
  }

  lemma {:induction false} CheckpointAlike(w: World, x: World, sid: nat, v: nat)
    requires Alike(w, x)
    ensures Standing(w) && Standing(x)
    ensures CheckpointStep(w, sid, v).output == CheckpointStep(x, sid, v).output
    ensures Core(CheckpointStep(w, sid, v).world) == Core(CheckpointStep(x, sid, v).world)
  {
    CoreFace(w, x);
    PassInStep(w.checkpointThrough, w.checkpointBarrier, w.checkpoint, v, sid);
    PassInStep(x.checkpointThrough, x.checkpointBarrier, x.checkpoint, v, sid);
    PassClears(w.checkpointBarrier, v, sid);
    PassClears(x.checkpointBarrier, v, sid);
    CheckpointCatches(w, Min(AfterPass(w.checkpointBarrier, v, sid)));
    CheckpointCatches(x, Min(AfterPass(x.checkpointBarrier, v, sid)));
  }

  lemma {:induction false} AlarmAlike(w: World, x: World)
    requires Alike(w, x)
    ensures Standing(w) && Standing(x)
    ensures AlarmStep(w).output == AlarmStep(x).output
    ensures Core(AlarmStep(w).world) == Core(AlarmStep(x).world)
  {
    var n, ids := w.checkpoint + 1, Ids(w.servers);
    var r := AfterIssue(w.checkpointBarrier, n, ids);
    CoreFace(w, x);
    IssueInStep(w.checkpointThrough, w.checkpointBarrier, w.checkpoint, n, ids);
    IssueClears(w.checkpointBarrier, n, ids);
    IssueClears(x.checkpointBarrier, n, ids);
    CheckpointCatches(w, Min(r));
    AlarmIs(w, r, n);
    AlarmIs(x, r, n);
  }

  /** Two outcomes that look the same from outside and keep the same state, restores aside. */
  ghost predicate SameOutcome(a: Outcome, b: Outcome) {
    a.output == b.output && Core(a.world) == Core(b.world)
  }

  lemma {:induction false} SameStart(w: World, x: World)
    requires Alike(w, x)
    ensures Standing(w) && Standing(x) && w.cluster == x.cluster && w.version == x.version
    ensures w.servers == x.servers && w.flags == x.flags && (w.cluster != 0 ==> w.cached == x.cached)
  {
    CoreFace(w, x);
  }

  lemma {:induction false} CheckpointReportAlike(w: World, x: World, sid: nat, config: nat, number: nat)
    requires Alike(w, x) && w.cluster != 0
    ensures var c := CheckpointStable(sid, config, number);
            Standing(w) && Standing(x) && SameOutcome(Step(w, c), Step(x, c))
  {
    SameStart(w, x);
    CheckpointIs(w, sid, config, number);
    CheckpointIs(x, sid, config, number);
    CheckpointAlike(w, x, sid, number);
  }

  lemma {:induction false} ReportAlike(w: World, x: World, c: Command)
    requires Alike(w, x) && w.cluster != 0 && (c.AckConfig? || c.StableConfig? || c.CheckpointStable? || c.Alarm?)
    ensures Standing(w) && Standing(x) && SameOutcome(Step(w, c), Step(x, c))
  {
    SameStart(w, x);
    match c
    case AckConfig(sid, v) =>
      AckIs(w, sid, v);
      AckIs(x, sid, v);
      AckAlike(w, x, sid, v);
    case StableConfig(sid, v) =>
      StableIs(w, sid, v);
      StableIs(x, sid, v);
      StableAlike(w, x, sid, v);
    case CheckpointStable(sid, config, number) =>
      CheckpointReportAlike(w, x, sid, config, number);
    case Alarm =>
      TickIs(w);
      TickIs(x);
      AlarmAlike(w, x);
  }

  lemma {:induction false} ServersAlike(w: World, x: World, l: seq<Server>)
    requires Alike(w, x) && InIdOrder(l)
    ensures var v, y := w.(servers := l), x.(servers := l);
            Standing(v) && Standing(y) && SameOutcome(Reconfigured(v), Reconfigured(y))
  {
    CoreFace(w, x);
    ReconfiguredAlike(w.(servers := l), x.(servers := l));
  }

  lemma {:induction false} ServerAlike(w: World, x: World, c: Command)
    requires Alike(w, x)
    ensures Standing(w) && Standing(x) && SameOutcome(ServerStep(w, c), ServerStep(x, c))
  {
    assert x.servers == w.servers by {
      CoreFace(w, x);
    }
    var d := Decide(w.servers, c);
    if d.Change? {
      assert InIdOrder(d.servers) by {
        DecideChanges(w.servers, c);
      }
      ServersAlike(w, x, d.servers);
    }
  }

  lemma {:induction false} FlagsAlike(w: World, x: World, c: Command)
    requires Alike(w, x) && (c.Initialize? || c.ReadOnly? || c.GetConfig? || w.cluster == 0)
    ensures Standing(w) && Standing(x) && SameOutcome(Step(w, c), Step(x, c))
  {
    CoreFace(w, x);
    if c.Initialize? {
      if w.cluster == 0 {
        ReconfiguredAlike(w.(cluster := c.token), x.(cluster := c.token));
      }
    } else if w.cluster != 0 && c.ReadOnly? {
      var f := ReadOnlyFlags(w.flags, c.on);
      if f != w.flags {
        ReconfiguredAlike(w.(flags := f), x.(flags := f));
      }
    }
  }

  lemma {:induction false} StepAlike(w: World, x: World, c: Command)
    requires Alike(w, x)
    ensures Standing(w) && Standing(x)
    ensures Step(w, c).output == Step(x, c).output && Alike(Step(w, c).world, Step(x, c).world)
  {
    StepKeeps(w, c);
    StepKeeps(x, c);
    CoreFace(w, x);
    if c.Initialize? || c.ReadOnly? || c.GetConfig? || w.cluster == 0 {
      FlagsAlike(w, x, c);
    } else if c.AckConfig? || c.StableConfig? || c.CheckpointStable? || c.Alarm? {
      ReportAlike(w, x, c);
    } else {
      ServerAlike(w, x, c);
    }
  }

  // ---------------------------------------------------------------------------------------------
  // Runs
  // ---------------------------------------------------------------------------------------------

  function Apply(w: World, h: Happening): World {
    match h
    case Restore => Rebuilt(w)
    case Do(c) => if Standing(w) then Step(w, c).world else w
  }

  function Heard(w: World, h: Happening): seq<Output> {
    match h
    case Restore => []
    case Do(c) => if Standing(w) then [Step(w, c).output] else []
  }

  function Front<T>(s: seq<T>): seq<T>
    requires s != []
  {
    s[..|s| - 1]
  }

  function Final<T>(s: seq<T>): T
    requires s != []
  {
    s[|s| - 1]
  }

  function StateAfter(w: World, run: seq<Happening>): World {
    if run == [] then w else Apply(StateAfter(w, Front(run)), Final(run))
  }

  /** Everything clients hear during a run: each reply and each broadcast, in order. */
  function Outputs(w: World, run: seq<Happening>): seq<Output> {
    if run == [] then [] else Outputs(w, Front(run)) + Heard(StateAfter(w, Front(run)), Final(run))
  }

  function WithoutRestores(run: seq<Happening>): seq<Happening> {
    if run == [] then []
    else if Final(run).Restore? then WithoutRestores(Front(run))
    else WithoutRestores(Front(run)) + [Final(run)]
  }

  lemma {:induction false} ApplyKeeps(w: World, h: Happening)
    requires Valid(w)
    ensures Standing(w) && Valid(Apply(w, h))
  {
    match h
    case Restore => RebuiltKeeps(w);
    case Do(c) => StepKeeps(w, c);
  }

  /** The invariant holds in every state of every run. */
  lemma {:induction false} RunKeeps(w: World, run: seq<Happening>)
    requires Valid(w)
    ensures Valid(StateAfter(w, run))
  {
    if run != [] {
      RunKeeps(w, Front(run));
      ApplyKeeps(StateAfter(w, Front(run)), Final(run));
    }
  }

  /** One happening, applied to states that look alike: a restore on the left only, a command on both sides. */
  lemma {:induction false} HeardAlike(v: World, y: World, h: Happening)
    requires Alike(v, y)
    ensures h.Restore? ==> Heard(v, h) == [] && Alike(Apply(v, h), y)
    ensures !h.Restore? ==> Heard(v, h) == Heard(y, h) && Alike(Apply(v, h), Apply(y, h))
  {
    match h
    case Restore => RebuiltKeeps(v);
    case Do(c) => StepAlike(v, y, c);
  }

  lemma {:induction false} RunEndsWith(x: World, run: seq<Happening>, h: Happening)
    ensures StateAfter(x, run + [h]) == Apply(StateAfter(x, run), h)
    ensures Outputs(x, run + [h]) == Outputs(x, run) + Heard(StateAfter(x, run), h)
  {
    assert Front(run + [h]) == run;
  }

  /**
   Restores cannot be observed: a run with crashes and restores anywhere in it produces the replies and broadcasts of
   the same commands without them, and ends with the same cached configuration.
   */
  lemma {:induction false} RestoresInvisible(w: World, x: World, run: seq<Happening>)
    requires Alike(w, x)
    ensures Outputs(w, run) == Outputs(x, WithoutRestores(run))
    ensures Alike(StateAfter(w, run), StateAfter(x, WithoutRestores(run)))
  {
    if run != [] {
      var front, h := Front(run), Final(run);
      RestoresInvisible(w, x, front);
      HeardAlike(StateAfter(w, front), StateAfter(x, WithoutRestores(front)), h);
      if !h.Restore? {
        RunEndsWith(x, WithoutRestores(front), h);
      }
    }
  }

  /**
   The asserts of the source, in every state: no counter runs ahead of what was issued, and checkpoints are collected no
   later than 120 behind.
   */
  lemma {:induction false} AssertsHold(run: seq<Happening>)
    ensures var w := StateAfter(Initial, run);
            && w.conditions.config == w.version && w.conditions.checkpoint == w.checkpoint
            && w.conditions.ack == w.ackThrough <= w.version
            && w.conditions.stable == w.stableThrough <= w.version
            && w.conditions.checkpointStable == w.checkpointThrough <= w.checkpoint
            && w.conditions.gc == w.gcThrough == (if w.checkpointThrough > 120 then w.checkpointThrough - 120 else 0)
            && (w.gcThrough + OUTSTANDING_CHECKPOINTS <= w.checkpoint || w.checkpoint <= OUTSTANDING_CHECKPOINTS)
  {
    InitialValid();
    RunKeeps(Initial, run);
    var w := StateAfter(Initial, run);
    MinBehind(w.ackBarrier);
    MinBehind(w.stableBarrier);
    MinBehind(w.checkpointBarrier);
  }

  // ---------------------------------------------------------------------------------------------
  // Version agreement
  // ---------------------------------------------------------------------------------------------

  /** Versions never go back, and a version belongs to one configuration. */
  ghost predicate Later(w: World, x: World) {
    && w.version <= x.version
    && (w.cluster != 0 ==> x.cluster == w.cluster && (x.version == w.version ==> Live(x) == Live(w)))
  }

  lemma {:induction false} ApplyLater(w: World, h: Happening)
    requires Valid(w)
    ensures Later(w, Apply(w, h))
  {
    match h
    case Restore =>
    case Do(c) => StepKeeps(w, c);
  }

  lemma {:induction false} RunLater(w: World, run: seq<Happening>, i: nat)
    requires Valid(w) && i <= |run|
    ensures Later(StateAfter(w, run[..i]), StateAfter(w, run))
  {
    if i == |run| {
      assert run[..i] == run;
    } else {
      RunLater(w, Front(run), i);
      assert Front(run)[..i] == run[..i];
      RunKeeps(w, Front(run));
      ApplyLater(StateAfter(w, Front(run)), Final(run));
    }
  }

  /** What a client that asks for the configuration after i happenings of a run is told. */
  function AnswerAt(run: seq<Happening>, i: nat): Reply
    requires i <= |run|
  {
    var w := StateAfter(Initial, run[..i]);
    if Standing(w) then Step(w, GetConfig).output.reply else Silent
  }

  /** In any run, two answers with the same version are the same configuration. */
  lemma {:induction false} VersionAgreement(run: seq<Happening>, i: nat, j: nat)
    requires i <= j <= |run|
    requires AnswerAt(run, i).TheConfig? && AnswerAt(run, j).TheConfig?
    requires AnswerAt(run, i).config.version == AnswerAt(run, j).config.version
    ensures AnswerAt(run, i) == AnswerAt(run, j)
  {
    InitialValid();
    RunKeeps(Initial, run[..i]);
    RunKeeps(Initial, run[..j]);
    RunLater(Initial, run[..j], i);
    assert run[..j][..i] == run[..i];
  }

  /** The cached configuration is always the live one. */
  lemma {:induction false} CacheIsLive(run: seq<Happening>)
    ensures var w := StateAfter(Initial, run);
            w.cluster != 0 ==> w.version > 0 && AnswerAt(run, |run|) == TheConfig(Live(w))
  {
    InitialValid();
    RunKeeps(Initial, run);
    assert run[..|run|] == run;
  }

  // ---------------------------------------------------------------------------------------------
  // What the counters mean: the history of the run
  // ---------------------------------------------------------------------------------------------

  /** What one happening adds to the history of checkpoints: one taken, or one reported by a server up to date. */
  function CheckpointEvents(w: World, h: Happening): seq<Event> {
    if h.Restore? || w.cluster == 0 then []
    else if h.command.Alarm? then [Issued(w.checkpoint + 1, Ids(w.servers))]
    else if h.command.CheckpointStable? && h.command.config >= w.version then
      [PassedBy(h.command.number, h.command.server)]
    else []
  }

  /** What one happening adds to the history of configurations: one issued, or one acknowledged. */
  function ConfigEvents(w: World, h: Happening): seq<Event> {
    var x := Apply(w, h);
    if x.version == w.version + 1 then [Issued(x.version, Ids(x.servers))]
    else if h.Do? && w.cluster != 0 && h.command.AckConfig? then [PassedBy(h.command.seen, h.command.server)]
    else []
  }

  function CheckpointHistory(run: seq<Happening>): seq<Event> {
    if run == [] then []
    else CheckpointHistory(Front(run)) + CheckpointEvents(StateAfter(Initial, Front(run)), Final(run))
  }

  function ConfigHistory(run: seq<Happening>): seq<Event> {
    if run == [] then [] else ConfigHistory(Front(run)) + ConfigEvents(StateAfter(Initial, Front(run)), Final(run))
  }

  /** A barrier that has seen a history, restores aside. */
  ghost predicate HasSeen(b: Barrier, h: seq<Event>, newest: nat) {
    Sturdy(b) && InOrder(h) && Newest(h) == newest && Pruned(b) == Replayed(h)
  }

  lemma {:induction false} SeesIssue(b: Barrier, h: seq<Event>, newest: nat, v: nat, servers: seq<nat>)
    requires HasSeen(b, h, newest) && newest < v
    ensures HasSeen(AfterIssue(b, v, servers), h + [Issued(v, servers)], v)
  {
    var h' := h + [Issued(v, servers)];
    assert Init(h') == h && Barriers.Last(h') == Issued(v, servers);
    IssueClears(b, v, servers);
    ReplayedAgrees(h');
    PrunedIdle(Replayed(h'));
    RestoredSturdy(0, Replayed(h'));
    assert Restored(0, Replayed(h')) == Replayed(h');
  }

  lemma {:induction false} SeesPass(b: Barrier, h: seq<Event>, newest: nat, v: nat, sid: nat)
    requires HasSeen(b, h, newest)
    ensures HasSeen(AfterPass(b, v, sid), h + [PassedBy(v, sid)], newest)
  {
    var h' := h + [PassedBy(v, sid)];
    assert Init(h') == h && Barriers.Last(h') == PassedBy(v, sid);
    PassClears(b, v, sid);
  }

  lemma {:induction false} NothingSeen(h: seq<Event>)
    ensures h + [] == h
  {
  }

  lemma {:induction false} CheckpointsSeen(run: seq<Happening>)
    ensures var w := StateAfter(Initial, run); HasSeen(w.checkpointBarrier, CheckpointHistory(run), w.checkpoint)
  {
    InitialValid();
    if run == [] {
      PrunedIdle(Start);
    } else {
      CheckpointsSeen(Front(run));
      RunKeeps(Initial, Front(run));
      CheckpointsSeenStep(StateAfter(Initial, Front(run)), Final(run), CheckpointHistory(Front(run)));
    }
  }

  lemma {:induction false} CheckpointsSeenStep(w: World, e: Happening, h: seq<Event>)
    requires Valid(w) && HasSeen(w.checkpointBarrier, h, w.checkpoint)
    ensures HasSeen(Apply(w, e).checkpointBarrier, h + CheckpointEvents(w, e), Apply(w, e).checkpoint)
  {
    NothingSeen(h);
    if e.Restore? {
      RestoreAgain(w.checkpointBarrier);
    } else {
      CheckpointEffect(w, e.command);
      SeesIssue(w.checkpointBarrier, h, w.checkpoint, w.checkpoint + 1, Ids(w.servers));
      if e.command.CheckpointStable? {
        SeesPass(w.checkpointBarrier, h, w.checkpoint, e.command.number, e.command.server);
      }
    }
  }

  /** What a command does to the checkpoint barrier: a new checkpoint, a report, or nothing. */
  lemma {:induction false} CheckpointEffect(w: World, c: Command)
    requires Standing(w)
    ensures var x := Step(w, c).world;
            if w.cluster != 0 && c.Alarm? then
              x.checkpoint == w.checkpoint + 1
              && x.checkpointBarrier == AfterIssue(w.checkpointBarrier, w.checkpoint + 1, Ids(w.servers))
            else
              x.checkpoint == w.checkpoint
              && x.checkpointBarrier == if w.cluster != 0 && c.CheckpointStable? && c.config >= w.version
                                        then AfterPass(w.checkpointBarrier, c.number, c.server) else w.checkpointBarrier
  {
  }

  /**
   What "stable through" means: it is the greatest checkpoint, 0 or taken, that every server configured when it was
   taken has since reported, under a configuration that was current at the time.
   */
  lemma {:induction false} CheckpointStableIsReported(run: seq<Happening>)
    ensures var (through, h) := (StateAfter(Initial, run).checkpointThrough, CheckpointHistory(run));
            Cleared(h, through) && forall v: nat :: Cleared(h, v) ==> v <= through
  {
    InitialValid();
    RunKeeps(Initial, run);
    CheckpointsSeen(run);
    MinIsGreatestCleared(CheckpointHistory(run));
  }

  lemma {:induction false} ConfigsSeen(run: seq<Happening>)
    ensures HasSeen(StateAfter(Initial, run).ackBarrier, ConfigHistory(run), StateAfter(Initial, run).version)
  {
    InitialValid();
    if run == [] {
      PrunedIdle(Start);
    } else {
      ConfigsSeen(Front(run));
      RunKeeps(Initial, Front(run));
      ConfigsSeenStep(StateAfter(Initial, Front(run)), Final(run), ConfigHistory(Front(run)));
    }
  }

  lemma {:induction false} ConfigsSeenStep(w: World, e: Happening, h: seq<Event>)
    requires Valid(w) && HasSeen(w.ackBarrier, h, w.version)
    ensures HasSeen(Apply(w, e).ackBarrier, h + ConfigEvents(w, e), Apply(w, e).version)
  {
    NothingSeen(h);
    if e.Restore? {
      RestoreAgain(w.ackBarrier);
    } else {
      AckEffect(w, e.command);
      SeesIssue(w.ackBarrier, h, w.version, w.version + 1, Ids(Step(w, e.command).world.servers));
      if e.command.AckConfig? {
        SeesPass(w.ackBarrier, h, w.version, e.command.seen, e.command.server);
      }
    }
  }

  lemma {:induction false} ReconfiguredAck(w: World, x: World)
    requires Standing(w) && x == Reconfigured(w).world
    ensures x.version == w.version + 1 && x.servers == w.servers
    ensures x.ackBarrier == AfterIssue(w.ackBarrier, x.version, Ids(x.servers))
  {
  }

  /** The other two reports and the alarm leave the ack barrier alone. */
  ghost predicate AckUntouched(w: World, x: World) {
    x.version == w.version && x.ackBarrier == w.ackBarrier
  }

  lemma {:induction false} CheckpointsLeaveAck(w: World, sid: nat, v: nat)
    requires Standing(w)
    ensures AckUntouched(w, StableStep(w, sid, v).world)
    ensures AckUntouched(w, CheckpointStep(w, sid, v).world)
    ensures AckUntouched(w, AlarmStep(w).world)
  {
  }

  /** What a command does to the ack barrier: a new version for the new configuration's servers, an ack, or nothing. */
  lemma {:induction false} AckEffect(w: World, c: Command)
    requires Valid(w)
    ensures Standing(w)
    ensures var x := Step(w, c).world;
            if x.version == w.version + 1 then x.ackBarrier == AfterIssue(w.ackBarrier, x.version, Ids(x.servers))
            else x.version == w.version
                 && x.ackBarrier == if w.cluster != 0 && c.AckConfig? then AfterPass(w.ackBarrier, c.seen, c.server)
                                    else w.ackBarrier
  {
    if c.Initialize? {
      if w.cluster == 0 {
        ReconfiguredAck(w.(cluster := c.token), Step(w, c).world);
      }
    } else if w.cluster == 0 {
    } else if c.ReadOnly? {
      var f := ReadOnlyFlags(w.flags, c.on);
      if f != w.flags {
        ReconfiguredAck(w.(flags := f), Step(w, c).world);
      }
    } else if c.StableConfig? {
      CheckpointsLeaveAck(w, c.server, c.seen);
    } else if c.CheckpointStable? {
      CheckpointsLeaveAck(w, c.server, c.number);
    } else if c.Alarm? {
      CheckpointsLeaveAck(w, 0, 0);
    } else if !c.GetConfig? && !c.AckConfig? && Decide(w.servers, c).Change? {
      ReconfiguredAck(w.(servers := Decide(w.servers, c).servers), Step(w, c).world);
    }
  }

  /** What "acked through" means: the greatest version that every server of that configuration has acknowledged. */
  lemma {:induction false} AckedThroughIsAcknowledged(run: seq<Happening>)
    ensures var (through, h) := (StateAfter(Initial, run).ackThrough, ConfigHistory(run));
            Cleared(h, through) && forall v: nat :: Cleared(h, v) ==> v <= through
  {
    InitialValid();
    RunKeeps(Initial, run);
    ConfigsSeen(run);
    MinIsGreatestCleared(ConfigHistory(run));
  }

  // ---------------------------------------------------------------------------------------------
  // The same for the reports that a configuration is stable
  // ---------------------------------------------------------------------------------------------

  function StableEvents(w: World, h: Happening): seq<Event> {
    var x := Apply(w, h);
    if x.version == w.version + 1 then [Issued(x.version, Ids(x.servers))]
    else if h.Do? && w.cluster != 0 && h.command.StableConfig? then [PassedBy(h.command.seen, h.command.server)]
    else []
  }

  function StableHistory(run: seq<Happening>): seq<Event> {
    if run == [] then [] else StableHistory(Front(run)) + StableEvents(StateAfter(Initial, Front(run)), Final(run))
  }

  lemma {:induction false} ReconfiguredStable(w: World, x: World)
    requires Standing(w) && x == Reconfigured(w).world
    ensures x.version == w.version + 1 && x.servers == w.servers
    ensures x.stableBarrier == AfterIssue(w.stableBarrier, x.version, Ids(x.servers))
  {
  }

  ghost predicate StableUntouched(w: World, x: World) {
    x.version == w.version && x.stableBarrier == w.stableBarrier
  }

  lemma {:induction false} OthersLeaveStable(w: World, sid: nat, v: nat)
    requires Standing(w)
    ensures StableUntouched(w, AckStep(w, sid, v).world)
    ensures StableUntouched(w, CheckpointStep(w, sid, v).world)
    ensures StableUntouched(w, AlarmStep(w).world)
  {
  }

  lemma {:induction false} StableEffect(w: World, c: Command)
    requires Valid(w)
    ensures Standing(w)
    ensures var x := Step(w, c).world;
            if x.version == w.version + 1 then x.stableBarrier == AfterIssue(w.stableBarrier, x.version, Ids(x.servers))
            else x.version == w.version
                 && x.stableBarrier ==
                      if w.cluster != 0 && c.StableConfig? then AfterPass(w.stableBarrier, c.seen, c.server)
                      else w.stableBarrier
  {
    if c.Initialize? {
      if w.cluster == 0 {
        ReconfiguredStable(w.(cluster := c.token), Step(w, c).world);
      }
    } else if w.cluster == 0 {
    } else if c.ReadOnly? {
      var f := ReadOnlyFlags(w.flags, c.on);
      if f != w.flags {
        ReconfiguredStable(w.(flags := f), Step(w, c).world);
      }
    } else if c.AckConfig? {
      OthersLeaveStable(w, c.server, c.seen);
    } else if c.CheckpointStable? {
      OthersLeaveStable(w, c.server, c.number);
    } else if c.Alarm? {
      OthersLeaveStable(w, 0, 0);
    } else if !c.GetConfig? && !c.StableConfig? && Decide(w.servers, c).Change? {
      ReconfiguredStable(w.(servers := Decide(w.servers, c).servers), Step(w, c).world);
    }
  }

  lemma {:induction false} StableSeenStep(w: World, e: Happening, h: seq<Event>)
    requires Valid(w) && HasSeen(w.stableBarrier, h, w.version)
    ensures HasSeen(Apply(w, e).stableBarrier, h + StableEvents(w, e), Apply(w, e).version)
  {
    NothingSeen(h);
    if e.Restore? {
      RestoreAgain(w.stableBarrier);
    } else {
      StableEffect(w, e.command);
      SeesIssue(w.stableBarrier, h, w.version, w.version + 1, Ids(Step(w, e.command).world.servers));
      if e.command.StableConfig? {
        SeesPass(w.stableBarrier, h, w.version, e.command.seen, e.command.server);
      }
    }
  }

  lemma {:induction false} StableSeen(run: seq<Happening>)
    ensures HasSeen(StateAfter(Initial, run).stableBarrier, StableHistory(run), StateAfter(Initial, run).version)
  {
    InitialValid();
    if run == [] {
      PrunedIdle(Start);
    } else {
      StableSeen(Front(run));
      RunKeeps(Initial, Front(run));
      StableSeenStep(StateAfter(Initial, Front(run)), Final(run), StableHistory(Front(run)));
    }
  }

  /** The greatest version that every server of that configuration has reported to be stable. */
  lemma {:induction false} StableThroughIsReported(run: seq<Happening>)
    ensures var (through, h) := (StateAfter(Initial, run).stableThrough, StableHistory(run));
            Cleared(h, through) && forall v: nat :: Cleared(h, v) ==> v <= through
  {
    InitialValid();
    RunKeeps(Initial, run);
    StableSeen(run);
    MinIsGreatestCleared(StableHistory(run));
  }
}
