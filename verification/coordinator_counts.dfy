/**
 What clients hear of a run of the coordinator: each condition is counted up one by one, and nothing else is broadcast;
 and what the commands that are not about one server do.
 */
module CoordinatorCounts {
  import opened Wrappers
  import opened Barriers
  import opened Coordination
  import opened CoordinatorRuns

  // ---------------------------------------------------------------------------------------------
  // Broadcasts
  // ---------------------------------------------------------------------------------------------

  /** The broadcasts take the conditions from k to m: each raises its condition by one, and carries the new value. */
  ghost predicate Counts(k: Conditions, bs: seq<Broadcast>, m: Conditions)
    decreases |bs|
  {
    if bs == [] then k == m
    else
      && bs[0].value == Value(k, bs[0].condition) + 1
      && Counts(Bumped(k, bs[0].condition), bs[1..], m)
  }

  lemma {:induction false} CountsOn(k: Conditions, a: seq<Broadcast>, m: Conditions, b: seq<Broadcast>, n: Conditions)
    requires Counts(k, a, m) && Counts(m, b, n)
    ensures Counts(k, a + b, n)
    decreases |a|
  {
    if a == [] {
      assert a + b == b;
    } else {
      assert (a + b)[1..] == a[1..] + b;
      CountsOn(Bumped(k, a[0].condition), a[1..], m, b, n);
    }
  }

  function WithValue(k: Conditions, c: Condition, v: nat): Conditions {
    match c
    case OnConfig => k.(config := v)
    case OnAck => k.(ack := v)
    case OnStable => k.(stable := v)
    case OnCheckpoint => k.(checkpoint := v)
    case OnCheckpointStable => k.(checkpointStable := v)
    case OnCheckpointGc => k.(gc := v)
  }

  lemma {:induction false} OneCounts(k: Conditions, c: Condition, v: nat)
    requires v == Value(k, c) + 1
    ensures Counts(k, [Broadcast(c, v)], WithValue(k, c, v))
  {
    assert [Broadcast(c, v)][1..] == [];
    assert Bumped(k, c) == WithValue(k, c, v);
  }

  lemma {:induction false} RaiseCounts(k: Conditions, c: Condition, from: nat, upTo: nat)
    requires from == Value(k, c) <= upTo
    ensures Counts(k, Raise(c, from, upTo), WithValue(k, c, upTo))
    decreases upTo - from
  {
    if from < upTo {
      var m := WithValue(k, c, from + 1);
      OneCounts(k, c, from + 1);
      RaiseCounts(m, c, from + 1, upTo);
      CountsOn(k, [Broadcast(c, from + 1)], m, Raise(c, from + 1, upTo), WithValue(k, c, upTo));
    }
  }

  lemma {:induction false} CheckAckCounts(w: World)
    requires Standing(w) && w.conditions.ack == w.ackThrough
    ensures Counts(w.conditions, CheckAck(w).sent, CheckAck(w).world.conditions)
  {
    RaiseCounts(w.conditions, OnAck, w.ackThrough, Caught(w.ackThrough, Min(w.ackBarrier)));
  }

  lemma {:induction false} CheckStableCounts(w: World)
    requires Standing(w) && w.conditions.stable == w.stableThrough
    ensures Counts(w.conditions, CheckStable(w).sent, CheckStable(w).world.conditions)
  {
    RaiseCounts(w.conditions, OnStable, w.stableThrough, Caught(w.stableThrough, Min(w.stableBarrier)));
  }

  lemma {:induction false} CheckCheckpointCounts(w: World)
    requires Standing(w) && w.conditions.checkpointStable == w.checkpointThrough && w.conditions.gc == w.gcThrough
    ensures Counts(w.conditions, CheckCheckpoint(w).sent, CheckCheckpoint(w).world.conditions)
  {
    var t := Caught(w.checkpointThrough, Min(w.checkpointBarrier));
    var g := Caught(w.gcThrough, GcTarget(Min(w.checkpointBarrier)));
    var m := WithValue(w.conditions, OnCheckpointStable, t);
    RaiseCounts(w.conditions, OnCheckpointStable, w.checkpointThrough, t);
    RaiseCounts(m, OnCheckpointGc, w.gcThrough, g);
    CountsOn(w.conditions, Raise(OnCheckpointStable, w.checkpointThrough, t), m,
             Raise(OnCheckpointGc, w.gcThrough, g), WithValue(m, OnCheckpointGc, g));
  }

  lemma {:induction false} NextCounts(w: World)
    requires Standing(w) && Counting(w)
    ensures Counts(w.conditions, Reconfigured(w).output.broadcasts, Reconfigured(w).world.conditions)
  {
    var w0 := WithVersion(w);
    var one := [Broadcast(OnConfig, w0.conditions.config)];
    var e1 := CheckAck(w0);
    var e2 := CheckStable(e1.world);
    OneCounts(w.conditions, OnConfig, w0.conditions.config);
    CheckAckCounts(w0);
    CheckStableCounts(e1.world);
    CountsOn(w.conditions, one, w0.conditions, e1.sent, e1.world.conditions);
    CountsOn(w.conditions, one + e1.sent, e1.world.conditions, e2.sent, e2.world.conditions);
  }

  lemma {:induction false} AlarmCounts(w: World)
    requires Standing(w) && Counting(w)
    ensures Counts(w.conditions, AlarmStep(w).output.broadcasts, AlarmStep(w).world.conditions)
  {
    var w0 := WithCheckpoint(w);
    OneCounts(w.conditions, OnCheckpoint, w0.conditions.checkpoint);
    CheckCheckpointCounts(w0);
    CountsOn(w.conditions, [Broadcast(OnCheckpoint, w0.conditions.checkpoint)], w0.conditions,
             CheckCheckpoint(w0).sent, CheckCheckpoint(w0).world.conditions);
  }

  lemma {:induction false} ReportCounts(w: World, sid: nat, v: nat)
    requires Standing(w) && Counting(w)
    ensures Counts(w.conditions, AckStep(w, sid, v).output.broadcasts, AckStep(w, sid, v).world.conditions)
    ensures Counts(w.conditions, StableStep(w, sid, v).output.broadcasts, StableStep(w, sid, v).world.conditions)
    ensures Counts(w.conditions, CheckpointStep(w, sid, v).output.broadcasts,
                   CheckpointStep(w, sid, v).world.conditions)
  {
    CheckAckCounts(w.(ackBarrier := AfterPass(w.ackBarrier, v, sid)));
    CheckStableCounts(w.(stableBarrier := AfterPass(w.stableBarrier, v, sid)));
    CheckCheckpointCounts(w.(checkpointBarrier := AfterPass(w.checkpointBarrier, v, sid)));
  }

  lemma {:induction false} UnchangedCounts(w: World, r: Reply)
    ensures Counts(w.conditions, Unchanged(w, r).output.broadcasts, Unchanged(w, r).world.conditions)
  {
  }

  /** The commands about one server. */
  lemma {:induction false} ServerCounts(w: World, c: Command)
    requires Valid(w) && w.cluster != 0 && ServerCommand(c)
    ensures Standing(w) && Counts(w.conditions, Step(w, c).output.broadcasts, Step(w, c).world.conditions)
  {
    var d := Decide(w.servers, c);
    if d.Keep? {
      KeepIs(w, c, d.reply);
      UnchangedCounts(w, d.reply);
    } else {
      ChangeIs(w, c, d.servers);
      NextCounts(w.(servers := d.servers));
    }
  }

  lemma {:induction false} StepCounts(w: World, c: Command)
    requires Valid(w)
    ensures Standing(w) && Counts(w.conditions, Step(w, c).output.broadcasts, Step(w, c).world.conditions)
  {
    if w.cluster != 0 && ServerCommand(c) {
      ServerCounts(w, c);
    } else if w.cluster != 0 && (c.AckConfig? || c.StableConfig? || c.CheckpointStable? || c.Alarm?) {
      ReportStepCounts(w, c);
    } else {
      FlagStepCounts(w, c);
    }
  }

  lemma {:induction false} ReportStepCounts(w: World, c: Command)
    requires Standing(w) && Counting(w) && w.cluster != 0
    requires c.AckConfig? || c.StableConfig? || c.CheckpointStable? || c.Alarm?
    ensures Counts(w.conditions, Step(w, c).output.broadcasts, Step(w, c).world.conditions)
  {
    match c
    case AckConfig(sid, v) =>
      AckIs(w, sid, v);
      ReportCounts(w, sid, v);
    case StableConfig(sid, v) =>
      StableIs(w, sid, v);
      ReportCounts(w, sid, v);
    case CheckpointStable(sid, config, v) =>
      CheckpointIs(w, sid, config, v);
      ReportCounts(w, sid, v);
      UnchangedCounts(w, NoCanDo);
    case Alarm =>
      TickIs(w);
      AlarmCounts(w);
  }

  lemma {:induction false} FlagStepCounts(w: World, c: Command)
    requires Standing(w) && Counting(w)
    requires w.cluster == 0 || !(ServerCommand(c) || c.AckConfig? || c.StableConfig? || c.CheckpointStable? || c.Alarm?)
    ensures Counts(w.conditions, Step(w, c).output.broadcasts, Step(w, c).world.conditions)
  {
    if c.Initialize? && w.cluster == 0 {
      NextCounts(w.(cluster := c.token));
    } else if c.ReadOnly? && w.cluster != 0 && ReadOnlyFlags(w.flags, c.on) != w.flags {
      NextCounts(w.(flags := ReadOnlyFlags(w.flags, c.on)));
    }
  }

  /** Everything that is broadcast in a run, in order. */
  function Sent(outputs: seq<Output>): seq<Broadcast> {
    if outputs == [] then [] else Sent(outputs[..|outputs| - 1]) + outputs[|outputs| - 1].broadcasts
  }

  lemma {:induction false} SentOneMore(outputs: seq<Output>, o: Output)
    ensures Sent(outputs + [o]) == Sent(outputs) + o.broadcasts && Sent(outputs + []) == Sent(outputs)
  {
    assert (outputs + [o])[..|outputs|] == outputs && outputs + [] == outputs;
  }

  /**
   Main result on broadcasts: in any run, restores included, what is broadcast takes every condition up from 0 to where
   it stands, one by one.
   */
  lemma {:induction false} BroadcastsCount(run: seq<Happening>)
    ensures Counts(Conditions(0, 0, 0, 0, 0, 0), Sent(Outputs(Initial, run)), StateAfter(Initial, run).conditions)
  {
    if run != [] {
      var w, e := StateAfter(Initial, Front(run)), Final(run);
      BroadcastsCount(Front(run));
      InitialValid();
      RunKeeps(Initial, Front(run));
      HeardCounts(w, e, Outputs(Initial, Front(run)));
    }
  }

  lemma {:induction false} HeardCounts(w: World, e: Happening, before: seq<Output>)
    requires Valid(w) && Counts(Conditions(0, 0, 0, 0, 0, 0), Sent(before), w.conditions)
    ensures Counts(Conditions(0, 0, 0, 0, 0, 0), Sent(before + Heard(w, e)), Apply(w, e).conditions)
  {
    match e
    case Restore =>
      SentOneMore(before, Output(Silent, []));
    case Do(c) =>
      StepCounts(w, c);
      SentOneMore(before, Step(w, c).output);
      CountsOn(Conditions(0, 0, 0, 0, 0, 0), Sent(before), w.conditions, Step(w, c).output.broadcasts,
               Step(w, c).world.conditions);
  }

  // ---------------------------------------------------------------------------------------------
  // The cluster and its flag
  // ---------------------------------------------------------------------------------------------

  /** The first token other than 0 that the coordinator was initialised with; 0 when there was none. */
  function FirstToken(run: seq<Happening>): nat {
    if run == [] then 0
    else if FirstToken(Front(run)) != 0 then FirstToken(Front(run))
    else match Final(run)
      case Do(Initialize(token)) => token
      case _ => 0
  }

  /** Whether the last word on it, once there was a cluster, was that it be read-only. */
  function SaysReadOnly(run: seq<Happening>): bool {
    if run == [] then false
    else match Final(run)
      case Do(ReadOnly(on)) => if FirstToken(Front(run)) != 0 then on else SaysReadOnly(Front(run))
      case _ => SaysReadOnly(Front(run))
  }

  /** Being initialised sets the cluster, once; until then every other command is refused. */
  lemma {:induction false} ClusterStep(w: World, c: Command)
    requires Valid(w)
    ensures Standing(w)
    ensures var o := Step(w, c);
            && o.world.cluster == (if w.cluster == 0 && c.Initialize? then c.token else w.cluster)
            && (c.Initialize? ==> o.output.reply == Success)
            && (w.cluster == 0 && !c.Initialize? ==> o == Outcome(w, Output(Uninitialized, [])))
            && (w.cluster != 0 && c.Initialize? ==> o == Outcome(w, Output(Success, [])))
  {
    StepKeeps(w, c);
    if c.Initialize? && w.cluster == 0 {
      assert Reconfigured(w.(cluster := c.token)).world.cluster == c.token;
    }
  }

  /** The lowest flag is raised and lowered by one command, which leaves the others; every other command leaves all. */
  lemma {:induction false} FlagStep(w: World, c: Command)
    requires Valid(w)
    ensures Standing(w)
    ensures var o := Step(w, c);
            && o.world.flags / 2 == w.flags / 2
            && o.world.flags % 2 == (if w.cluster != 0 && c.ReadOnly? then (if c.on then 1 else 0) else w.flags % 2)
            && (w.cluster != 0 && c.ReadOnly? ==> o.output.reply == Success)
  {
    if w.cluster != 0 && ServerCommand(c) {
      ServerFlags(w, c);
    }
  }

  lemma {:induction false} ServerFlags(w: World, c: Command)
    requires Standing(w) && w.cluster != 0 && ServerCommand(c)
    ensures Step(w, c).world.flags == w.flags
  {
    var d := Decide(w.servers, c);
    if d.Keep? {
      KeepIs(w, c, d.reply);
    } else {
      ChangeIs(w, c, d.servers);
    }
  }

  /** Reports are taken in silence, but for checkpoints, which are answered, and refused under an old configuration. */
  lemma {:induction false} ReportReplies(w: World, sid: nat, config: nat, v: nat)
    requires Standing(w) && w.cluster != 0
    ensures Step(w, AckConfig(sid, v)).output.reply == Silent && Step(w, StableConfig(sid, v)).output.reply == Silent
    ensures Step(w, Alarm).output.reply == Silent
    ensures var o := Step(w, CheckpointStable(sid, config, v));
            if config < w.version then o == Outcome(w, Output(NoCanDo, [])) else o.output.reply == Success
  {
    AckIs(w, sid, v);
    StableIs(w, sid, v);
    CheckpointIs(w, sid, config, v);
    TickIs(w);
  }

  /** In any run, restores included: the cluster is the first token, and the flag is what was said last about it. */
  lemma {:induction false} ClusterAndFlag(run: seq<Happening>)
    ensures var w := StateAfter(Initial, run);
            w.cluster == FirstToken(run) && (w.flags % 2 == 1 <==> SaysReadOnly(run))
  {
    if run != [] {
      var w := StateAfter(Initial, Front(run));
      ClusterAndFlag(Front(run));
      InitialValid();
      RunKeeps(Initial, Front(run));
      match Final(run)
      case Restore =>
      case Do(c) =>
        ClusterStep(w, c);
        FlagStep(w, c);
    }
  }
}
