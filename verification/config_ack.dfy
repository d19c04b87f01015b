/**
 Acknowledging configurations: the coordinator over its runs, crashes and restores included, the daemons, and a network
 that may delay, duplicate or lose acknowledgements. A message stays in the network for ever; it may be delivered any
 number of times, or never.
 */
module ConfigAcks {
  import opened Barriers
  import opened Coordination
  import opened CoordinatorRuns

  datatype Ack = Ack(server: nat, version: nat)

  /**
   A daemon: the version it has adopted, all those it ever adopted, and the link wrapper's fields: the newest version
   acknowledged, whether that is still to be confirmed, and whether a request is under way.
   */
  datatype Daemon = Daemon(adopted: nat, ever: set<nat>, newest: nat, needed: bool, underWay: bool)

  /** `run` is what has happened to the coordinator so far; its state is the one after that run. */
  datatype State = State(run: seq<Happening>, daemons: map<nat, Daemon>, network: set<Ack>)

  const Fresh: Daemon := Daemon(0, {}, 0, false, false)

  ghost predicate Start(s: State) {
    s.run == [] && s.network == {} && forall d :: d in s.daemons ==> s.daemons[d] == Fresh
  }

  function Coordinator(s: State): World {
    StateAfter(Initial, s.run)
  }

  datatype Action =
    | Coordinate(happening: Happening)           // the coordinator takes any other command, or is restored
    | Receive(daemon: nat, version: nat)         // a daemon's link hands it a configuration
    | Resend(daemon: nat)                        // a daemon sends the acknowledgement it still owes
    | Confirm(daemon: nat, success: bool)        // a daemon hears what became of a request
    | Deliver(ack: Ack)                          // the coordinator takes an acknowledgement

  predicate IsAck(h: Happening) {
    h.Do? && h.command.AckConfig?
  }

  predicate Enabled(s: State, a: Action) {
    match a
    case Coordinate(h) => !IsAck(h)
    case Receive(d, v) => d in s.daemons && 0 < v <= Coordinator(s).version
    case Resend(d) => d in s.daemons
    case Confirm(d, _) => d in s.daemons && s.daemons[d].newest > 0
    case Deliver(m) => m in s.network
  }

  /** ensure_config_ack */
  function Owed(s: State, d: nat): State
    requires d in s.daemons
  {
    var x := s.daemons[d];
    if x.underWay || !x.needed then s
    else s.(daemons := s.daemons[d := x.(underWay := true)], network := s.network + {Ack(d, x.newest)})
  }

  /** The body of the daemon's loop: refuse an older configuration; adopt any other, and acknowledge it if it is new. */
  function Received(s: State, d: nat, v: nat): State
    requires d in s.daemons
  {
    var x := s.daemons[d];
    if v < x.adopted then s
    else
      var y := x.(adopted := v, ever := x.ever + {v});
      if x.newest < v then
        Owed(s.(daemons := s.daemons[d := y.(needed := true, newest := v, underWay := false)]), d)
      else s.(daemons := s.daemons[d := y])
  }

  function Next(s: State, a: Action): State
    requires Enabled(s, a)
  {
    match a
    case Coordinate(h) => s.(run := s.run + [h])
    case Receive(d, v) => Received(s, d, v)
    case Resend(d) => Owed(s, d)
    case Confirm(d, ok) => s.(daemons := s.daemons[d := s.daemons[d].(underWay := false, needed := !ok)])
    case Deliver(m) => s.(run := s.run + [Do(AckConfig(m.server, m.version))])
  }

  // ---------------------------------------------------------------------------------------------
  // The invariant
  // ---------------------------------------------------------------------------------------------

  ghost predicate Adopted(s: State, d: nat, v: nat) {
    d in s.daemons && v in s.daemons[d].ever
  }

  ghost predicate Honest(s: State, m: Ack) {
    m in s.network ==> Adopted(s, m.server, m.version)
  }

  /** Every acknowledgement the coordinator has taken was true. */
  ghost predicate Witnessed(s: State, i: int) {
    0 <= i < |s.run| && IsAck(s.run[i]) ==> Adopted(s, s.run[i].command.server, s.run[i].command.seen)
  }

  ghost predicate Consistent(s: State, d: nat) {
    d in s.daemons ==>
      && (s.daemons[d].newest > 0 ==> s.daemons[d].newest in s.daemons[d].ever)
      && (s.daemons[d].needed ==> s.daemons[d].newest > 0)
  }

  ghost predicate Inv(s: State) {
    && (forall m :: Honest(s, m))
    && (forall i :: Witnessed(s, i))
    && (forall d :: Consistent(s, d))
  }

  lemma {:induction false} StartInv(s: State)
    requires Start(s)
    ensures Inv(s)
  {
  }

  /** What a daemon has adopted once stays adopted, and its current version never goes back. */
  ghost predicate Onward(s: State, t: State, d: nat) {
    d in s.daemons ==>
      d in t.daemons && s.daemons[d].ever <= t.daemons[d].ever && s.daemons[d].adopted <= t.daemons[d].adopted
  }

  lemma {:induction false} NextOnward(s: State, a: Action, d: nat)
    requires Enabled(s, a)
    ensures Onward(s, Next(s, a), d)
  {
  }

  lemma {:induction false} NextInv(s: State, a: Action)
    requires Inv(s) && Enabled(s, a)
    ensures Inv(Next(s, a))
  {
    var t := Next(s, a);
    forall d ensures Consistent(t, d) {
      assert Consistent(s, d);
    }
    forall m ensures Honest(t, m) {
      assert Honest(s, m) && Consistent(s, m.server);
      NextOnward(s, a, m.server);
    }
    forall i ensures Witnessed(t, i) {
      assert Witnessed(s, i);
      if 0 <= i < |s.run| && IsAck(s.run[i]) {
        NextOnward(s, a, s.run[i].command.server);
      } else if a.Deliver? {
        assert Honest(s, a.ack);
      }
    }
  }

  /**
   A daemon that is handed a configuration ignores an older one. It adopts any other; and when it has not acknowledged
   it yet, an acknowledgement is on its way, and owed until it is confirmed.
   */
  lemma {:induction false} AdoptingAcknowledges(s: State, d: nat, v: nat)
    requires Enabled(s, Receive(d, v))
    ensures var t := Next(s, Receive(d, v));
            && t.run == s.run
            && (if v < s.daemons[d].adopted then t == s
                else
                  && d in t.daemons && t.daemons[d].adopted == v && t.daemons[d].ever == s.daemons[d].ever + {v}
                  && (if s.daemons[d].newest < v then
                        t.network == s.network + {Ack(d, v)}
                        && t.daemons[d].newest == v && t.daemons[d].needed && t.daemons[d].underWay
                      else t.network == s.network))
  {
  }

  /** A request that succeeded settles what was owed; one that failed leaves it owed, to be sent again. */
  lemma {:induction false} ConfirmSettles(s: State, d: nat, success: bool)
    requires Enabled(s, Confirm(d, success))
    ensures var t := Next(s, Confirm(d, success));
            && t.run == s.run && t.network == s.network
            && d in t.daemons && t.daemons[d] == s.daemons[d].(underWay := false, needed := !success)
  {
  }

  /** An acknowledgement that is owed and not under way is sent again. */
  lemma {:induction false} OwedIsResent(s: State, d: nat)
    requires Enabled(s, Resend(d))
    ensures var t, x := Next(s, Resend(d)), s.daemons[d];
            && t.run == s.run
            && (if x.needed && !x.underWay then
                  t.network == s.network + {Ack(d, x.newest)} && d in t.daemons && t.daemons[d] == x.(underWay := true)
                else t == s)
  {
  }

  // ---------------------------------------------------------------------------------------------
  // Runs
  // ---------------------------------------------------------------------------------------------

  ghost predicate CanRun(s: State, run: seq<Action>)
    decreases run
  {
    run == [] || (Enabled(s, run[0]) && CanRun(Next(s, run[0]), run[1..]))
  }

  ghost function Run(s: State, run: seq<Action>): State
    requires CanRun(s, run)
    decreases run
  {
    if run == [] then s else Run(Next(s, run[0]), run[1..])
  }

  lemma {:induction false} RunInv(s: State, run: seq<Action>)
    requires Inv(s) && CanRun(s, run)
    ensures Inv(Run(s, run))
    decreases run
  {
    if run != [] {
      NextInv(s, run[0]);
      RunInv(Next(s, run[0]), run[1..]);
    }
  }

  lemma {:induction false} RunOnward(s: State, run: seq<Action>, d: nat)
    requires CanRun(s, run)
    ensures Onward(s, Run(s, run), d)
    decreases run
  {
    if run != [] {
      NextOnward(s, run[0], d);
      RunOnward(Next(s, run[0]), run[1..], d);
    }
  }

  // ---------------------------------------------------------------------------------------------
  // From the coordinator's counter back to the daemons
  // ---------------------------------------------------------------------------------------------

  lemma {:induction false} IssueKnown(h: seq<Event>, i: nat)
    requires i < |h| && h[i].Issued?
    ensures Known(h, h[i].version)
  {
    if i < |h| - 1 {
      IssueKnown(Init(h), i);
    }
  }

  /** A server listed for a version that is no longer outstanding has passed it. */
  lemma {:induction false} PassFound(h: seq<Event>, i: nat, x: nat) returns (j: nat)
    requires InOrder(h) && i < |h| && h[i].Issued? && x in h[i].servers && x !in Outstanding(h, h[i].version)
    ensures j < |h| && h[j] == PassedBy(h[i].version, x)
  {
    if Last(h) == PassedBy(h[i].version, x) {
      j := |h| - 1;
    } else {
      if i < |h| - 1 {
        IssueKnown(Init(h), i);
        KnownBelow(Init(h), h[i].version);
      }
      j := PassFound(Init(h), i, x);
    }
  }

  /** The history of a run up to some point is a prefix of the history of the run. */
  lemma {:induction false} HistoryGrows(run: seq<Happening>, k: nat)
    requires k <= |run|
    ensures ConfigHistory(run[..k]) <= ConfigHistory(run)
  {
    if k == |run| {
      assert run[..k] == run;
    } else {
      HistoryGrows(Front(run), k);
      assert Front(run)[..k] == run[..k];
    }
  }

  /** The configuration in force was issued, to its own servers. */
  lemma {:induction false} LiveWasIssued(run: seq<Happening>)
    ensures var w := StateAfter(Initial, run);
            w.cluster != 0 ==> Issued(w.version, Ids(w.servers)) in ConfigHistory(run)
  {
    if run != [] {
      var w, e := StateAfter(Initial, Front(run)), Final(run);
      LiveWasIssued(Front(run));
      InitialValid();
      RunKeeps(Initial, Front(run));
      if e.Do? {
        StepKeeps(w, e.command);
      }
      var x, h, es := Apply(w, e), ConfigHistory(Front(run)), ConfigEvents(w, e);
      if x.version == w.version + 1 {
        assert es == [Issued(x.version, Ids(x.servers))] && (h + es)[|h|] == es[0];
      } else {
        assert Live(x) == Live(w);
        assert x.cluster == w.cluster && x.version == w.version && x.servers == w.servers;
      }
    }
  }

  /** Every pass in the history is an acknowledgement that the coordinator took. */
  lemma {:induction false} PassIsAck(run: seq<Happening>, j: nat) returns (i: nat)
    requires j < |ConfigHistory(run)| && ConfigHistory(run)[j].PassedBy?
    ensures i < |run| && IsAck(run[i])
    ensures ConfigHistory(run)[j] == PassedBy(run[i].command.seen, run[i].command.server)
  {
    if j < |ConfigHistory(Front(run))| {
      i := PassIsAck(Front(run), j);
    } else {
      i := |run| - 1;
    }
  }

  lemma {:induction false} PassesWereAdopted(s: State, h: seq<Event>, w: nat, servers: seq<nat>, x: nat)
    requires Inv(s) && h == ConfigHistory(s.run) && InOrder(h) && Outstanding(h, w) == {}
    requires Issued(w, servers) in h && x in servers
    ensures Adopted(s, x, w)
  {
    var i :| 0 <= i < |h| && h[i] == Issued(w, servers);
    var j := PassFound(h, i, x);
    var k := PassIsAck(s.run, j);
    assert Witnessed(s, k);
  }

  /** What a client is told is the configuration in force. */
  lemma {:induction false} AnswerIsLive(run: seq<Happening>, k: nat)
    requires k <= |run| && AnswerAt(run, k).TheConfig?
    ensures var w := StateAfter(Initial, run[..k]); w.cluster != 0 && AnswerAt(run, k).config == Live(w)
  {
    CacheIsLive(run[..k]);
    assert run[..k][..k] == run[..k];
  }

  /**
   Main result: in any run, with restores anywhere in it, when the coordinator's acked-through counter stands at w,
   every server of configuration w, as the coordinator has ever given it out, has itself adopted configuration w.
   */
  lemma {:induction false} AckedMeansAdopted(s: State, run: seq<Action>, k: nat, x: nat)
    requires Start(s) && CanRun(s, run) && k <= |Run(s, run).run|
    ensures var t := Run(s, run);
            var (w, answer) := (Coordinator(t).ackThrough, AnswerAt(t.run, k));
            answer.TheConfig? && answer.config.version == w && x in Ids(answer.config.servers) ==> Adopted(t, x, w)
  {
    StartInv(s);
    RunInv(s, run);
    var t := Run(s, run);
    var w, answer := Coordinator(t).ackThrough, AnswerAt(t.run, k);
    if answer.TheConfig? && answer.config.version == w && x in Ids(answer.config.servers) {
      AnswerIsLive(t.run, k);
      LiveWasIssued(t.run[..k]);
      HistoryGrows(t.run, k);
      AckedThroughIsAcknowledged(t.run);
      ConfigsSeen(t.run);
      PassesWereAdopted(t, ConfigHistory(t.run), w, Ids(answer.config.servers), x);
    }
  }
}
