/** What becomes of servers over a run of the coordinator. */
module ServerFates {
  import opened Wrappers
  import opened Barriers
  import opened Coordination
  import opened CoordinatorRuns

  /** The server a command is about. (Commands that are about none never change the list.) */
  function Subject(c: Command): nat {
    match c
    case Register(sid, _) => sid
    case Online(sid, _) => sid
    case Offline(sid) => sid
    case Shutdown(sid) => sid
    case Kill(sid) => sid
    case Forget(sid) => sid
    case Suspect(sid) => sid
    case _ => 0
  }

  lemma {:induction false} InPlaced(s: Server, l: seq<Server>, x: Server)
    ensures x in Placed(s, l) <==> x == s || x in l
  {
    if l != [] && l[0].id < s.id {
      InPlaced(s, l[1..], x);
      assert x in l <==> x == l[0] || x in l[1..];
    }
  }

  lemma {:induction false} InReplaced(l: seq<Server>, i: nat, s: Server, x: Server)
    requires i < |l| && l[i].id == s.id && x.id != s.id
    ensures x in l[i := s] <==> x in l
  {
    var r := l[i := s];
    if x in l {
      var k :| 0 <= k < |l| && l[k] == x;
      assert r[k] == x;
    }
  }

  lemma {:induction false} InRemoved(l: seq<Server>, i: nat, x: Server)
    requires i < |l| && x.id != l[i].id
    ensures x in l[..i] + l[i + 1..] <==> x in l
  {
    var r := l[..i] + l[i + 1..];
    if x in l {
      var k :| 0 <= k < |l| && l[k] == x;
      assert r[if k < i then k else k - 1] == x;
    }
  }

  /** A command touches no server but the one it is about. */
  lemma {:induction false} OthersUntouched(l: seq<Server>, c: Command, x: Server)
    requires Decide(l, c).Change? && x.id != Subject(c)
    ensures x in Decide(l, c).servers <==> x in l
  {
    var r, i := Decide(l, c).servers, Position(l, Subject(c));
    if c.Register? {
      InPlaced(Server(c.server, ASSIGNED, c.bindTo), l, x);
    } else if c.Forget? {
      InRemoved(l, i, x);
    } else {
      assert r == l[i := r[i]];
      InReplaced(l, i, r[i], x);
    }
  }

  lemma {:induction false} OneRecord(l: seq<Server>, s: Server)
    requires InIdOrder(l) && s in l
    ensures Position(l, s.id) < |l| && l[Position(l, s.id)] == s
  {
    var k :| 0 <= k < |l| && l[k] == s;
    var i := Position(l, s.id);
    assert IdsBefore(l, i, k) && IdsBefore(l, k, i);
  }

  /** A killed server stays as it is, whatever the command, unless it is forgotten. */
  lemma {:induction false} KilledStays(l: seq<Server>, c: Command, s: Server)
    requires InIdOrder(l) && s in l && s.state == KILLED && c != Forget(s.id)
    ensures Decide(l, c).Change? ==> s in Decide(l, c).servers
  {
    if Decide(l, c).Change? {
      if s.id == Subject(c) {
        OneRecord(l, s);
      } else {
        OthersUntouched(l, c, s);
      }
    }
  }

  /** The other commands leave the list alone. */
  lemma {:induction false} ElseUntouched(w: World, c: Command)
    requires Standing(w) && (w.cluster == 0 || !ServerCommand(c))
    ensures Step(w, c).world.servers == w.servers
  {
  }

  lemma {:induction false} ChangeServers(w: World, c: Command, l: seq<Server>)
    requires Standing(w) && w.cluster != 0 && ServerCommand(c) && Decide(w.servers, c) == Change(l)
    ensures Step(w, c).world.servers == l
  {
    ChangeIs(w, c, l);
  }

  lemma {:induction false} StepServers(w: World, c: Command)
    requires Standing(w)
    ensures Step(w, c).world.servers ==
              if w.cluster != 0 && ServerCommand(c) && Decide(w.servers, c).Change? then Decide(w.servers, c).servers
              else w.servers
  {
    if w.cluster == 0 || !ServerCommand(c) {
      ElseUntouched(w, c);
    } else {
      var d := Decide(w.servers, c);
      if d.Keep? {
        KeepIs(w, c, d.reply);
      } else {
        ChangeServers(w, c, d.servers);
      }
    }
  }

  /** In any run, restores included: once killed, a server keeps its record, and so its state, until it is forgotten. */
  lemma {:induction false} KilledForGood(w: World, run: seq<Happening>, s: Server)
    requires Valid(w) && s in w.servers && s.state == KILLED
    requires forall k :: 0 <= k < |run| ==> run[k] != Do(Forget(s.id))
    ensures s in StateAfter(w, run).servers
  {
    if run != [] {
      KilledForGood(w, Front(run), s);
      RunKeeps(w, Front(run));
      var v := StateAfter(w, Front(run));
      match Final(run)
      case Restore =>
      case Do(c) =>
        StepServers(v, c);
        KilledStays(v.servers, c, s);
    }
  }

  // ---------------------------------------------------------------------------------------------
  // What each command does to the server it is about
  // ---------------------------------------------------------------------------------------------

  function Record(l: seq<Server>, sid: nat): Option<Server> {
    if Position(l, sid) < |l| then Some(l[Position(l, sid)]) else None
  }

  lemma {:induction false} RecordIs(l: seq<Server>, s: Server)
    requires InIdOrder(l) && s in l
    ensures Record(l, s.id) == Some(s)
  {
    OneRecord(l, s);
  }

  lemma {:induction false} NoRecord(l: seq<Server>, sid: nat)
    requires forall i :: 0 <= i < |l| ==> l[i].id != sid
    ensures Record(l, sid) == None
  {
  }

  /** A command that is answered and changes nothing. */
  lemma {:induction false} KeptRecord(w: World, c: Command, r: Reply)
    requires Valid(w) && w.cluster != 0 && ServerCommand(c) && Decide(w.servers, c) == Keep(r)
    ensures Standing(w) && Step(w, c).world.servers == w.servers && Step(w, c).output.reply == r
  {
    KeepIs(w, c, r);
  }

  /** A command that leaves the server with the record s. */
  lemma {:induction false} ChangedRecord(w: World, c: Command, l: seq<Server>, s: Server)
    requires Valid(w) && w.cluster != 0 && ServerCommand(c) && Decide(w.servers, c) == Change(l) && s in l
    ensures Standing(w) && Record(Step(w, c).world.servers, s.id) == Some(s) && Step(w, c).output.reply == Success
  {
    DecideChanges(w.servers, c);
    ChangeIs(w, c, l);
    ChangeServers(w, c, l);
    RecordIs(l, s);
  }

  /** The same, when the record is replaced in its place. */
  lemma {:induction false} ReplacedRecord(w: World, c: Command, i: nat, s: Server)
    requires Valid(w) && w.cluster != 0 && ServerCommand(c) && i < |w.servers|
    requires Decide(w.servers, c) == Change(w.servers[i := s])
    ensures Standing(w) && Record(Step(w, c).world.servers, s.id) == Some(s) && Step(w, c).output.reply == Success
  {
    assert w.servers[i := s][i] == s;
    ChangedRecord(w, c, w.servers[i := s], s);
  }

  /** Registering a new server files it as assigned, under its address; a known one is a duplicate. */
  lemma {:induction false} RegisterFate(w: World, sid: nat, address: nat)
    requires Valid(w) && w.cluster != 0
    ensures Standing(w)
    ensures var o, before := Step(w, Register(sid, address)), Record(w.servers, sid);
            if before == None then
              Record(o.world.servers, sid) == Some(Server(sid, ASSIGNED, address)) && o.output.reply == Success
            else o.world.servers == w.servers && o.output.reply == Duplicate
  {
    var c, s := Register(sid, address), Server(sid, ASSIGNED, address);
    if Position(w.servers, sid) < |w.servers| {
      KeptRecord(w, c, Duplicate);
    } else {
      InPlaced(s, w.servers, s);
      ChangedRecord(w, c, Placed(s, w.servers), s);
    }
  }

  /**
   Bringing a server online makes it available, at the address named, if any; unless it is unknown, killed, or the
   address is new to it and another server has it.
   */
  lemma {:induction false} OnlineFate(w: World, sid: nat, address: Option<nat>)
    requires Valid(w) && w.cluster != 0
    ensures Standing(w)
    ensures var o, before := Step(w, Online(sid, address)), Record(w.servers, sid);
            if before == None then o.world.servers == w.servers && o.output.reply == NotFound
            else if before.value.state == KILLED then o.world.servers == w.servers && o.output.reply == NoCanDo
            else if address.Some? && address.value != before.value.bindTo
                    && exists x :: x in w.servers && x.id != sid && x.bindTo == address.value then
              o.world.servers == w.servers && o.output.reply == Duplicate
            else
              var to := if address.Some? then address.value else before.value.bindTo;
              Record(o.world.servers, sid) == Some(Server(sid, AVAILABLE, to)) && o.output.reply == Success
  {
    var c, i := Online(sid, address), Position(w.servers, sid);
    if i == |w.servers| {
      KeptRecord(w, c, NotFound);
    } else {
      var s := w.servers[i];
      var d := DecideOnline(w.servers, i, address);
      assert s in w.servers;
      OnlineDecides(w.servers, i, address);
      if d.Keep? {
        KeptRecord(w, c, d.reply);
      } else {
        var to := if address.Some? then address.value else s.bindTo;
        ReplacedRecord(w, c, i, Server(sid, AVAILABLE, to));
      }
    }
  }

  lemma {:induction false} OnlineDecides(l: seq<Server>, i: nat, address: Option<nat>)
    requires i < |l|
    ensures var s, d := l[i], DecideOnline(l, i, address);
            if s.state == KILLED then d == Keep(NoCanDo)
            else if address.Some? && address.value != s.bindTo
                    && exists x :: x in l && x.id != s.id && x.bindTo == address.value then d == Keep(Duplicate)
            else
              var to := if address.Some? then address.value else s.bindTo;
              d == (if s.state == AVAILABLE && to == s.bindTo then Keep(Success)
                    else Change(l[i := Server(s.id, AVAILABLE, to)]))
  {
    if address.Some? {
      if AddressTaken(l, l[i].id, address.value) {
        var k :| 0 <= k < |l| && l[k].id != l[i].id && l[k].bindTo == address.value;
        assert l[k] in l;
      } else {
        forall x | x in l && x.id != l[i].id ensures x.bindTo != address.value {
          var k :| 0 <= k < |l| && l[k] == x;
        }
      }
    }
  }

  /** A server that goes offline, or is suspected, is not available any more, unless it is shut down or killed. */
  lemma {:induction false} OutageFate(w: World, sid: nat, c: Command)
    requires Valid(w) && w.cluster != 0 && (c == Offline(sid) || c == Suspect(sid))
    ensures Standing(w)
    ensures var o, before := Step(w, c), Record(w.servers, sid);
            if before == None then o.world.servers == w.servers && o.output.reply == NotFound
            else if before.value.state == KILLED then o.world.servers == w.servers && o.output.reply == NoCanDo
            else if before.value.state == SHUTDOWN then o.world.servers == w.servers && o.output.reply == Success
            else
              && Record(o.world.servers, sid) == Some(Server(sid, NOT_AVAILABLE, before.value.bindTo))
              && o.output.reply == Success
  {
    var i := Position(w.servers, sid);
    if i == |w.servers| {
      KeptRecord(w, c, NotFound);
    } else if w.servers[i].state == KILLED {
      KeptRecord(w, c, NoCanDo);
    } else if w.servers[i].state == NOT_AVAILABLE || w.servers[i].state == SHUTDOWN {
      KeptRecord(w, c, Success);
    } else {
      ReplacedRecord(w, c, i, w.servers[i].(state := NOT_AVAILABLE));
    }
  }

  /** A server that is shut down is so from any state but killed. */
  lemma {:induction false} ShutdownFate(w: World, sid: nat)
    requires Valid(w) && w.cluster != 0
    ensures Standing(w)
    ensures var o, before := Step(w, Shutdown(sid)), Record(w.servers, sid);
            if before == None then o.world.servers == w.servers && o.output.reply == NotFound
            else if before.value.state == KILLED then o.world.servers == w.servers && o.output.reply == NoCanDo
            else
              && Record(o.world.servers, sid) == Some(Server(sid, SHUTDOWN, before.value.bindTo))
              && o.output.reply == Success
  {
    var c, i := Shutdown(sid), Position(w.servers, sid);
    if i == |w.servers| {
      KeptRecord(w, c, NotFound);
    } else if w.servers[i].state == KILLED {
      KeptRecord(w, c, NoCanDo);
    } else if w.servers[i].state == SHUTDOWN {
      KeptRecord(w, c, Success);
    } else {
      ReplacedRecord(w, c, i, w.servers[i].(state := SHUTDOWN));
    }
  }

  /** A server is killed from any state. */
  lemma {:induction false} KillFate(w: World, sid: nat)
    requires Valid(w) && w.cluster != 0
    ensures Standing(w)
    ensures var o, before := Step(w, Kill(sid)), Record(w.servers, sid);
            if before == None then o.world.servers == w.servers && o.output.reply == NotFound
            else
              && Record(o.world.servers, sid) == Some(Server(sid, KILLED, before.value.bindTo))
              && o.output.reply == Success
  {
    var c, i := Kill(sid), Position(w.servers, sid);
    if i == |w.servers| {
      KeptRecord(w, c, NotFound);
    } else if w.servers[i].state == KILLED {
      KeptRecord(w, c, Success);
    } else {
      ReplacedRecord(w, c, i, w.servers[i].(state := KILLED));
    }
  }

  /** A server is forgotten from any state. */
  lemma {:induction false} ForgetFate(w: World, sid: nat)
    requires Valid(w) && w.cluster != 0
    ensures Standing(w)
    ensures var o := Step(w, Forget(sid));
            && Record(o.world.servers, sid) == None
            && o.output.reply == (if Record(w.servers, sid) == None then NotFound else Success)
  {
    var c, i := Forget(sid), Position(w.servers, sid);
    if i == |w.servers| {
      KeptRecord(w, c, NotFound);
    } else {
      var l := w.servers[..i] + w.servers[i + 1..];
      ChangeIs(w, c, l);
      ChangeServers(w, c, l);
      RemovedRecord(w.servers, i, l);
    }
  }

  lemma {:induction false} RemovedRecord(l: seq<Server>, i: nat, m: seq<Server>)
    requires InIdOrder(l) && i < |l| && m == l[..i] + l[i + 1..]
    ensures Record(m, l[i].id) == None
  {
    forall k | 0 <= k < |m| ensures m[k].id != l[i].id {
      assert IdsBefore(l, k, i) && IdsBefore(l, i, k + 1);
    }
    NoRecord(m, l[i].id);
  }

  // ---------------------------------------------------------------------------------------------
  // Over runs
  // ---------------------------------------------------------------------------------------------

  /** The commands about one server that were answered with success, in order. */
  function Taken(run: seq<Happening>, sid: nat): seq<Command> {
    if run == [] then []
    else Taken(Front(run), sid) + TakenBy(StateAfter(Initial, Front(run)), Final(run), sid)
  }

  function TakenBy(w: World, h: Happening, sid: nat): seq<Command> {
    if h.Do? && ServerCommand(h.command) && Subject(h.command) == sid && Standing(w)
       && Step(w, h.command).output.reply == Success
    then [h.command] else []
  }

  /** Going offline and being suspected, which do not undo a shutdown. */
  predicate Outage(c: Command) {
    c.Offline? || c.Suspect?
  }

  function BeforeOutages(h: seq<Command>): seq<Command> {
    if h != [] && Outage(Final(h)) then BeforeOutages(Front(h)) else h
  }

  predicate IsShutDown(h: seq<Command>) {
    BeforeOutages(h) != [] && Final(BeforeOutages(h)).Shutdown?
  }

  /** The address that was named last. */
  function LastAddress(h: seq<Command>): nat {
    if h == [] then 0
    else match Final(h)
      case Register(_, a) => a
      case Online(_, Some(a)) => a
      case _ => LastAddress(Front(h))
  }

  ghost predicate Told(h: seq<Command>, r: Option<Server>, sid: nat) {
    && (r == None <==> h == [] || Final(h).Forget?)
    && (r.Some? ==>
          && r.value.id == sid && r.value.bindTo == LastAddress(h)
          && (r.value.state == ASSIGNED <==> Final(h).Register?)
          && (r.value.state == AVAILABLE <==> Final(h).Online?)
          && (r.value.state == KILLED <==> Final(h).Kill?)
          && (r.value.state == SHUTDOWN <==> IsShutDown(h))
          && (r.value.state == NOT_AVAILABLE <==> Outage(Final(h)) && !IsShutDown(h)))
  }

  /** How a command that succeeds turns the record of its server. */
  ghost predicate Turned(before: Option<Server>, c: Command, after: Option<Server>, sid: nat) {
    match c
    case Register(_, a) => before == None && after == Some(Server(sid, ASSIGNED, a))
    case Forget(_) => before.Some? && after == None
    case Kill(_) => before.Some? && after == Some(Server(sid, KILLED, before.value.bindTo))
    case Online(_, a) =>
      before.Some? && before.value.state != KILLED &&
      after == Some(Server(sid, AVAILABLE, if a.Some? then a.value else before.value.bindTo))
    case Shutdown(_) =>
      before.Some? && before.value.state != KILLED && after == Some(Server(sid, SHUTDOWN, before.value.bindTo))
    case _ =>
      Outage(c) && before.Some? && before.value.state != KILLED &&
      after == if before.value.state == SHUTDOWN then before else Some(Server(sid, NOT_AVAILABLE, before.value.bindTo))
  }

  lemma {:induction false} ToldTurned(h: seq<Command>, before: Option<Server>, c: Command, after: Option<Server>,
                                      sid: nat, more: seq<Command>)
    requires Told(h, before, sid) && Turned(before, c, after, sid) && more == h + [c]
    ensures Told(more, after, sid)
  {
    assert Front(more) == h && Final(more) == c;
  }

  /** A command that succeeds turns the record, and any other leaves it. */
  lemma {:induction false} TurnedOrKept(w: World, c: Command, sid: nat)
    requires Valid(w) && w.cluster != 0 && ServerCommand(c) && Subject(c) == sid
    ensures Standing(w)
    ensures var before, o := Record(w.servers, sid), Step(w, c);
            if o.output.reply == Success then Turned(before, c, Record(o.world.servers, sid), sid)
            else Record(o.world.servers, sid) == before
  {
    match c
    case Register(_, a) => RegisterFate(w, sid, a);
    case Online(_, a) => OnlineFate(w, sid, a);
    case Offline(_) => OutageFate(w, sid, c);
    case Suspect(_) => OutageFate(w, sid, c);
    case Shutdown(_) => ShutdownFate(w, sid);
    case Kill(_) => KillFate(w, sid);
    case Forget(_) => ForgetFate(w, sid);
  }

  /** The history of one server, and its record, after one more command about it. */
  lemma {:induction false} ToldNext(w: World, c: Command, sid: nat, h: seq<Command>, more: seq<Command>)
    requires Valid(w) && w.cluster != 0 && ServerCommand(c) && Subject(c) == sid && Told(h, Record(w.servers, sid), sid)
    requires more == h + TakenBy(w, Do(c), sid)
    ensures Standing(w) && Told(more, Record(Step(w, c).world.servers, sid), sid)
  {
    TurnedOrKept(w, c, sid);
    var before, o := Record(w.servers, sid), Step(w, c);
    if o.output.reply == Success {
      ToldTurned(h, before, c, Record(o.world.servers, sid), sid, more);
    } else {
      assert h + [] == h;
    }
  }

  /** Before there is a cluster, no command succeeds. */
  lemma {:induction false} NotTaken(w: World, c: Command, sid: nat)
    requires Standing(w) && !(w.cluster != 0 && ServerCommand(c) && Subject(c) == sid)
    ensures TakenBy(w, Do(c), sid) == []
  {
    if ServerCommand(c) && w.cluster == 0 {
      assert Step(w, c) == Unchanged(w, Uninitialized);
    }
  }

  /** A command about another server, or about none. */
  lemma {:induction false} OtherRecord(w: World, c: Command, sid: nat)
    requires Valid(w) && !(w.cluster != 0 && ServerCommand(c) && Subject(c) == sid)
    ensures Standing(w) && Record(Step(w, c).world.servers, sid) == Record(w.servers, sid)
  {
    StepServers(w, c);
    var d := Decide(w.servers, c);
    if w.cluster != 0 && ServerCommand(c) && d.Change? {
      SameRecord(w.servers, d.servers, c, sid);
    }
  }

  lemma {:induction false} SameRecord(l: seq<Server>, m: seq<Server>, c: Command, sid: nat)
    requires InIdOrder(l) && Decide(l, c) == Change(m) && sid != Subject(c)
    ensures Record(m, sid) == Record(l, sid)
  {
    DecideChanges(l, c);
    if Record(l, sid).Some? {
      var x := Record(l, sid).value;
      OthersUntouched(l, c, x);
      RecordIs(m, x);
    } else if Record(m, sid).Some? {
      var x := Record(m, sid).value;
      assert x in m;
      OthersUntouched(l, c, x);
      RecordIs(l, x);
    }
  }

  lemma {:induction false} ToldStep(w: World, e: Happening, sid: nat, h: seq<Command>, more: seq<Command>)
    requires Valid(w) && Told(h, Record(w.servers, sid), sid) && more == h + TakenBy(w, e, sid)
    ensures Told(more, Record(Apply(w, e).servers, sid), sid)
  {
    assert h + [] == h;
    match e
    case Restore =>
    case Do(c) =>
      if w.cluster != 0 && ServerCommand(c) && Subject(c) == sid {
        ToldNext(w, c, sid, h, more);
      } else {
        OtherRecord(w, c, sid);
        NotTaken(w, c, sid);
      }
  }

  lemma {:induction false} RunTold(run: seq<Happening>, sid: nat)
    ensures Told(Taken(run, sid), Record(StateAfter(Initial, run).servers, sid), sid)
  {
    if run != [] {
      RunTold(Front(run), sid);
      InitialValid();
      RunKeeps(Initial, Front(run));
      ToldStep(StateAfter(Initial, Front(run)), Final(run), sid, Taken(Front(run), sid), Taken(run, sid));
    }
  }

  /**
   Main result on servers: in any run, restores included, a server's record is told by the last command about it that
   was answered with success. There is none before the first one and after Forget; it is ASSIGNED after Register,
   AVAILABLE after Online, KILLED after Kill; after Shutdown it is SHUTDOWN, and stays so when it goes offline or is
   suspected; otherwise these two make it NOT_AVAILABLE. Its address is the one that was named last.
   */
  lemma {:induction false} LastCommandTells(run: seq<Happening>, sid: nat)
    ensures var h, r := Taken(run, sid), Record(StateAfter(Initial, run).servers, sid);
            && (r == None <==> h == [] || Final(h).Forget?)
            && (r.Some? ==>
                  && r.value.id == sid && r.value.bindTo == LastAddress(h)
                  && (r.value.state == ASSIGNED <==> Final(h).Register?)
                  && (r.value.state == AVAILABLE <==> Final(h).Online?)
                  && (r.value.state == KILLED <==> Final(h).Kill?)
                  && (r.value.state == SHUTDOWN <==> BeforeOutages(h) != [] && Final(BeforeOutages(h)).Shutdown?)
                  && (r.value.state == NOT_AVAILABLE <==>
                        (Final(h).Offline? || Final(h).Suspect?)
                        && !(BeforeOutages(h) != [] && Final(BeforeOutages(h)).Shutdown?)))
  {
    RunTold(run, sid);
  }
}
