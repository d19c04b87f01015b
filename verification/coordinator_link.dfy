/**
 The link that brings configurations to clients and daemons: wait until the coordinator's configuration counter passes
 the version at hand, fetch the configuration, adopt it, wait again. Requests to the replication layer may fail to
 start, fail to complete, or be dropped for a forced fetch at any time.
 */
module CoordinatorLinks {
  import opened Wrappers
  import opened Coordination

  datatype LinkState = NOTHING | WAITING_ON_BROADCAST | FETCHING_CONFIG
  datatype Status = GARBAGE | SUCCESS | FAILED

  /** The link's fields. `id` is the outstanding request, -1 for none. */
  datatype Link = Link(state: LinkState, id: int, status: Status, output: Option<Config>, config: Config)

  function Reset(l: Link): Link {
    Link(NOTHING, -1, GARBAGE, None, l.config)
  }

  predicate IsReset(l: Link) {
    l == Reset(l)
  }

  /** What every call finds and leaves: reset, or exactly one request outstanding and no output. */
  predicate Shaped(l: Link) {
    l.output == None && (if l.id < 0 then IsReset(l) else l.state != NOTHING)
  }

  /** Starting a request yields its id, or a negative number. */
  function BeginWaiting(l: Link, id: int): Link
    requires IsReset(l)
  {
    if id >= 0 then l.(id := id, state := WAITING_ON_BROADCAST) else Reset(l)
  }

  function BeginFetching(l: Link, id: int): Link
    requires l.id == -1 && l.state == WAITING_ON_BROADCAST && l.status == SUCCESS && l.output == None
  {
    if id >= 0 then l.(id := id, state := FETCHING_CONFIG) else Reset(l)
  }

  function Primed(l: Link, id: int): Link
    requires Shaped(l)
  {
    if l.id >= 0 || l.state != NOTHING then l
    else if l.config.version == 0 then BeginFetching(l.(state := WAITING_ON_BROADCAST, status := SUCCESS), id)
    else BeginWaiting(l, id)
  }

  function Forced(l: Link, id: int): Link {
    BeginFetching(Link(WAITING_ON_BROADCAST, -1, SUCCESS, None, l.config), id)
  }

  /** The callback of the outstanding request. `output` is what a fetch brought, None when it cannot be read. */
  function Called(l: Link, status: Status, output: Option<Config>, id: int): Link
    requires Shaped(l) && l.id >= 0
  {
    if status != SUCCESS then Reset(l)
    else if l.state == WAITING_ON_BROADCAST then BeginFetching(l.(id := -1, status := status), id)
    else if output == None || (l.config.cluster != 0 && l.config.cluster != output.value.cluster) then Reset(l)
    else Reset(l).(config := output.value)
  }

  // ---------------------------------------------------------------------------------------------
  // The link and the coordinator together
  // ---------------------------------------------------------------------------------------------

  /** The outstanding request, as the coordinator sees it. A fetch is answered with the configuration of that moment. */
  datatype Request = NoRequest | Wait(version: nat) | Fetch(reply: Option<Config>)

  /** `configs[v]` is configuration v; 0 is the empty one everybody starts with. */
  datatype State = State(link: Link, configs: seq<Config>, request: Request)

  datatype Action =
    | Issue(config: Config)
    | Prime(id: int)
    | Force(id: int)
    | Serve
    | Complete(status: Status, readable: bool, id: int)

  const Empty: Config := Config(0, 0, 0, [])

  ghost predicate Start(s: State) {
    s == State(Link(NOTHING, -1, GARBAGE, None, Empty), [Empty], NoRequest)
  }

  /** A wait completes once the counter has reached its version; a fetch, once it has been answered. */
  predicate Enabled(s: State, a: Action) {
    match a
    case Issue(c) => c.version == |s.configs|
    case Prime(_) => true
    case Force(_) => true
    case Serve => s.request.Fetch?
    case Complete(status, _, _) =>
      s.link.id >= 0 && (status == SUCCESS ==>
        (s.request.Wait? && s.request.version < |s.configs|) || (s.request.Fetch? && s.request.reply != None))
  }

  /** The request that goes with a link, when the link has just changed or still has the one before. */
  function Requested(s: State, l: Link): Request {
    if l.id < 0 then NoRequest
    else if l.state == WAITING_ON_BROADCAST then Wait(l.config.version + 1)
    else Fetch(None)
  }

  function Next(s: State, a: Action): State
    requires Shaped(s.link) && s.configs != [] && Enabled(s, a)
  {
    match a
    case Issue(c) => s.(configs := s.configs + [c])
    case Prime(id) =>
      var l := Primed(s.link, id);
      if l == s.link then s else s.(link := l, request := Requested(s, l))
    case Force(id) =>
      var l := Forced(s.link, id);
      s.(link := l, request := Requested(s, l))
    case Serve => s.(request := Fetch(Some(s.configs[|s.configs| - 1])))
    case Complete(status, readable, id) =>
      var output := if readable && s.request.Fetch? then s.request.reply else None;
      var l := Called(s.link, status, output, id);
      s.(link := l, request := Requested(s, l))
  }

  ghost predicate Numbered(s: State, v: int) {
    0 <= v < |s.configs| ==> s.configs[v].version == v
  }

  ghost predicate Issued(s: State, c: Config) {
    c.version < |s.configs| && s.configs[c.version] == c
  }

  ghost predicate Inv(s: State) {
    && Shaped(s.link) && s.configs != []
    && (forall v :: Numbered(s, v))
    && Issued(s, s.link.config)
    && (s.link.id < 0 <==> s.request.NoRequest?)
    && (s.request.Wait? <==> s.link.id >= 0 && s.link.state == WAITING_ON_BROADCAST)
    && (s.request.Wait? ==> s.request.version == s.link.config.version + 1)
    && (s.request.Fetch? && s.request.reply.Some? ==>
          Issued(s, s.request.reply.value) && s.link.config.version <= s.request.reply.value.version)
  }

  /** No step makes the link go back, and a changed configuration is a newer one. */
  ghost predicate Forward(s: State, t: State) {
    s.configs <= t.configs &&
    (t.link.config == s.link.config || s.link.config.version < t.link.config.version)
  }

  /**
   Each step keeps the shape, which is what the program asserts before it starts a request and when one completes;
   and it only moves forward.
   */
  lemma {:induction false} NextInv(s: State, a: Action)
    requires Inv(s) && Enabled(s, a)
    ensures Inv(Next(s, a)) && Forward(s, Next(s, a))
  {
    var t := Next(s, a);
    assert Numbered(s, |s.configs| - 1);
    forall v ensures Numbered(t, v) {
      assert Numbered(s, v);
    }
    if a.Issue? {
      assert forall v :: 0 <= v < |s.configs| ==> t.configs[v] == s.configs[v];
    }
  }

  // ---------------------------------------------------------------------------------------------
  // What each step asks of the coordinator
  // ---------------------------------------------------------------------------------------------

  /** No request outstanding. */
  predicate Idle(s: State) {
    s.request == NoRequest && s.link.id < 0
  }

  /**
   An idle link that holds a configuration waits for the next version; one that holds none fetches. When the request
   cannot be started, nothing changes; nor does it when there is a request already.
   */
  lemma {:induction false} PrimeAsks(s: State, id: int)
    requires Inv(s)
    ensures var t := Next(s, Prime(id));
            if !Idle(s) || id < 0 then t == s
            else
              && t.link.id == id && t.configs == s.configs && t.link.config == s.link.config
              && t.request == if s.link.config.version == 0 then Fetch(None) else Wait(s.link.config.version + 1)
  {
  }

  /** A forced fetch replaces whatever is outstanding. */
  lemma {:induction false} ForceAsks(s: State, id: int)
    requires Inv(s)
    ensures var t := Next(s, Force(id));
            && t.configs == s.configs && t.link.config == s.link.config
            && (if id < 0 then Idle(t) else t.link.id == id && t.request == Fetch(None))
  {
  }

  /**
   A wait that is over is followed by a fetch; a fetch that is over leaves the link idle, with what it brought if that
   can be read and is of the same cluster; a failure leaves it idle, with what it had.
   */
  lemma {:induction false} CompleteAsks(s: State, status: Status, readable: bool, id: int)
    requires Inv(s) && Enabled(s, Complete(status, readable, id))
    ensures var t := Next(s, Complete(status, readable, id));
            && t.configs == s.configs
            && (if status == SUCCESS && s.request.Wait? && id >= 0 then t.link.id == id && t.request == Fetch(None)
                else Idle(t))
            && t.link.config ==
                 if status == SUCCESS && s.request.Fetch? && readable
                    && (s.link.config.cluster == 0 || s.link.config.cluster == s.request.reply.value.cluster)
                 then s.request.reply.value else s.link.config
  {
  }

  /** The coordinator answers a fetch with the configuration of that moment, and leaves the link alone. */
  lemma {:induction false} ServeAnswers(s: State)
    requires Inv(s) && s.request.Fetch?
    ensures var t := Next(s, Serve);
            t.link == s.link && t.configs == s.configs && t.request == Fetch(Some(s.configs[|s.configs| - 1]))
  {
  }

  predicate CanRun(s: State, run: seq<Action>)
    decreases |run|
  {
    Shaped(s.link) && s.configs != [] &&
    (run == [] || (Enabled(s, run[0]) && CanRun(Next(s, run[0]), run[1..])))
  }

  function Run(s: State, run: seq<Action>): State
    requires CanRun(s, run)
    decreases |run|
  {
    if run == [] then s else Run(Next(s, run[0]), run[1..])
  }

  lemma {:induction false} RunInv(s: State, run: seq<Action>)
    requires Inv(s) && CanRun(s, run)
    ensures Inv(Run(s, run)) && Forward(s, Run(s, run))
    decreases |run|
  {
    if run != [] {
      NextInv(s, run[0]);
      RunInv(Next(s, run[0]), run[1..]);
    }
  }

  /**
   In every run, however requests fail and whatever is forced: the link holds a configuration that the coordinator
   issued; along the run it only ever moves to newer ones. So a daemon never sees an older version than its own.
   */
  lemma {:induction false} LinkMovesForward(s: State, before: seq<Action>, after: seq<Action>)
    requires Start(s) && CanRun(s, before) && CanRun(Run(s, before), after)
    ensures var t, u := Run(s, before), Run(Run(s, before), after);
            && Issued(t, t.link.config) && Issued(u, u.link.config)
            && (u.link.config == t.link.config || t.link.config.version < u.link.config.version)
  {
    RunInv(s, before);
    RunInv(Run(s, before), after);
  }

  /**
   A wait pays off: when it has completed and the fetch behind it is served, read, and of the same cluster, the link
   adopts a strictly newer configuration.
   */
  lemma {:induction false} WaitBringsNews(s: State, id: int, last: int)
    requires Inv(s) && s.request.Wait? && Enabled(s, Complete(SUCCESS, true, id)) && id >= 0
    requires s.link.config.cluster == 0 || s.link.config.cluster == s.configs[|s.configs| - 1].cluster
    ensures var run := [Complete(SUCCESS, true, id), Serve, Complete(SUCCESS, true, last)];
            CanRun(s, run) && Run(s, run).link.config == s.configs[|s.configs| - 1] &&
            s.link.config.version < Run(s, run).link.config.version
  {
    var a, b, c := Complete(SUCCESS, true, id), Serve, Complete(SUCCESS, true, last);
    var t := Next(s, a);
    var u := Next(t, b);
    assert Numbered(s, |s.configs| - 1);
    assert t.link.state == FETCHING_CONFIG && t.request == Fetch(None) && t.configs == s.configs;
    RunThree(s, a, b, c);
  }

  /**
   In every run, a fetch is only ever started when the link holds no configuration yet, when it is forced, or when a
   wait has been completed.
   */
  lemma {:induction false} FetchesHaveReason(s: State, before: seq<Action>, a: Action)
    requires Start(s) && CanRun(s, before) && Enabled(Run(s, before), a)
    ensures var t := Run(s, before);
            Inv(t) && (Next(t, a).request.Fetch? && !t.request.Fetch? ==>
              || (a.Prime? && Idle(t) && t.link.config.version == 0)
              || a.Force?
              || (a.Complete? && a.status == SUCCESS && t.request == Wait(t.link.config.version + 1)
                  && t.link.config.version + 1 < |t.configs|))
  {
    RunInv(s, before);
    var t := Run(s, before);
    match a
    case Prime(id) => PrimeAsks(t, id);
    case Complete(status, readable, id) => CompleteAsks(t, status, readable, id);
    case _ =>
  }

  /**
   An idle link that is primed catches up: it waits until there is a newer configuration than its own, fetches the
   newest one and adopts it.
   */
  lemma {:induction false} PrimedLinkCatchesUp(s: State, a: int, b: int, c: int)
    requires Inv(s) && Idle(s) && 0 < s.link.config.version < |s.configs| - 1 && a >= 0 && b >= 0
    requires s.link.config.cluster == 0 || s.link.config.cluster == s.configs[|s.configs| - 1].cluster
    ensures var run := [Prime(a)] + [Complete(SUCCESS, true, b), Serve, Complete(SUCCESS, true, c)];
            CanRun(s, run) && Run(s, run).link.config == s.configs[|s.configs| - 1]
  {
    PrimeAsks(s, a);
    NextInv(s, Prime(a));
    WaitBringsNews(Next(s, Prime(a)), b, c);
    RunPush(s, Prime(a), [Complete(SUCCESS, true, b), Serve, Complete(SUCCESS, true, c)]);
  }

  lemma {:induction false} RunPush(s: State, a: Action, run: seq<Action>)
    requires Inv(s) && Enabled(s, a) && CanRun(Next(s, a), run)
    ensures CanRun(s, [a] + run) && Run(s, [a] + run) == Run(Next(s, a), run)
  {
    assert ([a] + run)[1..] == run;
  }

  lemma {:induction false} RunThree(s: State, a: Action, b: Action, c: Action)
    requires Inv(s) && Enabled(s, a) && Enabled(Next(s, a), b)
    requires Inv(Next(s, a)) ==> Inv(Next(Next(s, a), b)) ==> Enabled(Next(Next(s, a), b), c)
    ensures Inv(Next(s, a)) && Inv(Next(Next(s, a), b)) && Enabled(Next(Next(s, a), b), c)
    ensures CanRun(s, [a, b, c]) && Run(s, [a, b, c]) == Next(Next(Next(s, a), b), c)
  {
    NextInv(s, a);
    NextInv(Next(s, a), b);
    var u := Next(Next(s, a), b);
    NextInv(u, c);
    RunPush(u, c, []);
    RunPush(Next(s, a), b, [c]);
    RunPush(s, a, [b, c]);
    assert [b] + [c] == [b, c] && [a] + [b, c] == [a, b, c] && [c] + [] == [c];
  }

  // ---------------------------------------------------------------------------------------------
  // The program's object
  // ---------------------------------------------------------------------------------------------

  class CoordinatorLink {
    var state: LinkState
    var id: int
    var status: Status
    var output: Option<Config>
    var config: Config

    ghost function View(): Link
      reads this
    {
      Link(state, id, status, output, config)
    }

    constructor ()
      ensures View() == Link(NOTHING, -1, GARBAGE, None, Empty)
    {
      state, id, status, output, config := NOTHING, -1, GARBAGE, None, Empty;
    }

    method Clear()
      modifies this
      ensures View() == Reset(old(View()))
    {
      state, id, status, output := NOTHING, -1, GARBAGE, None;
    }

    method BeginWaitingOnBroadcast(request: int) returns (ok: bool)
      requires IsReset(View())
      modifies this
      ensures View() == BeginWaiting(old(View()), request) && (ok <==> request >= 0)
    {
      assert id == -1 && state == NOTHING && status == GARBAGE && output == None;
      id, state := request, WAITING_ON_BROADCAST;
      ok := id >= 0;
      if !ok {
        Clear();
      }
    }

    method BeginFetchingConfig(request: int) returns (ok: bool)
      requires id == -1 && state == WAITING_ON_BROADCAST && status == SUCCESS && output == None
      modifies this
      ensures View() == BeginFetching(old(View()), request) && (ok <==> request >= 0)
    {
      id, state := request, FETCHING_CONFIG;
      ok := id >= 0;
      if !ok {
        Clear();
      }
    }

    method PrimeStateMachine(request: int) returns (ok: bool)
      requires Shaped(View())
      modifies this
      ensures View() == Primed(old(View()), request) && Shaped(View())
      ensures ok <==> id >= 0
      ensures old(id) < 0 && ok ==>
                id == request && state == if config.version == 0 then FETCHING_CONFIG else WAITING_ON_BROADCAST
    {
      if id >= 0 {
        return true;
      }
      if state == NOTHING {
        if config.version == 0 {
          state, status := WAITING_ON_BROADCAST, SUCCESS;
          ok := BeginFetchingConfig(request);
        } else {
          ok := BeginWaitingOnBroadcast(request);
        }
        return;
      }
      ok := true;
    }

    method ForceConfigurationFetch(request: int) returns (ok: bool)
      modifies this
      ensures View() == Forced(old(View()), request) && Shaped(View())
      ensures ok <==> request >= 0
      ensures ok ==> id == request && state == FETCHING_CONFIG && config == old(config)
    {
      id, state, status, output := -1, WAITING_ON_BROADCAST, SUCCESS, None;
      ok := BeginFetchingConfig(request);
    }

    /** What came in for the outstanding request; `request` is what starting the next one would yield. */
    method HandleInternalCallback(came: Status, brought: Option<Config>, request: int)
      returns (adopted: bool, failed: bool)
      requires Shaped(View()) && id >= 0
      modifies this
      ensures View() == Called(old(View()), came, brought, request) && Shaped(View())
      ensures adopted <==> came == SUCCESS && old(state) == FETCHING_CONFIG && brought != None
                           && (old(config).cluster == 0 || old(config).cluster == brought.value.cluster)
      ensures config == if adopted then brought.value else old(config)
      ensures failed <==> !adopted && !(came == SUCCESS && old(state) == WAITING_ON_BROADCAST && request >= 0)
    {
      id, status := -1, came;
      if status != SUCCESS {
        Clear();
        return false, true;
      }
      assert state == WAITING_ON_BROADCAST || state == FETCHING_CONFIG;
      if state == WAITING_ON_BROADCAST {
        var ok := BeginFetchingConfig(request);
        return false, !ok;
      }
      output := brought;
      Clear();
      if brought == None {
        return false, true;
      }
      if config.cluster != 0 && config.cluster != brought.value.cluster {
        return false, true;
      }
      config := brought.value;
      return true, false;
    }
  }
}
