/**
 Threads of one server writing to the log and truncating blocks at once. Space is reserved by one atomic addition;
 copying the bytes and publishing the block are not atomic, and interleave in every way. A run is any sequence of the
 small steps below.
 */
module LogWriters {
  import opened Wrappers
  import opened OrderedMap
  import opened Blocks
  import opened Blockstore

  /** One call, by how far it has come: what it writes to the log, if anything, and the number of its block. */
  datatype Writer =
    | Refused(at: nat, size: nat)
    | Copying(at: nat, data: seq<Byte>, copied: set<nat>)
    | Stored(at: nat, data: seq<Byte>)
    | Numbered(at: nat, data: seq<Byte>, id: nat, counted: bool)
    | Published(at: nat, data: seq<Byte>, id: nat)

  /** `db` holds, for each block, the place in the log of each of its bytes. */
  datatype State = State(log: seq<Byte>, next: nat, ids: nat, writers: map<nat, Writer>, db: map<nat, seq<int>>)

  /**
   Reserve: the atomic addition and the comparison with the log's length. Copy: one byte, in whatever order.
   Return: the copy is over. Load and Count: the two halves of reading and advancing the block counter, which the
   program does not do atomically. Put: the block's offset map goes into the database.
   Cut: a truncation has read the offset map of a block. It writes nothing to the log, but it draws a number and
   publishes a block like the others, whatever has become of the log's space.
   */
  datatype Action =
    | Reserve(call: nat, data: seq<Byte>)
    | Copy(call: nat, index: nat)
    | Return(call: nat)
    | Load(call: nat)
    | Count(call: nat)
    | Put(call: nat, places: seq<int>)
    | Cut(call: nat, block: nat)

  predicate Done(w: Writer) {
    w.Stored? || w.Numbered? || w.Published?
  }

  /**
   What is known of a block that a call publishes: no place lies beyond what has been reserved in the log
   (UpdateReserved). The program checks nothing, so a place may be one that another call is still copying to.
   */
  predicate Reserved(s: State, ps: seq<int>) {
    forall p :: p in ps ==> p < s.next && p < |s.log|
  }

  predicate Enabled(s: State, a: Action) {
    match a
    case Reserve(c, _) => c !in s.writers
    case Copy(c, j) =>
      c in s.writers && s.writers[c].Copying? && j < |s.writers[c].data| && s.writers[c].at + j < |s.log|
    case Return(c) =>
      c in s.writers && s.writers[c].Copying? && forall j :: 0 <= j < |s.writers[c].data| ==> j in s.writers[c].copied
    case Load(c) => c in s.writers && s.writers[c].Stored?
    case Count(c) => c in s.writers && s.writers[c].Numbered? && !s.writers[c].counted
    case Put(c, ps) =>
      c in s.writers && s.writers[c].Numbered? && s.writers[c].counted && Reserved(s, ps)
    case Cut(c, b) => c !in s.writers && b in s.db
  }

  function Next(s: State, a: Action): State
    requires Enabled(s, a)
  {
    match a
    case Reserve(c, d) =>
      var w := if |s.log| < s.next + |d| then Refused(s.next, |d|) else Copying(s.next, d, {});
      s.(next := s.next + |d|, writers := s.writers[c := w])
    case Copy(c, j) =>
      var w := s.writers[c];
      s.(log := s.log[w.at + j := w.data[j]], writers := s.writers[c := w.(copied := w.copied + {j})])
    case Return(c) =>
      s.(writers := s.writers[c := Stored(s.writers[c].at, s.writers[c].data)])
    case Load(c) =>
      s.(writers := s.writers[c := Numbered(s.writers[c].at, s.writers[c].data, s.ids, false)])
    case Count(c) =>
      s.(ids := s.writers[c].id + 1, writers := s.writers[c := s.writers[c].(counted := true)])
    case Put(c, ps) =>
      var w := s.writers[c];
      s.(db := s.db[w.id := ps], writers := s.writers[c := Published(w.at, w.data, w.id)])
    case Cut(c, _) =>
      s.(writers := s.writers[c := Stored(0, [])])
  }

  predicate CanRun(s: State, run: seq<Action>)
    decreases |run|
  {
    run == [] || (Enabled(s, run[0]) && CanRun(Next(s, run[0]), run[1..]))
  }

  function Run(s: State, run: seq<Action>): State
    requires CanRun(s, run)
    decreases |run|
  {
    if run == [] then s else Run(Next(s, run[0]), run[1..])
  }

  // ---------------------------------------------------------------------------------------------
  // Extents are disjoint and finished writes are never disturbed, whatever the interleaving
  // ---------------------------------------------------------------------------------------------

  /** Two calls that got space never share a byte of it. */
  ghost predicate Apart(s: State, v: nat, w: nat) {
    v != w && v in s.writers && w in s.writers && !s.writers[v].Refused? && !s.writers[w].Refused? ==>
      || s.writers[v].at + |s.writers[v].data| <= s.writers[w].at
      || s.writers[w].at + |s.writers[w].data| <= s.writers[v].at
  }

  ghost predicate Within(s: State, w: nat) {
    w in s.writers && !s.writers[w].Refused? ==>
      s.writers[w].at + |s.writers[w].data| <= s.next && s.writers[w].at + |s.writers[w].data| <= |s.log|
  }

  ghost predicate Landed(s: State, w: nat, j: nat) {
    w in s.writers && !s.writers[w].Refused? && j < |s.writers[w].data| && s.writers[w].at + j < |s.log| &&
    (s.writers[w].Copying? ==> j in s.writers[w].copied) ==>
      s.log[s.writers[w].at + j] == s.writers[w].data[j]
  }

  ghost predicate Inv(s: State) {
    && (forall v: nat, w: nat :: Apart(s, v, w))
    && (forall w: nat :: Within(s, w))
    && (forall w: nat, j: nat :: Landed(s, w, j))
  }

  ghost predicate Start(s: State) {
    s.next == 0 && s.ids == 0 && s.writers == map[] && s.db == map[]
  }

  lemma {:induction false} NextApart(s: State, a: Action, v: nat, w: nat)
    requires Inv(s) && Enabled(s, a)
    ensures Apart(Next(s, a), v, w)
  {
    assert Apart(s, v, w) && Within(s, v) && Within(s, w);
  }

  lemma {:induction false} NextWithin(s: State, a: Action, w: nat)
    requires Inv(s) && Enabled(s, a)
    ensures Within(Next(s, a), w)
  {
    assert Within(s, w);
  }

  lemma {:induction false} NextLanded(s: State, a: Action, w: nat, j: nat)
    requires Inv(s) && Enabled(s, a)
    ensures Landed(Next(s, a), w, j)
  {
    assert Landed(s, w, j) && Within(s, w);
    if a.Copy? {
      assert Apart(s, w, a.call) && Within(s, a.call);
    }
  }

  lemma {:induction false} NextInv(s: State, a: Action)
    requires Inv(s) && Enabled(s, a)
    ensures Inv(Next(s, a))
  {
    var t := Next(s, a);
    forall v: nat, w: nat ensures Apart(t, v, w) {
      NextApart(s, a, v, w);
    }
    forall w: nat ensures Within(t, w) {
      NextWithin(s, a, w);
    }
    forall w: nat, j: nat ensures Landed(t, w, j) {
      NextLanded(s, a, w, j);
    }
  }

  lemma {:induction false} RunInv(s: State, run: seq<Action>)
    requires Inv(s) && CanRun(s, run)
    ensures Inv(Run(s, run))
    decreases run
  {
    if run != [] {
      NextInv(s, run[0]);
      RunInv(Next(s, run[0]), run[1..]);
    }
  }

  /** Every interleaving, from an empty log: the extents handed out are disjoint and lie in the log. */
  lemma {:induction false} ExtentsDisjoint(s: State, run: seq<Action>, v: nat, w: nat)
    requires Start(s) && CanRun(s, run)
    requires v in Run(s, run).writers && w in Run(s, run).writers && v != w
    requires !Run(s, run).writers[v].Refused? && !Run(s, run).writers[w].Refused?
    ensures var a, b := Run(s, run).writers[v], Run(s, run).writers[w];
            a.at + |a.data| <= b.at || b.at + |b.data| <= a.at
    ensures Run(s, run).writers[v].at + |Run(s, run).writers[v].data| <= |Run(s, run).log|
  {
    StartInv(s);
    RunInv(s, run);
    assert Apart(Run(s, run), v, w) && Within(Run(s, run), v);
  }

  ghost predicate Kept(s: State, t: State, w: nat)
    requires w in s.writers && Done(s.writers[w])
  {
    w in t.writers && Done(t.writers[w]) && t.writers[w].at == s.writers[w].at && t.writers[w].data == s.writers[w].data
  }

  lemma {:induction false} RunKeeps(s: State, run: seq<Action>, w: nat)
    requires CanRun(s, run) && w in s.writers && Done(s.writers[w])
    ensures Kept(s, Run(s, run), w)
    decreases run
  {
    if run != [] {
      assert Kept(s, Next(s, run[0]), w);
      RunKeeps(Next(s, run[0]), run[1..], w);
    }
  }

  lemma {:induction false} DoneReads(s: State, w: nat)
    requires Inv(s) && w in s.writers && Done(s.writers[w])
    ensures s.writers[w].at + |s.writers[w].data| <= |s.log|
    ensures s.log[s.writers[w].at..s.writers[w].at + |s.writers[w].data|] == s.writers[w].data
  {
    assert Within(s, w);
    forall j: nat | j < |s.writers[w].data| ensures s.log[s.writers[w].at + j] == s.writers[w].data[j] {
      assert Landed(s, w, j);
    }
  }

  /** Once a write has returned, its place in the log holds its bytes, after any further steps of any calls. */
  lemma {:induction false} ReturnedWritesStay(s: State, run: seq<Action>, w: nat)
    requires Inv(s) && CanRun(s, run) && w in s.writers && Done(s.writers[w])
    ensures var at, data := s.writers[w].at, s.writers[w].data;
            at + |data| <= |Run(s, run).log| && Run(s, run).log[at..at + |data|] == data
  {
    RunInv(s, run);
    RunKeeps(s, run, w);
    DoneReads(Run(s, run), w);
  }

  // ---------------------------------------------------------------------------------------------
  // Blocks
  // ---------------------------------------------------------------------------------------------

  /** What a reader gets at a place; None, when it lies in front of the log, where reading is undefined. */
  function At(log: seq<Byte>, p: int): Option<Byte> {
    if 0 <= p < |log| then Some(log[p]) else None
  }

  /** What a reader gets for a block. */
  function Gather(log: seq<Byte>, ps: seq<int>): (r: seq<Option<Byte>>)
    ensures |r| == |ps|
  {
    seq(|ps|, j requires 0 <= j < |ps| => At(log, ps[j]))
  }

  /** An unfinished call has yet to copy a different byte to this place. */
  ghost predicate Overdue(s: State, p: int, w: nat, j: nat) {
    w in s.writers && s.writers[w].Copying? && j < |s.writers[w].data| && s.writers[w].at + j == p < |s.log|
    && s.log[p] != s.writers[w].data[j]
  }

  ghost predicate SettledAt(s: State, p: int) {
    forall w: nat, j: nat :: !Overdue(s, p, w, j)
  }

  /** No unfinished call has yet to copy a different byte to any of these places. */
  ghost predicate Settled(s: State, ps: seq<int>) {
    forall p :: p in ps ==> SettledAt(s, p)
  }

  lemma {:induction false} NextSettledAt(s: State, a: Action, p: int)
    requires Inv(s) && Enabled(s, a) && SettledAt(s, p) && p < s.next && p < |s.log|
    ensures SettledAt(Next(s, a), p) && At(Next(s, a).log, p) == At(s.log, p)
  {
    var t := Next(s, a);
    if a.Copy? {
      assert !Overdue(s, p, a.call, a.index);
    }
    forall w: nat, j: nat ensures !Overdue(t, p, w, j) {
      assert !Overdue(s, p, w, j);
    }
  }

  lemma {:induction false} NextReserved(s: State, a: Action, ps: seq<int>)
    requires Enabled(s, a) && Reserved(s, ps)
    ensures Reserved(Next(s, a), ps)
  {
  }

  /** A settled block reads the same after any step, and stays settled. */
  lemma {:induction false} NextSettled(s: State, a: Action, ps: seq<int>)
    requires Inv(s) && Enabled(s, a) && Reserved(s, ps) && Settled(s, ps)
    ensures Settled(Next(s, a), ps) && Gather(Next(s, a).log, ps) == Gather(s.log, ps)
  {
    forall p | p in ps ensures SettledAt(Next(s, a), p) && At(Next(s, a).log, p) == At(s.log, p) {
      NextSettledAt(s, a, p);
    }
  }

  lemma {:induction false} RunSettled(s: State, run: seq<Action>, ps: seq<int>)
    requires Inv(s) && CanRun(s, run) && Reserved(s, ps) && Settled(s, ps)
    ensures var t := Run(s, run); Inv(t) && Reserved(t, ps) && Settled(t, ps) && Gather(t.log, ps) == Gather(s.log, ps)
    decreases |run|
  {
    if run != [] {
      NextInv(s, run[0]);
      NextReserved(s, run[0], ps);
      NextSettled(s, run[0], ps);
      RunSettled(Next(s, run[0]), run[1..], ps);
    }
  }

  /** A block that is not settled reads otherwise after one step: an unfinished call's copying of one byte. */
  lemma {:induction false} UnsettledChanges(s: State, ps: seq<int>) returns (w: nat, j: nat)
    requires !Settled(s, ps)
    ensures Enabled(s, Copy(w, j)) && Gather(Next(s, Copy(w, j)).log, ps) != Gather(s.log, ps)
  {
    var p :| p in ps && !SettledAt(s, p);
    w, j :| Overdue(s, p, w, j);
    var k :| 0 <= k < |ps| && ps[k] == p;
    assert Gather(Next(s, Copy(w, j)).log, ps)[k] == Some(s.writers[w].data[j]);
    assert Gather(s.log, ps)[k] == Some(s.log[p]);
  }

  ghost predicate BlockReserved(s: State, b: nat) {
    b in s.db ==> Reserved(s, s.db[b])
  }

  /**
   The guard on the interleaving: between a call's Load and its Count, no other call's Load or Count. Everything else
   may come in between. `open` is the call that has read the counter and not yet advanced it.
   */
  datatype Window = Closed | Of(call: nat)

  ghost predicate Exclusive(run: seq<Action>, open: Window) {
    if run == [] then true
    else if run[0].Load? then open == Closed && Exclusive(run[1..], Of(run[0].call))
    else if run[0].Count? then open == Of(run[0].call) && Exclusive(run[1..], Closed)
    else Exclusive(run[1..], open)
  }

  ghost function OpenAfter(run: seq<Action>, open: Window): Window {
    if run == [] then open
    else OpenAfter(run[1..], if run[0].Load? then Of(run[0].call) else if run[0].Count? then Closed else open)
  }

  lemma {:induction false} ExclusiveParts(first: seq<Action>, second: seq<Action>, open: Window)
    ensures Exclusive(first + second, open) <==> Exclusive(first, open) && Exclusive(second, OpenAfter(first, open))
    ensures OpenAfter(first + second, open) == OpenAfter(second, OpenAfter(first, open))
    decreases first
  {
    if first == [] {
      assert first + second == second;
    } else {
      var next := if first[0].Load? then Of(first[0].call) else if first[0].Count? then Closed else open;
      assert (first + second)[1..] == first[1..] + second;
      ExclusiveParts(first[1..], second, next);
    }
  }

  /** A number that has been taken is not yet a block. While it is not counted, it is where the counter stands. */
  ghost predicate Fresh(s: State, open: Window, v: nat) {
    v in s.writers && s.writers[v].Numbered? ==>
      && s.writers[v].id !in s.db
      && (if s.writers[v].counted then s.writers[v].id < s.ids && open != Of(v)
          else s.writers[v].id == s.ids && open == Of(v))
  }

  ghost predicate Unshared(s: State, v: nat, w: nat) {
    v != w && v in s.writers && w in s.writers && s.writers[v].Numbered? && s.writers[w].Numbered? ==>
      s.writers[v].id != s.writers[w].id
  }

  ghost predicate Numbers(s: State, open: Window) {
    && (forall v: nat :: Fresh(s, open, v))
    && (forall v: nat, w: nat :: Unshared(s, v, w))
    && (forall b: nat :: b in s.db ==> b < s.ids)
    && (forall b: nat :: BlockReserved(s, b))
    && (open.Of? ==> open.call in s.writers && s.writers[open.call].Numbered?)
  }

  lemma {:induction false} BlocksReserved(s: State, a: Action, b: nat)
    requires Enabled(s, a) && BlockReserved(s, b)
    ensures BlockReserved(Next(s, a), b)
  {
    var t := Next(s, a);
    if b in t.db {
      NextReserved(s, a, t.db[b]);
    }
  }

  lemma {:induction false} OtherKeepsNumbers(s: State, open: Window, a: Action)
    requires Numbers(s, open) && Enabled(s, a) && !a.Load? && !a.Count?
    ensures Numbers(Next(s, a), open)
  {
    var t := Next(s, a);
    assert Fresh(s, open, a.call);
    forall v: nat ensures Fresh(t, open, v) {
      assert Fresh(s, open, v) && Unshared(s, v, a.call);
    }
    forall v: nat, w: nat ensures Unshared(t, v, w) {
      assert Unshared(s, v, w);
    }
    forall b: nat ensures BlockReserved(t, b) {
      assert BlockReserved(s, b);
      BlocksReserved(s, a, b);
    }
  }

  lemma {:induction false} LoadKeepsNumbers(s: State, c: nat)
    requires Numbers(s, Closed) && Enabled(s, Load(c))
    ensures Numbers(Next(s, Load(c)), Of(c))
  {
    var t := Next(s, Load(c));
    forall v: nat ensures Fresh(t, Of(c), v) {
      assert Fresh(s, Closed, v);
    }
    forall v: nat, w: nat ensures Unshared(t, v, w) {
      assert Unshared(s, v, w) && Fresh(s, Closed, v) && Fresh(s, Closed, w);
    }
    forall b: nat ensures BlockReserved(t, b) {
      assert BlockReserved(s, b);
      BlocksReserved(s, Load(c), b);
    }
  }

  lemma {:induction false} CountKeepsNumbers(s: State, c: nat)
    requires Numbers(s, Of(c)) && Enabled(s, Count(c))
    ensures Numbers(Next(s, Count(c)), Closed)
  {
    var t := Next(s, Count(c));
    forall v: nat ensures Fresh(t, Closed, v) {
      assert Fresh(s, Of(c), v) && Fresh(s, Of(c), c);
    }
    forall v: nat, w: nat ensures Unshared(t, v, w) {
      assert Unshared(s, v, w);
    }
    assert Fresh(s, Of(c), c);
    forall b: nat ensures BlockReserved(t, b) {
      assert BlockReserved(s, b);
      BlocksReserved(s, Count(c), b);
    }
  }

  lemma {:induction false} NextKeepsBlock(s: State, open: Window, a: Action, b: nat)
    requires Numbers(s, open) && Enabled(s, a) && b in s.db
    ensures b in Next(s, a).db && Next(s, a).db[b] == s.db[b]
  {
    assert Fresh(s, open, a.call);
  }

  lemma {:induction false} ExclusiveRun(s: State, open: Window, run: seq<Action>, b: nat)
    requires Inv(s) && Numbers(s, open) && CanRun(s, run) && Exclusive(run, open)
    ensures Inv(Run(s, run)) && Numbers(Run(s, run), OpenAfter(run, open))
    ensures b in s.db ==> b in Run(s, run).db && Run(s, run).db[b] == s.db[b]
    decreases |run|
  {
    if run != [] {
      var a := run[0];
      NextInv(s, a);
      if b in s.db {
        NextKeepsBlock(s, open, a, b);
      }
      if a.Load? {
        LoadKeepsNumbers(s, a.call);
        ExclusiveRun(Next(s, a), Of(a.call), run[1..], b);
      } else if a.Count? {
        CountKeepsNumbers(s, a.call);
        ExclusiveRun(Next(s, a), Closed, run[1..], b);
      } else {
        OtherKeepsNumbers(s, open, a);
        ExclusiveRun(Next(s, a), open, run[1..], b);
      }
    }
  }

  lemma {:induction false} StartInv(s: State)
    requires Start(s)
    ensures Inv(s) && Numbers(s, Closed)
  {
    forall w: nat, j: nat ensures Landed(s, w, j) && Apart(s, w, j) && Within(s, w) && Unshared(s, w, j) {
    }
    forall w: nat ensures Fresh(s, Closed, w) {
    }
    forall b: nat ensures BlockReserved(s, b) {
    }
  }

  /** Under the guard, a settled block reads the same ever after. */
  lemma {:induction false} SettledReadsOn(s: State, open: Window, after: seq<Action>, b: nat)
    requires Inv(s) && Numbers(s, open) && CanRun(s, after) && Exclusive(after, open) && b in s.db
    requires Settled(s, s.db[b])
    ensures var u := Run(s, after); b in u.db && u.db[b] == s.db[b] && Gather(u.log, u.db[b]) == Gather(s.log, s.db[b])
  {
    assert BlockReserved(s, b);
    ExclusiveRun(s, open, after, b);
    RunSettled(s, after, s.db[b]);
  }

  /** A run that the guard allows leaves the block readable as it was. */
  ghost predicate ReadsOn(s: State, open: Window, after: seq<Action>, b: nat)
    requires b in s.db
  {
    CanRun(s, after) && Exclusive(after, open) ==>
      var u := Run(s, after); b in u.db && Gather(u.log, u.db[b]) == Gather(s.log, s.db[b])
  }

  /** The guard never excludes a step that copies. */
  lemma {:induction false} CopyRuns(s: State, open: Window, w: nat, j: nat, run: seq<Action>)
    requires Enabled(s, Copy(w, j)) && run == [Copy(w, j)]
    ensures CanRun(s, run) && Run(s, run) == Next(s, Copy(w, j)) && Exclusive(run, open)
  {
    RunOne(s, Copy(w, j), run);
    assert run[1..] == [];
  }

  lemma {:induction false} UnsettledBreaks(s: State, open: Window, b: nat) returns (after: seq<Action>)
    requires b in s.db && !Settled(s, s.db[b])
    ensures |after| == 1 && after[0].Copy? && !ReadsOn(s, open, after, b)
  {
    var w, j := UnsettledChanges(s, s.db[b]);
    after := [Copy(w, j)];
    CopyRuns(s, open, w, j, after);
    assert Next(s, Copy(w, j)).db == s.db;
  }

  /** The block reads the same after every further run that the guard allows. */
  ghost predicate AlwaysReads(s: State, open: Window, b: nat)
    requires b in s.db
  {
    forall after :: ReadsOn(s, open, after, b)
  }

  lemma {:induction false} SettledExactly(s: State, open: Window, b: nat)
    requires Inv(s) && Numbers(s, open) && b in s.db
    ensures AlwaysReads(s, open, b) <==> Settled(s, s.db[b])
  {
    if Settled(s, s.db[b]) {
      forall after ensures ReadsOn(s, open, after, b) {
        if CanRun(s, after) && Exclusive(after, open) {
          SettledReadsOn(s, open, after, b);
        }
      }
    } else {
      var after := UnsettledBreaks(s, open, b);
      assert !ReadsOn(s, open, after, b);
    }
  }

  /**
   Main result on concurrent calls: at any point of a run under the guard, a block that has been issued reads the same
   after every further run under the guard if and only if it is settled.
   */
  lemma {:induction false} IssuedBlocksReadTheSame(s: State, before: seq<Action>, b: nat)
    requires Start(s) && CanRun(s, before) && Exclusive(before, Closed) && b in Run(s, before).db
    ensures var t := Run(s, before); AlwaysReads(t, OpenAfter(before, Closed), b) <==> Settled(t, t.db[b])
  {
    StartInv(s);
    ExclusiveRun(s, Closed, before, b);
    SettledExactly(Run(s, before), OpenAfter(before, Closed), b);
  }

  // ---------------------------------------------------------------------------------------------
  // What a caller can check beforehand
  // ---------------------------------------------------------------------------------------------

  /** The places of what a call has written. */
  function Own(w: Writer): seq<int>
    requires Done(w)
  {
    Extent(w.at, |w.data|)
  }

  ghost predicate Overwrites(s: State, w: Writer, b: nat, at: nat, ps: seq<int>)
    requires Done(w)
  {
    b in s.db && at <= |s.db[b]| && ps == Spliced(s.db[b], at, Own(w))
  }

  ghost predicate Shortens(s: State, b: nat, n: nat, ps: seq<int>) {
    b in s.db && n <= |s.db[b]| && ps == s.db[b][..n]
  }

  /** A call publishes what it wrote, or another block overwritten with that, or the first part of another block. */
  ghost predicate Careful(s: State, a: Action) {
    a.Put? && a.call in s.writers && Done(s.writers[a.call]) ==>
      || a.places == Own(s.writers[a.call])
      || (exists b: nat, at: nat :: Overwrites(s, s.writers[a.call], b, at, a.places))
      || (exists b: nat, n: nat :: Shortens(s, b, n, a.places))
  }

  ghost predicate CarefulRun(s: State, run: seq<Action>)
    requires CanRun(s, run)
    decreases |run|
  {
    run == [] || (Careful(s, run[0]) && CarefulRun(Next(s, run[0]), run[1..]))
  }

  lemma {:induction false} OwnSettled(s: State, c: nat)
    requires Inv(s) && c in s.writers && Done(s.writers[c])
    ensures Settled(s, Own(s.writers[c])) && Reserved(s, Own(s.writers[c]))
  {
    var own := Own(s.writers[c]);
    assert Within(s, c);
    forall p | p in own ensures SettledAt(s, p) && p < s.next && p < |s.log| {
      forall w: nat, j: nat ensures !Overdue(s, p, w, j) {
        assert Apart(s, w, c);
      }
    }
  }

  /** What an update that is sound publishes: the old block, overwritten with what the call wrote. */
  lemma {:induction false} SoundUpdateOverwrites(s: State, c: nat, b: nat, es: seq<Part>, at: nat)
    requires c in s.writers && Done(s.writers[c]) && s.writers[c].data != [] && b in s.db && Places(es) == s.db[b]
    requires WellFormed(es) && Keyed(es) && at <= Size(es) && Sound(es, at, |s.writers[c].data|)
    ensures var u := Updated(es, at, |s.writers[c].data|, s.writers[c].at);
            u.Some? && Overwrites(s, s.writers[c], b, at, Places(u.value))
  {
    UpdateRefines(es, at, |s.writers[c].data|, s.writers[c].at);
  }

  /** What a truncation publishes, whenever it is defined. */
  lemma {:induction false} TruncationShortens(s: State, b: nat, es: seq<Part>, n: nat)
    requires b in s.db && Places(es) == s.db[b] && WellFormed(es) && Keyed(es) && n > 0
    ensures var u := Resized(es, n); u.Some? ==> Shortens(s, b, n, Places(u.value))
  {
    ResizeRefines(es, n);
  }

  /** The map of a block whose places are reserved reaches no further. */
  lemma {:induction false} ReservedWithin(s: State, es: seq<Part>, limit: int)
    requires WellFormed(es) && Reserved(s, Places(es)) && limit == Limit(s)
    ensures Blocks.Within(es, limit)
  {
    forall i ensures EndsBy(es, i, limit) {
      if 0 <= i < |es| {
        LastPlace(es, i);
      }
    }
  }

  function Limit(s: State): int {
    if s.next <= |s.log| then s.next else |s.log|
  }

  /** Whatever an update of a block makes, sound or not, can be published if the old block could. */
  lemma {:induction false} UpdateReserved(s: State, c: nat, es: seq<Part>, at: nat)
    requires Inv(s) && c in s.writers && Done(s.writers[c]) && s.writers[c].data != []
    requires WellFormed(es) && Keyed(es) && at <= Size(es) && Reserved(s, Places(es))
    ensures var u := Updated(es, at, |s.writers[c].data|, s.writers[c].at); u.Some? ==> Reserved(s, Places(u.value))
  {
    var u, limit := Updated(es, at, |s.writers[c].data|, s.writers[c].at), Limit(s);
    assert Within(s, c);
    ReservedWithin(s, es, limit);
    UpdatedWithin(es, at, |s.writers[c].data|, s.writers[c].at, limit);
    if u.Some? {
      forall p | p in Places(u.value) ensures p < limit {
        var j :| 0 <= j < |Places(u.value)| && Places(u.value)[j] == p;
        PlacesWithin(u.value, limit, j);
      }
    }
  }

  ghost predicate AllSettled(s: State) {
    forall b: nat :: BlockReserved(s, b) && (b in s.db ==> Settled(s, s.db[b]))
  }

  /** A settled block, overwritten with what a finished call wrote, is settled. */
  lemma {:induction false} OverwriteSettles(s: State, c: nat, b: nat, at: nat, ps: seq<int>)
    requires Inv(s) && c in s.writers && Done(s.writers[c]) && Overwrites(s, s.writers[c], b, at, ps)
    requires Settled(s, s.db[b])
    ensures Settled(s, ps)
  {
    OwnSettled(s, c);
    forall p | p in ps ensures p in s.db[b] || p in Own(s.writers[c]) {
    }
  }

  /** What a caller can check before an update: the guard Sound of the map, and that the old block is settled. */
  lemma {:induction false} SoundUpdateSettles(s: State, c: nat, b: nat, es: seq<Part>, at: nat)
    requires Inv(s) && c in s.writers && Done(s.writers[c]) && s.writers[c].data != []
    requires b in s.db && Places(es) == s.db[b] && Settled(s, s.db[b])
    requires WellFormed(es) && Keyed(es) && at <= Size(es) && Sound(es, at, |s.writers[c].data|)
    ensures var u := Updated(es, at, |s.writers[c].data|, s.writers[c].at); u.Some? && Settled(s, Places(u.value))
  {
    SoundUpdateOverwrites(s, c, b, es, at);
    OverwriteSettles(s, c, b, at, Places(Updated(es, at, |s.writers[c].data|, s.writers[c].at).value));
  }

  lemma {:induction false} CarefulSettles(s: State, c: nat, ps: seq<int>)
    requires Inv(s) && AllSettled(s) && Enabled(s, Put(c, ps)) && Careful(s, Put(c, ps))
    ensures Settled(s, ps)
  {
    OwnSettled(s, c);
    var w := s.writers[c];
    if exists b: nat, at: nat :: Overwrites(s, w, b, at, ps) {
      var b: nat, at: nat :| Overwrites(s, w, b, at, ps);
      assert BlockReserved(s, b);
      OverwriteSettles(s, c, b, at, ps);
    } else if exists b: nat, n: nat :: Shortens(s, b, n, ps) {
      var b: nat, n: nat :| Shortens(s, b, n, ps);
      forall p | p in ps ensures p in s.db[b] {
      }
    }
  }

  lemma {:induction false} CarefulNext(s: State, a: Action)
    requires Inv(s) && AllSettled(s) && Enabled(s, a) && Careful(s, a)
    ensures AllSettled(Next(s, a))
  {
    var t := Next(s, a);
    if a.Put? {
      CarefulSettles(s, a.call, a.places);
    }
    forall b: nat ensures BlockReserved(t, b) && (b in t.db ==> Settled(t, t.db[b])) {
      assert BlockReserved(s, b);
      BlocksReserved(s, a, b);
      if b in t.db {
        NextSettled(s, a, t.db[b]);
      }
    }
  }

  /** When every call is careful, every block is settled, under every interleaving. */
  lemma {:induction false} CarefulRunSettles(s: State, run: seq<Action>)
    requires Inv(s) && AllSettled(s) && CanRun(s, run) && CarefulRun(s, run)
    ensures AllSettled(Run(s, run))
    decreases |run|
  {
    if run != [] {
      NextInv(s, run[0]);
      CarefulNext(s, run[0]);
      CarefulRunSettles(Next(s, run[0]), run[1..]);
    }
  }

  /** So, under the guard, what careful calls have published reads the same after every further run of any calls. */
  lemma {:induction false} CarefulBlocksReadTheSame(s: State, before: seq<Action>, after: seq<Action>, b: nat)
    requires Start(s) && CanRun(s, before) && CarefulRun(s, before) && CanRun(Run(s, before), after)
    requires Exclusive(before + after, Closed) && b in Run(s, before).db
    ensures var t, u := Run(s, before), Run(Run(s, before), after);
            b in u.db && Gather(u.log, u.db[b]) == Gather(t.log, t.db[b])
  {
    StartInv(s);
    CarefulRunSettles(s, before);
    ExclusiveParts(before, after, Closed);
    ExclusiveRun(s, Closed, before, b);
    SettledReadsOn(Run(s, before), OpenAfter(before, Closed), after, b);
  }

  // ---------------------------------------------------------------------------------------------
  // And without the guard
  // ---------------------------------------------------------------------------------------------

  /** A call has a number, or has published under it. */
  ghost predicate Holds(s: State, v: nat, id: nat) {
    v in s.writers && (s.writers[v].Numbered? || s.writers[v].Published?) && s.writers[v].id == id
  }

  /**
   A run of the program that breaks the guard breaks it first with a Load inside another call's window (a Count there
   would have needed such a Load before it), and that gives both calls the same number.
   */
  lemma {:induction false} BreachSharesANumber(s: State, open: Window, run: seq<Action>)
    returns (n: nat, v: nat, w: nat)
    requires Inv(s) && Numbers(s, open) && CanRun(s, run) && !Exclusive(run, open)
    ensures n < |run| && Exclusive(run[..n], open) && OpenAfter(run[..n], open) == Of(v) && run[n] == Load(w) && v != w
    ensures CanRun(s, run[..n + 1])
    ensures var t := Run(s, run[..n + 1]);
            v in t.writers && w in t.writers && t.writers[v].Numbered? && t.writers[w].Numbered? &&
            t.writers[v].id == t.writers[w].id
    decreases |run|
  {
    var a := run[0];
    assert open.Of? ==> Fresh(s, open, open.call);
    assert Fresh(s, open, a.call);
    if a.Load? && open.Of? {
      n, v, w := 0, open.call, a.call;
      assert run[..0] == [] && run[..1] == [a] && [a][1..] == [];
      assert CanRun(Next(s, a), []) && Run(s, [a]) == Next(s, a);
    } else {
      var next := if a.Load? then Of(a.call) else if a.Count? then Closed else open;
      NextInv(s, a);
      if a.Load? {
        LoadKeepsNumbers(s, a.call);
      } else if a.Count? {
        CountKeepsNumbers(s, a.call);
      } else {
        OtherKeepsNumbers(s, open, a);
      }
      var m;
      m, v, w := BreachSharesANumber(Next(s, a), next, run[1..]);
      n := m + 1;
      PrefixStep(run, m);
      PrefixStep(run, m + 1);
      RunFrom(s, a, run[1..][..m + 1]);
    }
  }

  lemma {:induction false} PrefixStep(run: seq<Action>, m: nat)
    requires m < |run|
    ensures run[..m + 1] == [run[0]] + run[1..][..m]
    ensures (run[..m + 1])[0] == run[0] && (run[..m + 1])[1..] == run[1..][..m]
  {
  }

  lemma {:induction false} RunFrom(s: State, a: Action, more: seq<Action>)
    requires Enabled(s, a) && CanRun(Next(s, a), more)
    ensures CanRun(s, [a] + more) && Run(s, [a] + more) == Run(Next(s, a), more)
  {
    assert ([a] + more)[1..] == more;
  }

  lemma {:induction false} NumberKept(s: State, run: seq<Action>, v: nat, id: nat)
    requires CanRun(s, run) && Holds(s, v, id)
    ensures Holds(Run(s, run), v, id) && Done(s.writers[v])
    decreases |run|
  {
    if run != [] {
      assert Holds(Next(s, run[0]), v, id);
      NumberKept(Next(s, run[0]), run[1..], v, id);
    }
  }

  /** A block as it reads when all its bytes are there. */
  function Plain(data: seq<Byte>): (r: seq<Option<Byte>>)
    ensures |r| == |data|
  {
    seq(|data|, j requires 0 <= j < |data| => Some(data[j]))
  }

  lemma {:induction false} OwnReads(s: State, c: nat)
    requires Inv(s) && c in s.writers && Done(s.writers[c])
    ensures Gather(s.log, Own(s.writers[c])) == Plain(s.writers[c].data)
  {
    DoneReads(s, c);
    var w := s.writers[c];
    forall j | 0 <= j < |w.data| ensures s.log[w.at + j] == w.data[j] {
      assert s.log[w.at..w.at + |w.data|][j] == w.data[j];
    }
  }

  lemma {:induction false} RunOne(s: State, a: Action, run: seq<Action>)
    requires Enabled(s, a) && run == [a]
    ensures CanRun(s, run) && Run(s, run) == Next(s, a)
  {
    assert run[1..] == [];
  }

  lemma {:induction false} RunTwo(s: State, a: Action, b: Action)
    requires Enabled(s, a) && Enabled(Next(s, a), b)
    ensures CanRun(s, [a, b]) && Run(s, [a, b]) == Next(Next(s, a), b)
  {
    RunOne(Next(s, a), b, [b]);
    RunFrom(s, a, [b]);
    assert [a, b] == [a] + [b];
  }

  lemma {:induction false} RunOn(s: State, first: seq<Action>, second: seq<Action>)
    requires CanRun(s, first) && CanRun(Run(s, first), second)
    ensures CanRun(s, first + second) && Run(s, first + second) == Run(Run(s, first), second)
    decreases first
  {
    if first == [] {
      assert first + second == second;
    } else {
      assert (first + second)[1..] == first[1..] + second;
      RunOn(Next(s, first[0]), first[1..], second);
    }
  }

  /** No step of the run publishes a block under this number. */
  ghost predicate Spares(s: State, run: seq<Action>, b: nat)
    requires CanRun(s, run)
    decreases |run|
  {
    run == [] ||
    ((run[0].Put? ==> s.writers[run[0].call].id != b) && Spares(Next(s, run[0]), run[1..], b))
  }

  lemma {:induction false} SparedBlockStays(s: State, run: seq<Action>, b: nat)
    requires CanRun(s, run) && Spares(s, run, b) && b in s.db
    ensures b in Run(s, run).db && Run(s, run).db[b] == s.db[b]
    decreases |run|
  {
    if run != [] {
      SparedBlockStays(Next(s, run[0]), run[1..], b);
    }
  }

  /**
   Two calls that hold numbers publish, with any steps before and any steps in between that do not publish under the
   first one's number. If the first one's block was settled, it still reads as it was published if and only if the
   numbers differ or the bytes are the same. If not, copying may have changed it too, when the numbers differ.
   */
  lemma {:induction false} FirstBlockSurvives(s: State, v: nat, ps: seq<int>, between: seq<Action>, w: nat,
                                              qs: seq<int>)
    requires Inv(s) && v != w && v in s.writers && Enabled(s, Put(v, ps))
    requires var t := Next(s, Put(v, ps)); CanRun(t, between) && Spares(t, between, s.writers[v].id)
    requires var u := Run(Next(s, Put(v, ps)), between); w in u.writers && Enabled(u, Put(w, qs))
    ensures var u := Run(Next(s, Put(v, ps)), between);
            var x, id := Next(u, Put(w, qs)), s.writers[v].id;
            id in x.db && Gather(x.log, x.db[id]) == Gather(u.log, if u.writers[w].id == id then qs else ps)
    ensures var u := Run(Next(s, Put(v, ps)), between);
            var x, id := Next(u, Put(w, qs)), s.writers[v].id;
            Settled(s, ps) ==>
              (Gather(x.log, x.db[id]) == Gather(s.log, ps)
               <==> u.writers[w].id != id || Gather(u.log, qs) == Gather(s.log, ps))
    ensures ps == Own(s.writers[v]) ==> Settled(s, ps) && Gather(s.log, ps) == Plain(s.writers[v].data)
  {
    var t, id := Next(s, Put(v, ps)), s.writers[v].id;
    NextInv(s, Put(v, ps));
    SparedBlockStays(t, between, id);
    if Settled(s, ps) {
      NextSettled(s, Put(v, ps), ps);
      RunSettled(t, between, ps);
    }
    OwnReads(s, v);
    OwnSettled(s, v);
  }

  lemma {:induction false} OwnStays(s: State, run: seq<Action>, v: nat, ps: seq<int>)
    requires Inv(s) && CanRun(s, run) && v in s.writers && Done(s.writers[v]) && ps == Own(s.writers[v])
    ensures Gather(Run(s, run).log, ps) == Plain(s.writers[v].data)
  {
    RunInv(s, run);
    RunKeeps(s, run, v);
    OwnReads(Run(s, run), v);
  }

  /**
   So once the guard is broken nothing protects a block: whatever steps come before, between and besides, when two calls
   with the same number have published, the block read as what the first one published and then as what the second one
   did. It has changed unless the bytes are the same; for two new blocks, unless the calls wrote the same data.
   */
  lemma {:induction false} SharedNumberOverwrites(s: State, v: nat, w: nat, first: seq<Action>, ps: seq<int>,
                                                  between: seq<Action>, qs: seq<int>, id: nat)
    requires Inv(s) && v != w && Holds(s, v, id) && Holds(s, w, id)
    requires CanRun(s, first) && Enabled(Run(s, first), Put(v, ps))
    requires var t := Next(Run(s, first), Put(v, ps)); CanRun(t, between) && Enabled(Run(t, between), Put(w, qs))
    ensures var t := Next(Run(s, first), Put(v, ps));
            var u := Run(t, between);
            var x := Next(u, Put(w, qs));
            && id in t.db && Gather(t.log, t.db[id]) == Gather(Run(s, first).log, ps)
            && id in x.db && Gather(x.log, x.db[id]) == Gather(u.log, qs)
            && (ps == Own(s.writers[v]) ==> Gather(t.log, t.db[id]) == Plain(s.writers[v].data))
            && (qs == Own(s.writers[w]) ==> Gather(x.log, x.db[id]) == Plain(s.writers[w].data))
  {
    var r := Run(s, first);
    RunInv(s, first);
    NumberKept(s, first, v, id);
    NumberKept(s, first, w, id);
    var t := Next(r, Put(v, ps));
    NextInv(r, Put(v, ps));
    assert Holds(t, w, id);
    NumberKept(t, between, w, id);
    if ps == Own(s.writers[v]) {
      OwnStays(s, first, v, ps);
    }
    if qs == Own(s.writers[w]) {
      RunKeeps(s, first, w);
      assert Kept(r, t, w) && qs == Own(t.writers[w]);
      OwnStays(t, between, w, qs);
    }
  }

  /** Two calls do read the same number, when both read before either writes it back. */
  lemma {:induction false} CounterRace(s: State, v: nat, w: nat)
    requires v != w && v in s.writers && w in s.writers && s.writers[v].Stored? && s.writers[w].Stored?
    ensures CanRun(s, [Load(v), Load(w), Count(v), Count(w)])
    ensures var t := Run(s, [Load(v), Load(w), Count(v), Count(w)]);
            v in t.writers && w in t.writers && t.writers[v].Numbered? && t.writers[w].Numbered? &&
            t.writers[v].counted && t.writers[w].counted && t.writers[v].id == t.writers[w].id == s.ids &&
            t.ids == s.ids + 1
  {
    var t := Next(Next(s, Load(v)), Load(w));
    RunTwo(s, Load(v), Load(w));
    RunTwo(t, Count(v), Count(w));
    RunOn(s, [Load(v), Load(w)], [Count(v), Count(w)]);
    assert [Load(v), Load(w)] + [Count(v), Count(w)] == [Load(v), Load(w), Count(v), Count(w)];
  }
}
