/**
 The block store: an append-only log, a counter of block ids, and a database of offset maps. Every operation that
 changes a block makes a new one. Run over any sequence of operations, the store behaves like a map from ids to bytes.
 */
module Blockstore {
  import opened Wrappers
  import opened OrderedMap
  import opened Blocks

  type Byte = b: int | 0 <= b < 256

  /** `next` is where the next reservation starts; it is advanced even by a reservation that does not fit. */
  datatype Store = Store(log: seq<Byte>, next: nat, ids: nat, db: map<nat, seq<Slice>>)

  datatype Op =
    | Write(data: seq<Byte>)
    | Update(data: seq<Byte>, offset: nat, block: nat)
    | Truncate(block: nat, size: nat)
    | Read(block: nat, length: nat)

  datatype Reply = Failed | Made(block: nat, size: nat) | Bytes(data: seq<Byte>)

  // ---------------------------------------------------------------------------------------------
  // What the store is for: a flat map from block id to bytes, with a budget for log space
  // ---------------------------------------------------------------------------------------------

  datatype FlatStore = FlatStore(blocks: map<nat, seq<Byte>>, ids: nat, used: nat, capacity: nat)

  function FlatMake(f: FlatStore, data: seq<Byte>): FlatStore {
    f.(blocks := f.blocks[f.ids := data], ids := f.ids + 1)
  }

  function FlatReserve(f: FlatStore, n: nat): FlatStore {
    f.(used := f.used + n)
  }

  ghost predicate InRange(f: FlatStore, op: Op) {
    match op
    case Write(_) => true
    case Update(d, at, b) => b in f.blocks && f.used + |d| <= f.capacity ==> at <= |f.blocks[b]|
    case Truncate(b, n) => b in f.blocks ==> n <= |f.blocks[b]|
    case Read(b, n) => b in f.blocks ==> n <= |f.blocks[b]|
  }

  function FlatStep(f: FlatStore, op: Op): (FlatStore, Reply)
    requires InRange(f, op)
  {
    match op
    case Write(d) =>
      if f.capacity < f.used + |d| then (FlatReserve(f, |d|), Failed)
      else (FlatMake(FlatReserve(f, |d|), d), Made(f.ids, |d|))
    case Update(d, at, b) =>
      if f.capacity < f.used + |d| || b !in f.blocks then (FlatReserve(f, |d|), Failed)
      else (FlatMake(FlatReserve(f, |d|), Spliced(f.blocks[b], at, d)), Made(f.ids, |d|))
    case Truncate(b, n) =>
      if b !in f.blocks then (f, Failed) else (FlatMake(f, f.blocks[b][..n]), Made(f.ids, n))
    case Read(b, n) =>
      if b !in f.blocks then (f, Failed) else (f, Bytes(f.blocks[b][..n]))
  }

  // ---------------------------------------------------------------------------------------------
  // The store itself
  // ---------------------------------------------------------------------------------------------

  ghost predicate InLog(s: Store, places: seq<int>) {
    forall j :: 0 <= j < |places| ==> 0 <= places[j] < s.next && places[j] < |s.log|
  }

  function Fetch(log: seq<Byte>, places: seq<int>): (r: seq<Byte>)
    requires forall j :: 0 <= j < |places| ==> 0 <= places[j] < |log|
    ensures |r| == |places|
  {
    seq(|places|, j requires 0 <= j < |places| => log[places[j]])
  }

  /** The part of the log that is never written again. */
  function Limit(s: Store): nat {
    if s.next <= |s.log| then s.next else |s.log|
  }

  ghost predicate Shaped(s: Store, b: nat)
    requires b in s.db
  {
    var es := Loaded(s.db[b]);
    b < s.ids && WellFormed(es) && Keyed(es) && es != [] && Within(es, Limit(s))
  }

  /** What every defined operation keeps: stored blocks have no gaps and reach no further than what is reserved. */
  ghost predicate Sane(s: Store) {
    forall b :: b in s.db ==> Shaped(s, b)
  }

  ghost predicate GoodBlock(s: Store, b: nat)
    requires b in s.db
  {
    Shaped(s, b) && InLog(s, Places(Loaded(s.db[b])))
  }

  /** What every guarded operation keeps: every place of every block is one in that part of the log. */
  ghost predicate Valid(s: Store) {
    Sane(s) && forall b :: b in s.db ==> GoodBlock(s, b)
  }

  ghost function Contents(s: Store, b: nat): seq<Byte>
    requires Valid(s) && b in s.db
  {
    Fetch(s.log, Places(Loaded(s.db[b])))
  }

  ghost function Abstract(s: Store): FlatStore
    requires Valid(s)
  {
    FlatStore(map b | b in s.db :: Contents(s, b), s.ids, s.next, |s.log|)
  }

  /** Reserve room in the log, and copy the data there when it fits. */
  function LogWrite(s: Store, data: seq<Byte>): Store {
    var s' := s.(next := s.next + |data|);
    if |s.log| < s.next + |data| then s' else s'.(log := s.log[..s.next] + data + s.log[s.next + |data|..])
  }

  function Make(s: Store, es: seq<Part>): Store {
    s.(ids := s.ids + 1, db := s.db[s.ids := Stored(es)])
  }

  /** The operations whose behaviour is defined: what callers must check at the least. */
  ghost predicate Defined(s: Store, op: Op)
    requires Sane(s)
  {
    match op
    case Write(d) => d != []
    case Update(d, at, b) =>
      && d != []
      && (b in s.db && s.next + |d| <= |s.log| ==>
            var es := Loaded(s.db[b]); at <= Size(es) && !RunsOff(es, at, |d|))
    case Truncate(b, n) =>
      n > 0 && (b in s.db ==> var es := Loaded(s.db[b]); es[|es| - 1].val.offset < n <= Size(es))
    case Read(b, n) =>
      n > 0 && (b in s.db ==> var p := Places(Loaded(s.db[b])); n <= |p| && InLog(s, p[..n]))
  }

  /** The operations for which the store is right: an update must not lose the place of any byte either. */
  ghost predicate Guarded(s: Store, op: Op)
    requires Valid(s)
  {
    && Defined(s, op)
    && (op.Update? && op.block in s.db && s.next + |op.data| <= |s.log| ==>
          Sound(Loaded(s.db[op.block]), op.offset, |op.data|))
  }

  ghost function Step(s: Store, op: Op): (Store, Reply)
    requires Sane(s) && Defined(s, op)
  {
    match op
    case Write(d) =>
      var s' := LogWrite(s, d);
      if |s.log| < s.next + |d| then (s', Failed)
      else (Make(s', Updated([], 0, |d|, s.next).value), Made(s.ids, |d|))
    case Update(d, at, b) =>
      var s' := LogWrite(s, d);
      if |s.log| < s.next + |d| || b !in s.db then (s', Failed)
      else
        (Make(s', Updated(Loaded(s.db[b]), at, |d|, s.next).value), Made(s.ids, |d|))
    case Truncate(b, n) =>
      if b !in s.db then (s, Failed)
      else
        ResizeRefines(Loaded(s.db[b]), n);
        (Make(s, Resized(Loaded(s.db[b]), n).value), Made(s.ids, n))
    case Read(b, n) =>
      if b !in s.db then (s, Failed) else (s, Bytes(Fetch(s.log, Places(Loaded(s.db[b]))[..n])))
  }

  lemma {:induction false} LogWriteKeeps(s: Store, data: seq<Byte>, places: seq<int>)
    requires InLog(s, places)
    ensures InLog(LogWrite(s, data), places)
    ensures Fetch(LogWrite(s, data).log, places) == Fetch(s.log, places)
    ensures |LogWrite(s, data).log| == |s.log|
  {
  }

  lemma {:induction false} LogWriteData(s: Store, data: seq<Byte>)
    requires s.next + |data| <= |s.log|
    ensures InLog(LogWrite(s, data), Extent(s.next, |data|))
    ensures Fetch(LogWrite(s, data).log, Extent(s.next, |data|)) == data
  {
  }

  lemma {:induction false} ReserveShaped(s: Store, data: seq<Byte>, b: nat)
    requires b in s.db && Shaped(s, b)
    ensures Shaped(LogWrite(s, data), b)
  {
    var es, more := Loaded(s.db[b]), Limit(LogWrite(s, data));
    assert Limit(s) <= more;
    forall i ensures EndsBy(es, i, more) {
      assert EndsBy(es, i, Limit(s));
    }
  }

  lemma {:induction false} ReserveSane(s: Store, data: seq<Byte>)
    requires Sane(s)
    ensures Sane(LogWrite(s, data))
  {
    var s' := LogWrite(s, data);
    forall b | b in s'.db
      ensures Shaped(s', b)
    {
      ReserveShaped(s, data, b);
    }
  }

  lemma {:induction false} ReserveRefines(s: Store, data: seq<Byte>)
    requires Valid(s)
    ensures Valid(LogWrite(s, data))
    ensures Abstract(LogWrite(s, data)) == FlatReserve(Abstract(s), |data|)
  {
    var s' := LogWrite(s, data);
    ReserveSane(s, data);
    forall b | b in s'.db
      ensures GoodBlock(s', b) && Fetch(s'.log, Places(Loaded(s'.db[b]))) == Fetch(s.log, Places(Loaded(s.db[b])))
    {
      assert GoodBlock(s, b) && Shaped(s', b);
      LogWriteKeeps(s, data, Places(Loaded(s.db[b])));
    }
  }

  lemma {:induction false} MakeSane(s: Store, es: seq<Part>)
    requires Sane(s) && WellFormed(es) && es != [] && Within(es, Limit(s))
    ensures Sane(Make(s, es))
  {
    var s' := Make(s, es);
    MadeBlock(s, es);
    forall b | b in s'.db
      ensures Shaped(s', b)
    {
      if b != s.ids {
        assert Shaped(s, b);
      }
    }
  }

  lemma {:induction false} MakeValid(s: Store, es: seq<Part>)
    requires Valid(s) && WellFormed(es) && es != [] && Within(es, Limit(s)) && InLog(s, Places(es))
    ensures Valid(Make(s, es))
  {
    var s' := Make(s, es);
    MadeBlock(s, es);
    MakeSane(s, es);
    forall b | b in s'.db
      ensures GoodBlock(s', b)
    {
      if b != s.ids {
        assert GoodBlock(s, b);
      }
    }
  }

  lemma {:induction false} MakeRefines(s: Store, es: seq<Part>)
    requires Valid(s) && WellFormed(es) && es != [] && Within(es, Limit(s)) && InLog(s, Places(es))
    ensures Valid(Make(s, es))
    ensures Abstract(Make(s, es)) == FlatMake(Abstract(s), Fetch(s.log, Places(es)))
  {
    MakeValid(s, es);
    MadeBlock(s, es);
    MadeBlocks(s, Make(s, es), es, Fetch(s.log, Places(es)));
  }

  lemma {:induction false} MadeBlocks(s: Store, t: Store, es: seq<Part>, data: seq<Byte>)
    requires Valid(s) && Valid(t) && t == Make(s, es) && InLog(s, Places(es)) && data == Fetch(s.log, Places(es))
    requires Places(Loaded(t.db[s.ids])) == Places(es)
    ensures Abstract(t).blocks == Abstract(s).blocks[s.ids := data]
  {
    var made, flat := Abstract(t).blocks, Abstract(s).blocks[s.ids := data];
    assert made.Keys == flat.Keys;
    forall b | b in made
      ensures made[b] == flat[b]
    {
      MadeContents(s, es, b);
    }
  }

  lemma {:induction false} MadeContents(s: Store, es: seq<Part>, b: nat)
    requires Valid(s) && Valid(Make(s, es)) && b in Make(s, es).db && InLog(s, Places(es))
    requires Places(Loaded(Make(s, es).db[s.ids])) == Places(es)
    ensures Contents(Make(s, es), b) == if b == s.ids then Fetch(s.log, Places(es)) else Contents(s, b)
  {
  }

  lemma {:induction false} MadeBlock(s: Store, es: seq<Part>)
    requires WellFormed(es) && es != [] && Within(es, Limit(s))
    ensures Shaped(Make(s, es), s.ids) && Places(Loaded(Make(s, es).db[s.ids])) == Places(es)
  {
    ReloadRepairs(es);
    LoadedWithin(es, Limit(s));
    PlacesSize(es);
    assert Linked(es, |es| - 1);
    assert Places([]) == [];
  }

  lemma {:induction false} FetchConcat(s: Store, p: seq<int>, q: seq<int>)
    requires InLog(s, p) && InLog(s, q)
    ensures InLog(s, p + q) && Fetch(s.log, p + q) == Fetch(s.log, p) + Fetch(s.log, q)
  {
  }

  lemma {:induction false} FetchPart(s: Store, p: seq<int>, n: nat)
    requires InLog(s, p) && n <= |p|
    ensures InLog(s, p[..n]) && Fetch(s.log, p[..n]) == Fetch(s.log, p)[..n]
    ensures InLog(s, p[n..]) && Fetch(s.log, p[n..]) == Fetch(s.log, p)[n..]
  {
  }

  lemma {:induction false} FetchAfter(s: Store, p: seq<int>, n: nat)
    requires InLog(s, p)
    ensures InLog(s, After(p, n)) && Fetch(s.log, After(p, n)) == After(Fetch(s.log, p), n)
  {
    if n <= |p| {
      FetchPart(s, p, n);
    }
  }

  lemma {:induction false} FetchJoined(s: Store, p: seq<int>, at: nat, q: seq<int>, rest: seq<int>)
    requires InLog(s, p) && InLog(s, q) && InLog(s, rest) && at <= |p|
    ensures InLog(s, p[..at] + (q + rest))
    ensures Fetch(s.log, p[..at] + (q + rest)) == Fetch(s.log, p)[..at] + (Fetch(s.log, q) + Fetch(s.log, rest))
  {
    FetchPart(s, p, at);
    FetchConcat(s, q, rest);
    FetchConcat(s, p[..at], q + rest);
  }

  lemma {:induction false} FetchSpliced(s: Store, p: seq<int>, at: nat, q: seq<int>)
    requires InLog(s, p) && InLog(s, q) && at <= |p|
    ensures InLog(s, Spliced(p, at, q))
    ensures Fetch(s.log, Spliced(p, at, q)) == Spliced(Fetch(s.log, p), at, Fetch(s.log, q))
  {
    FetchAfter(s, p, at + |q|);
    FetchJoined(s, p, at, q, After(p, at + |q|));
  }

  /** A new slice in a map, sound or not, leaves a map that reaches no further than what is reserved then. */
  lemma {:induction false} UpdatedShape(s: Store, es: seq<Part>, at: nat, n: nat, next: nat)
    requires WellFormed(es) && Keyed(es) && n > 0 && at <= Size(es) && Within(es, Limit(s)) && next + n <= Limit(s)
    ensures var u := Updated(es, at, n, next);
            u.Some? ==> WellFormed(u.value) && u.value != [] && Within(u.value, Limit(s))
  {
    UpdateKeepsShape(es, at, n, next);
    UpdatedWithin(es, at, n, next, Limit(s));
  }

  lemma {:induction false} InRangeToo(s: Store, op: Op)
    requires Valid(s) && Guarded(s, op)
    ensures InRange(Abstract(s), op)
  {
    if !op.Write? && op.block in s.db {
      assert GoodBlock(s, op.block);
      PlacesSize(Loaded(s.db[op.block]));
    }
  }

  /** One guarded operation: the flat store takes the same step and gives the same reply. */
  lemma {:induction false} StepRefines(s: Store, op: Op)
    requires Valid(s) && Guarded(s, op)
    ensures Valid(Step(s, op).0) && InRange(Abstract(s), op)
    ensures FlatStep(Abstract(s), op) == (Abstract(Step(s, op).0), Step(s, op).1)
  {
    InRangeToo(s, op);
    match op
    case Write(d) => WriteRefines(s, d);
    case Update(d, at, b) => UpdateStepRefines(s, d, at, b);
    case Truncate(b, n) => TruncateStepRefines(s, b, n);
    case Read(b, n) => ReadRefines(s, b, n);
  }

  lemma {:induction false} WriteRefines(s: Store, d: seq<Byte>)
    requires Valid(s) && d != []
    ensures Valid(Step(s, Write(d)).0)
    ensures FlatStep(Abstract(s), Write(d)) == (Abstract(Step(s, Write(d)).0), Step(s, Write(d)).1)
  {
    ReserveRefines(s, d);
    if s.next + |d| <= |s.log| {
      var es := Updated([], 0, |d|, s.next).value;
      forall i ensures EndsBy([], i, Limit(LogWrite(s, d))) {
      }
      UpdatedShape(LogWrite(s, d), [], 0, |d|, s.next);
      UpdatedEmpty(|d|, s.next);
      OnePlace(es[0]);
      LogWriteData(s, d);
      MakeRefines(LogWrite(s, d), es);
    }
  }

  lemma {:induction false} UpdateStepRefines(s: Store, d: seq<Byte>, at: nat, b: nat)
    requires Valid(s) && Guarded(s, Update(d, at, b)) && InRange(Abstract(s), Update(d, at, b))
    ensures Valid(Step(s, Update(d, at, b)).0)
    ensures FlatStep(Abstract(s), Update(d, at, b))
         == (Abstract(Step(s, Update(d, at, b)).0), Step(s, Update(d, at, b)).1)
  {
    ReserveRefines(s, d);
    if s.next + |d| <= |s.log| && b in s.db {
      var es, s' := Loaded(s.db[b]), LogWrite(s, d);
      assert GoodBlock(s, b);
      UpdateRefines(es, at, |d|, s.next);
      ReserveShaped(s, d, b);
      UpdatedShape(s', es, at, |d|, s.next);
      var r := Updated(es, at, |d|, s.next).value;
      LogWriteKeeps(s, d, Places(es));
      LogWriteData(s, d);
      FetchSpliced(s', Places(es), at, Extent(s.next, |d|));
      MakeRefines(s', r);
    }
  }

  lemma {:induction false} TruncateStepRefines(s: Store, b: nat, n: nat)
    requires Valid(s) && Guarded(s, Truncate(b, n)) && InRange(Abstract(s), Truncate(b, n))
    ensures Valid(Step(s, Truncate(b, n)).0)
    ensures FlatStep(Abstract(s), Truncate(b, n)) == (Abstract(Step(s, Truncate(b, n)).0), Step(s, Truncate(b, n)).1)
  {
    if b in s.db {
      var es := Loaded(s.db[b]);
      assert GoodBlock(s, b);
      ResizeRefines(es, n);
      ResizedWithin(es, n, Limit(s));
      var r := Resized(es, n).value;
      assert r != [];
      assert Fetch(s.log, Places(es)[..n]) == Fetch(s.log, Places(es))[..n];
      MakeRefines(s, r);
    }
  }

  lemma {:induction false} ReadRefines(s: Store, b: nat, n: nat)
    requires Valid(s) && Guarded(s, Read(b, n)) && InRange(Abstract(s), Read(b, n))
    ensures FlatStep(Abstract(s), Read(b, n)) == (Abstract(Step(s, Read(b, n)).0), Step(s, Read(b, n)).1)
  {
    if b in s.db {
      assert GoodBlock(s, b);
      PlacesSize(Loaded(s.db[b]));
      assert Fetch(s.log, Places(Loaded(s.db[b]))[..n]) == Fetch(s.log, Places(Loaded(s.db[b])))[..n];
    }
  }

  // ---------------------------------------------------------------------------------------------
  // Runs
  // ---------------------------------------------------------------------------------------------

  ghost predicate GuardedRun(s: Store, ops: seq<Op>)
    requires Valid(s)
    decreases ops
  {
    ops == [] || (Guarded(s, ops[0]) && (StepRefines(s, ops[0]); GuardedRun(Step(s, ops[0]).0, ops[1..])))
  }

  ghost function Run(s: Store, ops: seq<Op>): (r: (Store, seq<Reply>))
    requires Valid(s) && GuardedRun(s, ops)
    decreases ops
  {
    if ops == [] then (s, [])
    else
      StepRefines(s, ops[0]);
      var (s', more) := Run(Step(s, ops[0]).0, ops[1..]);
      (s', [Step(s, ops[0]).1] + more)
  }

  /** The flat store run on the same operations; it stops at an operation that is out of range. */
  ghost function FlatRun(f: FlatStore, ops: seq<Op>): (FlatStore, seq<Reply>)
    decreases ops
  {
    if ops == [] || !InRange(f, ops[0]) then (f, [])
    else
      var (f', more) := FlatRun(FlatStep(f, ops[0]).0, ops[1..]);
      (f', [FlatStep(f, ops[0]).1] + more)
  }

  /** Over any run, the store gives the flat store's replies and ends in the state that stands for the flat store's. */
  lemma {:induction false} RunRefines(s: Store, ops: seq<Op>)
    requires Valid(s) && GuardedRun(s, ops)
    ensures Valid(Run(s, ops).0)
    ensures FlatRun(Abstract(s), ops) == (Abstract(Run(s, ops).0), Run(s, ops).1)
    decreases ops
  {
    if ops != [] {
      StepRefines(s, ops[0]);
      RunRefines(Step(s, ops[0]).0, ops[1..]);
    }
  }

  // ---------------------------------------------------------------------------------------------
  // Runs of defined operations, guarded or not
  // ---------------------------------------------------------------------------------------------

  lemma {:induction false} WriteSane(s: Store, d: seq<Byte>)
    requires Sane(s) && d != []
    ensures Sane(Step(s, Write(d)).0)
  {
    ReserveSane(s, d);
    var s' := LogWrite(s, d);
    if s.next + |d| <= |s.log| {
      forall i ensures EndsBy([], i, Limit(s')) {
      }
      UpdatedShape(s', [], 0, |d|, s.next);
      MakeSane(s', Updated([], 0, |d|, s.next).value);
    }
  }

  lemma {:induction false} UpdateSane(s: Store, d: seq<Byte>, at: nat, b: nat)
    requires Sane(s) && Defined(s, Update(d, at, b))
    ensures Sane(Step(s, Update(d, at, b)).0)
  {
    ReserveSane(s, d);
    var s' := LogWrite(s, d);
    if s.next + |d| <= |s.log| && b in s.db {
      var es := Loaded(s.db[b]);
      assert Shaped(s, b);
      ReserveShaped(s, d, b);
      UpdatedShape(s', es, at, |d|, s.next);
      MakeSane(s', Updated(es, at, |d|, s.next).value);
    }
  }

  lemma {:induction false} TruncateSane(s: Store, b: nat, n: nat)
    requires Sane(s) && Defined(s, Truncate(b, n))
    ensures Sane(Step(s, Truncate(b, n)).0)
  {
    if b in s.db {
      var es := Loaded(s.db[b]);
      assert Shaped(s, b);
      ResizeRefines(es, n);
      ResizedWithin(es, n, Limit(s));
      MakeSane(s, Resized(es, n).value);
    }
  }

  lemma {:induction false} StepSane(s: Store, op: Op)
    requires Sane(s) && Defined(s, op)
    ensures Sane(Step(s, op).0)
  {
    match op
    case Write(d) => WriteSane(s, d);
    case Update(d, at, b) => UpdateSane(s, d, at, b);
    case Truncate(b, n) => TruncateSane(s, b, n);
    case Read(b, n) =>
  }

  lemma {:induction false} UpdateStepMade(s: Store, d: seq<Byte>, at: nat, b: nat, es: seq<Part>, r: seq<Part>)
    requires Sane(s) && Defined(s, Update(d, at, b)) && b in s.db && s.next + |d| <= |s.log|
    requires es == Loaded(s.db[b])
    requires WellFormed(es) && Keyed(es) && at <= Size(es) && Updated(es, at, |d|, s.next) == Some(r)
    ensures Step(s, Update(d, at, b)) == (Make(LogWrite(s, d), r), Made(s.ids, |d|))
  {
  }

  /** A block q that was made from the block p by writing n bytes, now at `disk` in the log, at `at`. */
  ghost predicate MadeFrom(es: seq<Part>, p: seq<int>, at: nat, n: nat, disk: int, q: seq<int>) {
    && at <= |p| && at + n <= |q| && q[..at] == p[..at] && q[at..at + n] == Extent(disk, n)
    && LeavesBehind(es, p, LowerBound(es, at), at, at + n, q[at + n..])
  }

  lemma {:induction false} UpdatedFrom(es: seq<Part>, at: nat, n: nat, disk: int, r: seq<Part>)
    requires WellFormed(es) && Keyed(es) && n > 0 && at <= Size(es) && Updated(es, at, n, disk) == Some(r)
    ensures MadeFrom(es, Places(es), at, n, disk, Places(r))
  {
    UpdateLeaves(es, at, n, disk);
  }

  lemma {:induction false} MadeHere(s: Store, d: seq<Byte>, r: seq<Part>, t: Store)
    requires s.next + |d| <= |s.log| && t == Make(LogWrite(s, d), r)
    requires WellFormed(r) && r != [] && Within(r, Limit(LogWrite(s, d)))
    ensures s.ids in t.db && t.ids == s.ids + 1 && t.next == s.next + |d|
    ensures t.log == s.log[..s.next] + d + s.log[s.next + |d|..] && Places(Loaded(t.db[s.ids])) == Places(r)
  {
    MadeBlock(LogWrite(s, d), r);
  }

  /**
   What every defined update makes, sound or not: a new block with the data in place, and around it what UpdateLeaves
   says; and the log holds the data there.
   */
  lemma {:induction false} UpdateMakes(s: Store, d: seq<Byte>, at: nat, b: nat, es: seq<Part>) returns (t: Store)
    requires Sane(s) && Defined(s, Update(d, at, b)) && b in s.db && s.next + |d| <= |s.log| && es == Loaded(s.db[b])
    ensures Step(s, Update(d, at, b)) == (t, Made(s.ids, |d|))
    ensures s.ids in t.db && t.ids == s.ids + 1 && t.next == s.next + |d|
    ensures t.log == s.log[..s.next] + d + s.log[s.next + |d|..]
    ensures MadeFrom(es, Places(es), at, |d|, s.next, Places(Loaded(t.db[s.ids])))
  {
    assert Shaped(s, b);
    var r := Updated(es, at, |d|, s.next).value;
    UpdateStepMade(s, d, at, b, es, r);
    t := Make(LogWrite(s, d), r);
    ReserveShaped(s, d, b);
    UpdatedShape(LogWrite(s, d), es, at, |d|, s.next);
    UpdatedFrom(es, at, |d|, s.next, r);
    MadeHere(s, d, r, t);
  }

  ghost predicate DefinedRun(s: Store, ops: seq<Op>)
    requires Sane(s)
    decreases ops
  {
    ops == [] || (Defined(s, ops[0]) && (StepSane(s, ops[0]); DefinedRun(Step(s, ops[0]).0, ops[1..])))
  }

  ghost function Ends(s: Store, ops: seq<Op>): Store
    requires Sane(s) && DefinedRun(s, ops)
    decreases ops
  {
    if ops == [] then s else StepSane(s, ops[0]); Ends(Step(s, ops[0]).0, ops[1..])
  }

  /** Each byte of the log below the limit is still what it was. */
  ghost predicate Extends(s: Store, s': Store) {
    && |s'.log| == |s.log| && s.ids <= s'.ids && Limit(s) <= Limit(s')
    && (forall p :: 0 <= p < Limit(s) ==> s'.log[p] == s.log[p])
    && (forall b :: b in s.db ==> b in s'.db && s'.db[b] == s.db[b])
  }

  lemma {:induction false} StepExtends(s: Store, op: Op)
    requires Sane(s) && Defined(s, op)
    ensures Extends(s, Step(s, op).0)
  {
    forall b | b in s.db
      ensures b != s.ids
    {
      assert Shaped(s, b);
    }
  }

  lemma {:induction false} RunExtends(s: Store, ops: seq<Op>)
    requires Sane(s) && DefinedRun(s, ops)
    ensures Sane(Ends(s, ops)) && Extends(s, Ends(s, ops))
    decreases ops
  {
    if ops != [] {
      StepSane(s, ops[0]);
      StepExtends(s, ops[0]);
      RunExtends(Step(s, ops[0]).0, ops[1..]);
    }
  }

  /**
   Blocks never change: whatever a run of defined operations does, sound or not, a block that exists keeps its offset
   map, and every byte of the log that the map names; so if it could be read before, it reads the same afterwards.
   */
  lemma {:induction false} BlocksImmutable(s: Store, ops: seq<Op>, b: nat)
    requires Sane(s) && DefinedRun(s, ops) && b in s.db
    ensures var s', p := Ends(s, ops), Places(Loaded(s.db[b]));
            && b in s'.db && s'.db[b] == s.db[b]
            && (forall j :: 0 <= j < |p| && 0 <= p[j] ==> p[j] < |s.log| == |s'.log| && s'.log[p[j]] == s.log[p[j]])
            && (InLog(s, p) ==> InLog(s', p) && Fetch(s'.log, p) == Fetch(s.log, p))
  {
    var s', p := Ends(s, ops), Places(Loaded(s.db[b]));
    RunExtends(s, ops);
    assert Shaped(s, b);
    forall j | 0 <= j < |p|
      ensures p[j] < Limit(s)
    {
      PlacesWithin(Loaded(s.db[b]), Limit(s), j);
    }
  }

  /** The guarded runs are among them, and every block of theirs can be read. */
  lemma {:induction false} GuardedIsDefined(s: Store, ops: seq<Op>)
    requires Valid(s) && GuardedRun(s, ops)
    ensures DefinedRun(s, ops) && Ends(s, ops) == Run(s, ops).0
    ensures Readable(s) && Readable(Ends(s, ops))
    decreases ops
  {
    ValidReads(s);
    if ops != [] {
      StepRefines(s, ops[0]);
      GuardedIsDefined(Step(s, ops[0]).0, ops[1..]);
    }
  }

  /** Every place of every block lies in the log. */
  ghost predicate Readable(s: Store) {
    forall b :: b in s.db ==> InLog(s, Places(Loaded(s.db[b])))
  }

  lemma {:induction false} ValidReads(s: Store)
    requires Valid(s)
    ensures Readable(s)
  {
    forall b | b in s.db
      ensures InLog(s, Places(Loaded(s.db[b])))
    {
      assert GoodBlock(s, b);
    }
  }
}
