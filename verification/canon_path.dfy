/**
 Canonical paths: the program walks over a path and edits a buffer in place; what it computes is the resolution of the
 path's components on a stack.
 */
module CanonPaths {

  const PATH_MAX: nat := 4096

  // ---------------------------------------------------------------------------------------------
  // What a path means
  // ---------------------------------------------------------------------------------------------

  /** Everything before the first slash. */
  function Name(s: string): (n: string)
    ensures |n| <= |s| && n == s[..|n|] && '/' !in n
    ensures |n| < |s| ==> s[|n|] == '/'
  {
    if s == "" || s[0] == '/' then "" else [s[0]] + Name(s[1..])
  }

  /** The path split at its slashes, empty pieces included. */
  function Components(s: string): seq<string>
    decreases |s|
  {
    var n := Name(s);
    if |n| == |s| then [n] else [n] + Components(s[|n| + 1..])
  }

  function Up(st: seq<string>): seq<string> {
    if st == [] then [] else st[..|st| - 1]
  }

  /** Empty components and "." are dropped; ".." goes up, and stays at the root. */
  function Resolve(st: seq<string>, cs: seq<string>): seq<string>
    decreases |cs|
  {
    if cs == [] then st
    else if cs[0] == "" || cs[0] == "." then Resolve(st, cs[1..])
    else if cs[0] == ".." then Resolve(Up(st), cs[1..])
    else Resolve(st + [cs[0]], cs[1..])
  }

  predicate Proper(n: string) {
    n != "" && n != "." && n != ".." && '/' !in n
  }

  ghost predicate AllProper(st: seq<string>) {
    forall n :: n in st ==> Proper(n)
  }

  /** A stack as the buffer holds it: every name is followed by a slash. */
  function Text(st: seq<string>): (t: string)
    ensures |t| > 0 && t[|t| - 1] == '/' && t[0] == '/'
    decreases |st|
  {
    if st == [] then "/" else Text(Up(st)) + st[|st| - 1] + "/"
  }

  /** A stack as a path: no slash at the end, except for the root. */
  function Show(st: seq<string>): (s: string)
    ensures s != "" && s[0] == '/'
  {
    if st == [] then "/" else Text(Up(st)) + st[|st| - 1]
  }

  // ---------------------------------------------------------------------------------------------
  // What the program does
  // ---------------------------------------------------------------------------------------------

  /**
   Undefined: the program would go on writing behind the buffer. It compares its position with the last place but one
   for equality only, and only after a character of a name; a slash can take it past that place.
   */
  datatype Outcome = Done(stack: seq<string>) | TooLong | Undefined

  predicate Caught(size: nat, st: seq<string>, n: string) {
    |Text(st)| + 2 < size <= |Text(st)| + |n| + 2
  }

  predicate Overruns(size: nat, st: seq<string>, n: string) {
    size <= |Text(st)| + 2 && size <= |Text(st)| + |n|
  }

  /** A name can be put on the stack: the program neither stops there nor leaves the buffer. */
  ghost predicate CanPush(size: nat, st: seq<string>, n: string) {
    !Caught(size, st, n) && !Overruns(size, st, n)
  }

  /** The main loop, with the buffer's contents given by the stack. */
  function Canon(size: nat, st: seq<string>, rel: string): Outcome
    decreases |rel|
  {
    if rel == "" then Done(st)
    else if rel[0] == '/' then Canon(size, st, rel[1..])
    else
      var n := Name(rel);
      var rest := rel[|n|..];
      if n == "." then Canon(size, st, rest)
      else if n == ".." then Canon(size, Up(st), rest)
      else if Caught(size, st, n) then TooLong
      else if Overruns(size, st, n) then Undefined
      else Canon(size, st + [n], rest)
  }

  lemma {:induction false} ComponentsSlash(rel: string)
    requires rel != "" && rel[0] == '/'
    ensures Components(rel) == [""] + Components(rel[1..])
  {
    assert Name(rel) == "";
  }

  /** Whatever is behind a name, its components come behind the name; an empty one in between makes no difference. */
  lemma {:induction false} ComponentsBehind(rel: string, n: string, rest: string, cs: seq<string>, ds: seq<string>)
    requires n == Name(rel) && n != "" && rest == rel[|n|..] && cs == Components(rel) && ds == Components(rest)
    ensures cs == [n] + (if rest == "" then [] else ds[1..])
    ensures ds != [] && ds[0] == "" && (rest == "" ==> |ds| == 1)
  {
    if rest != "" {
      ComponentsSlash(rest);
      assert rel[|n| + 1..] == rest[1..];
    }
  }

  lemma {:induction false} ResolveFirst(st: seq<string>, n: string, more: seq<string>)
    ensures Resolve(st, [n] + more) == Resolve(Resolve(st, [n]), more)
  {
    assert ([n] + more)[1..] == more && [n][1..] == [];
  }

  lemma {:induction false} ResolveEmpty(st: seq<string>, ds: seq<string>)
    requires ds != [] && ds[0] == ""
    ensures Resolve(st, ds) == Resolve(st, ds[1..])
  {
  }

  lemma {:induction false} ResolveName(st: seq<string>, rel: string, n: string, rest: string,
                                       cs: seq<string>, ds: seq<string>)
    requires n == Name(rel) && n != "" && rest == rel[|n|..] && cs == Components(rel) && ds == Components(rest)
    ensures Resolve(st, cs) == Resolve(Resolve(st, [n]), ds)
  {
    ComponentsBehind(rel, n, rest, cs, ds);
    ResolveFirst(st, n, ds[1..]);
    ResolveEmpty(Resolve(st, [n]), ds);
    assert rest == "" ==> ds[1..] == [];
  }

  /** Whenever the program succeeds, the buffer holds the resolution of the components. */
  lemma {:induction false} CanonResolves(size: nat, st: seq<string>, rel: string)
    ensures Canon(size, st, rel).Done? ==> Canon(size, st, rel).stack == Resolve(st, Components(rel))
    decreases |rel|
  {
    if rel == "" {
      assert Components(rel) == [""] && [""][1..] == [];
    } else if rel[0] == '/' {
      CanonResolves(size, st, rel[1..]);
      ComponentsSlash(rel);
      assert ([""] + Components(rel[1..]))[1..] == Components(rel[1..]);
    } else {
      var n := Name(rel);
      var rest := rel[|n|..];
      ResolveName(st, rel, n, rest, Components(rel), Components(rest));
      assert [n][1..] == [];
      CanonResolves(size, Resolve(st, [n]), rest);
    }
  }

  // ---------------------------------------------------------------------------------------------
  // Exactly when it succeeds
  // ---------------------------------------------------------------------------------------------

  /** Component k is a name that cannot be put on top of what the components before it come to. */
  ghost predicate StuckAt(size: nat, st: seq<string>, cs: seq<string>, k: int) {
    0 <= k < |cs| && Proper(cs[k]) && !CanPush(size, Resolve(st, cs[..k]), cs[k])
  }

  ghost predicate FitsAll(size: nat, st: seq<string>, cs: seq<string>) {
    forall k :: !StuckAt(size, st, cs, k)
  }

  ghost predicate FirstStuck(size: nat, st: seq<string>, cs: seq<string>, k: int) {
    StuckAt(size, st, cs, k) && forall j :: j < k ==> !StuckAt(size, st, cs, j)
  }

  function Failure(size: nat, st: seq<string>, n: string): Outcome {
    if Caught(size, st, n) then TooLong else Undefined
  }

  /** An outcome is what the components come to, when all of them fit; else the first that does not decides. */
  ghost predicate Decides(size: nat, st: seq<string>, cs: seq<string>, o: Outcome) {
    && (o.Done? <==> FitsAll(size, st, cs))
    && (o.Done? ==> o.stack == Resolve(st, cs))
    && forall k :: FirstStuck(size, st, cs, k) ==> o == Failure(size, Resolve(st, cs[..k]), cs[k])
  }

  lemma {:induction false} StuckFirst(size: nat, st: seq<string>, c: string, tail: seq<string>)
    ensures StuckAt(size, st, [c] + tail, 0) <==> Proper(c) && !CanPush(size, st, c)
  {
    assert ([c] + tail)[..0] == [];
  }

  lemma {:induction false} StuckLater(size: nat, st: seq<string>, c: string, tail: seq<string>, k: int)
    requires k >= 0
    ensures StuckAt(size, st, [c] + tail, k + 1) <==> StuckAt(size, Resolve(st, [c]), tail, k)
    ensures k < |tail| ==> ([c] + tail)[k + 1] == tail[k]
    ensures k < |tail| ==> Resolve(st, ([c] + tail)[..k + 1]) == Resolve(Resolve(st, [c]), tail[..k])
  {
    if k < |tail| {
      ResolveFirst(st, c, tail[..k]);
      assert ([c] + tail)[..k + 1] == [c] + tail[..k];
    }
  }

  lemma {:induction false} FirstStuckLater(size: nat, st: seq<string>, c: string, tail: seq<string>, k: int)
    requires !StuckAt(size, st, [c] + tail, 0)
    ensures k >= 0 ==> (FirstStuck(size, st, [c] + tail, k + 1) <==> FirstStuck(size, Resolve(st, [c]), tail, k))
  {
    if k >= 0 {
      var first, later := Resolve(st, [c]), [c] + tail;
      StuckLater(size, st, c, tail, k);
      forall j | 0 <= j < k ensures StuckAt(size, st, later, j + 1) <==> StuckAt(size, first, tail, j) {
        StuckLater(size, st, c, tail, j);
      }
      forall j | j < k + 1 && FirstStuck(size, first, tail, k) ensures !StuckAt(size, st, later, j) {
        if j > 0 {
          assert !StuckAt(size, first, tail, j - 1);
          StuckLater(size, st, c, tail, j - 1);
        }
      }
      forall j | j < k && FirstStuck(size, st, later, k + 1) ensures !StuckAt(size, first, tail, j) {
        if j >= 0 {
          assert !StuckAt(size, st, later, j + 1);
          StuckLater(size, st, c, tail, j);
        }
      }
    }
  }

  lemma {:induction false} FitsLater(size: nat, st: seq<string>, c: string, tail: seq<string>)
    requires !StuckAt(size, st, [c] + tail, 0)
    ensures FitsAll(size, st, [c] + tail) <==> FitsAll(size, Resolve(st, [c]), tail)
  {
    var first, later := Resolve(st, [c]), [c] + tail;
    if FitsAll(size, st, later) {
      forall k ensures !StuckAt(size, first, tail, k) {
        if k >= 0 {
          StuckLater(size, st, c, tail, k);
          assert !StuckAt(size, st, later, k + 1);
        }
      }
    }
    if FitsAll(size, first, tail) {
      forall k ensures !StuckAt(size, st, later, k) {
        if k > 0 {
          StuckLater(size, st, c, tail, k - 1);
          assert !StuckAt(size, first, tail, k - 1);
        }
      }
    }
  }

  /** A component that is dropped, goes up, or fits passes the decision on to the rest. */
  lemma {:induction false} DecidesLater(size: nat, st: seq<string>, c: string, tail: seq<string>, o: Outcome)
    requires !(Proper(c) && !CanPush(size, st, c))
    ensures Decides(size, st, [c] + tail, o) <==> Decides(size, Resolve(st, [c]), tail, o)
  {
    var first, later := Resolve(st, [c]), [c] + tail;
    StuckFirst(size, st, c, tail);
    FitsLater(size, st, c, tail);
    ResolveFirst(st, c, tail);
    if Decides(size, st, later, o) {
      forall k | FirstStuck(size, first, tail, k) ensures o == Failure(size, Resolve(first, tail[..k]), tail[k]) {
        FirstStuckLater(size, st, c, tail, k);
        StuckLater(size, st, c, tail, k);
        assert FirstStuck(size, st, later, k + 1);
      }
    }
    if Decides(size, first, tail, o) {
      forall k | FirstStuck(size, st, later, k) ensures o == Failure(size, Resolve(st, later[..k]), later[k]) {
        FirstStuckLater(size, st, c, tail, k - 1);
        StuckLater(size, st, c, tail, k - 1);
      }
    }
  }

  lemma {:induction false} DecidesNow(size: nat, st: seq<string>, c: string, tail: seq<string>)
    requires Proper(c) && !CanPush(size, st, c)
    ensures Decides(size, st, [c] + tail, Failure(size, st, c))
  {
    var cs := [c] + tail;
    StuckFirst(size, st, c, tail);
    assert cs[..0] == [];
    forall k | FirstStuck(size, st, cs, k) ensures k == 0 {
    }
  }

  /**
   Main result: the program succeeds if and only if each name fits on top of what the components before it resolve to.
   Otherwise the first name that does not fit decides: the path is reported to be too long when the test at the end of
   the buffer catches it, and the program leaves the buffer when the name starts behind the place the test looks at.
   */
  lemma {:induction false} CanonExactly(size: nat, st: seq<string>, rel: string, cs: seq<string>)
    requires cs == Components(rel)
    ensures Decides(size, st, cs, Canon(size, st, rel))
    decreases |rel|
  {
    if rel == "" {
      assert cs == [""] + [];
      DecidesLater(size, st, "", [], Done(st));
      DecidesNothing(size, st);
      ResolveEmpty(st, [""]);
    } else if rel[0] == '/' {
      ComponentsSlash(rel);
      CanonExactly(size, st, rel[1..], Components(rel[1..]));
      ResolveEmpty(st, [""]);
      DecidesLater(size, st, "", Components(rel[1..]), Canon(size, st, rel[1..]));
    } else {
      CanonExactlyName(size, st, rel, Name(rel), rel[|Name(rel)|..], cs);
    }
  }

  lemma {:induction false} DecidesNothing(size: nat, st: seq<string>)
    ensures Decides(size, st, [], Done(st))
  {
  }

  lemma {:induction false} CanonExactlyName(size: nat, st: seq<string>, rel: string, n: string, rest: string,
                                            cs: seq<string>)
    requires rel != "" && rel[0] != '/' && n == Name(rel) && rest == rel[|n|..] && cs == Components(rel)
    ensures Decides(size, st, cs, Canon(size, st, rel))
    decreases |rel|, 0
  {
    var ds := Components(rest);
    ComponentsBehind(rel, n, rest, cs, ds);
    var tail := ds[1..];
    assert cs == [n] + tail;
    if Proper(n) && !CanPush(size, st, n) {
      DecidesNow(size, st, n, tail);
    } else {
      var next := Resolve(st, [n]);
      ResolveOne(st, n);
      CanonExactly(size, next, rest, ds);
      assert ds == [""] + tail;
      ResolveEmpty(next, [""]);
      DecidesLater(size, next, "", tail, Canon(size, next, rest));
      DecidesLater(size, st, n, tail, Canon(size, next, rest));
    }
  }

  lemma {:induction false} ResolveOne(st: seq<string>, n: string)
    requires n != ""
    ensures Resolve(st, [n]) == if n == "." then st else if n == ".." then Up(st) else st + [n]
  {
    assert [n][1..] == [];
  }

  /** When some component does not fit, there is a first one, so every failure is decided. */
  lemma {:induction false} FirstExists(size: nat, st: seq<string>, cs: seq<string>, k: nat) returns (i: nat)
    requires StuckAt(size, st, cs, k)
    ensures FirstStuck(size, st, cs, i)
  {
    if j: nat :| j < k && StuckAt(size, st, cs, j) {
      i := FirstExists(size, st, cs, j);
    } else {
      i := k;
    }
  }

  ghost predicate StopsAt(size: nat, st: seq<string>, cs: seq<string>, k: int) {
    FirstStuck(size, st, cs, k) && Caught(size, Resolve(st, cs[..k]), cs[k])
  }

  ghost predicate LeavesAt(size: nat, st: seq<string>, cs: seq<string>, k: int) {
    FirstStuck(size, st, cs, k) && Overruns(size, Resolve(st, cs[..k]), cs[k])
  }

  /** The three outcomes, each with its exact condition on the components and the buffer's size. */
  lemma {:induction false} CanonOutcomes(size: nat, st: seq<string>, rel: string)
    ensures var cs, o := Components(rel), Canon(size, st, rel);
            && (o == Done(Resolve(st, cs)) <==> FitsAll(size, st, cs)) && (o.Done? <==> FitsAll(size, st, cs))
            && (o == TooLong <==> exists k :: StopsAt(size, st, cs, k))
            && (o == Undefined <==> exists k :: LeavesAt(size, st, cs, k))
  {
    var cs, o := Components(rel), Canon(size, st, rel);
    CanonExactly(size, st, rel, cs);
    if !FitsAll(size, st, cs) {
      var k :| StuckAt(size, st, cs, k);
      var i := FirstExists(size, st, cs, k);
      assert StopsAt(size, st, cs, i) || LeavesAt(size, st, cs, i);
    }
    forall k | StopsAt(size, st, cs, k) ensures o == TooLong {
      assert FirstStuck(size, st, cs, k);
    }
    forall k | LeavesAt(size, st, cs, k) ensures o == Undefined {
      assert FirstStuck(size, st, cs, k);
    }
  }

  /** In particular it succeeds when start and path together leave two places of the buffer unused. */
  lemma {:induction false} CanonFits(size: nat, st: seq<string>, rel: string)
    requires |Text(st)| + |rel| + 2 < size || ((rel == "" || rel[0] == '/') && |Text(st)| + |rel| + 2 <= size)
    ensures Canon(size, st, rel).Done?
    decreases |rel|
  {
    if rel == "" {
    } else if rel[0] == '/' {
      CanonFits(size, st, rel[1..]);
    } else {
      var n := Name(rel);
      var rest := rel[|n|..];
      if n == "." {
        CanonFits(size, st, rest);
      } else if n == ".." {
        CanonFits(size, Up(st), rest);
      } else {
        assert Up(st + [n]) == st;
        CanonFits(size, st + [n], rest);
      }
    }
  }

  // ---------------------------------------------------------------------------------------------
  // Results are canonical, and canonicalising them again changes nothing
  // ---------------------------------------------------------------------------------------------

  lemma {:induction false} ResolveProper(st: seq<string>, cs: seq<string>)
    requires AllProper(st) && forall c :: c in cs ==> '/' !in c
    ensures AllProper(Resolve(st, cs))
    decreases |cs|
  {
    if cs != [] {
      assert forall c :: c in cs[1..] ==> c in cs;
      if cs[0] == "" || cs[0] == "." {
        ResolveProper(st, cs[1..]);
      } else if cs[0] == ".." {
        ResolveProper(Up(st), cs[1..]);
      } else {
        assert cs[0] in cs;
        ResolveProper(st + [cs[0]], cs[1..]);
      }
    }
  }

  lemma {:induction false} NoSlashes(s: string)
    ensures forall c :: c in Components(s) ==> '/' !in c
    decreases |s|
  {
    var n := Name(s);
    if |n| < |s| {
      NoSlashes(s[|n| + 1..]);
    }
  }

  lemma {:induction false} NameOf(n: string, rest: string)
    requires '/' !in n && (rest == "" || rest[0] == '/')
    ensures Name(n + rest) == n
    decreases |n|
  {
    if n == "" {
      assert n + rest == rest;
    } else {
      assert n[0] in n;
      assert (n + rest)[1..] == n[1..] + rest;
      NameOf(n[1..], rest);
    }
  }

  lemma {:induction false} ComponentsText(st: seq<string>, n: string)
    requires AllProper(st) && '/' !in n
    ensures Components(Text(st) + n) == [""] + st + [n]
    decreases |st|
  {
    NameOf(n, "");
    assert n + "" == n && Components(n) == [n];
    ComponentsTextBefore(st, n);
  }

  lemma {:induction false} ComponentsName(n: string, rest: string)
    requires '/' !in n && rest != "" && rest[0] == '/'
    ensures Components(n + rest) == [n] + Components(rest[1..])
  {
    NameOf(n, rest);
    assert (n + rest)[|n| + 1..] == rest[1..];
  }

  lemma {:induction false} TextBefore(st: seq<string>, tail: string, rest: string)
    requires st != [] && rest == "/" + tail
    ensures Text(st) + tail == Text(Up(st)) + (st[|st| - 1] + rest)
  {
  }

  lemma {:induction false} UpLast(st: seq<string>)
    requires st != []
    ensures st == Up(st) + [st[|st| - 1]]
  {
  }

  lemma {:induction false} Shift(a: seq<string>, n: string, c: seq<string>, st: seq<string>, e: seq<string>)
    requires st == a + [n]
    ensures e + a + ([n] + c) == e + st + c
  {
  }

  lemma {:induction false} ComponentsRoot(root: string, tail: string, none: seq<string>)
    requires root == "/" && none == []
    ensures Components(root + tail) == [""] + none + Components(tail)
  {
    ComponentsSlash(root + tail);
    assert (root + tail)[1..] == tail && [""] + none == [""];
  }

  lemma {:induction false} ComponentsTextBefore(st: seq<string>, tail: string)
    requires AllProper(st)
    ensures Components(Text(st) + tail) == [""] + st + Components(tail)
    decreases |st|
  {
    var rest := "/" + tail;
    assert rest[0] == '/' && rest[1..] == tail;
    if st == [] {
      ComponentsRoot(Text(st), tail, st);
    } else {
      assert st[|st| - 1] in st;
      TextBefore(st, tail, rest);
      ComponentsTextBefore(Up(st), st[|st| - 1] + rest);
      ComponentsName(st[|st| - 1], rest);
      UpLast(st);
      Shift(Up(st), st[|st| - 1], Components(tail), st, [""]);
    }
  }

  lemma {:induction false} ShowShape(r: seq<string>)
    requires AllProper(r) && r != []
    ensures Components(Show(r)) == [""] + r && Show(r)[|Show(r)| - 1] != '/'
  {
    var before, n := Up(r), r[|r| - 1];
    assert n in r && n[|n| - 1] in n;
    ComponentsText(before, n);
    Shift(before, n, [], r, [""]);
    assert [n] + [] == [n] && [""] + r + [] == [""] + r;
  }

  /**
   What a result looks like: it starts with a slash; split at its slashes it is an empty piece and then exactly the
   names on the stack, none of which is empty, "." or "..". The root is a slash alone.
   */
  lemma {:induction false} ResultShape(st: seq<string>, rel: string)
    requires AllProper(st)
    ensures var r := Resolve(st, Components(rel));
            && AllProper(r)
            && (r == [] ==> Show(r) == "/")
            && (r != [] ==> Components(Show(r)) == [""] + r && Show(r)[|Show(r)| - 1] != '/')
  {
    NoSlashes(rel);
    ResolveProper(st, Components(rel));
    var r := Resolve(st, Components(rel));
    if r != [] {
      ShowShape(r);
    }
  }

  /** Each name was put on with room to spare, or at least not behind the buffer. */
  ghost predicate Pushable(size: nat, st: seq<string>)
    decreases |st|
  {
    st == [] || (Pushable(size, Up(st)) && !Caught(size, Up(st), st[|st| - 1]) && !Overruns(size, Up(st), st[|st| - 1]))
  }

  lemma {:induction false} CanonPushable(size: nat, st: seq<string>, rel: string)
    requires Pushable(size, st) && Canon(size, st, rel).Done?
    ensures Pushable(size, Canon(size, st, rel).stack)
    decreases |rel|
  {
    if rel == "" {
    } else if rel[0] == '/' {
      CanonPushable(size, st, rel[1..]);
    } else {
      var n := Name(rel);
      var rest := rel[|n|..];
      if n == "." {
        CanonPushable(size, st, rest);
      } else if n == ".." {
        CanonPushable(size, Up(st), rest);
      } else {
        assert Up(st + [n]) == st;
        CanonPushable(size, st + [n], rest);
      }
    }
  }

  lemma {:induction false} CanonPush(size: nat, st: seq<string>, n: string, rest: string)
    requires Proper(n) && (rest == "" || rest[0] == '/')
    ensures Canon(size, st, n + rest).Done? ==> CanPush(size, st, n)
    ensures CanPush(size, st, n) ==> Canon(size, st, n + rest) == Canon(size, st + [n], rest)
  {
    NameOf(n, rest);
    assert n[0] in n;
    assert (n + rest)[|n|..] == rest;
  }

  /**
   The equality test stepped over: when a first name ends two places before the end of the buffer, the slash behind it
   is written where the test looks, and a second name of two or more characters runs on behind the buffer.
   */
  lemma {:induction false} SteppedOver(size: nat, a: string, b: string, rel: string)
    requires Proper(a) && Proper(b) && |a| + 4 == size && |b| > 1 && rel == a + "/" + b
    ensures Canon(size, [], rel) == Undefined
  {
    var rest := "/" + b;
    assert rel == a + rest && rest[0] == '/' && rest[1..] == b;
    CanonPush(size, [], a, rest);
    var st := [] + [a];
    assert Up(st) == [];
    CanonPush(size, st, b, "");
    assert b + "" == b;
  }

  /** Canonicalising a stack's text, then more: the stack is built up again, if its names can be put on. */
  lemma {:induction false} CanonText(size: nat, st: seq<string>, rest: string)
    requires AllProper(st)
    ensures Canon(size, [], Text(st) + rest).Done? ==> Pushable(size, st)
    ensures Pushable(size, st) ==> Canon(size, [], Text(st) + rest) == Canon(size, st, rest)
    decreases |st|
  {
    var more := "/" + rest;
    assert more[0] == '/' && more[1..] == rest;
    if st != [] {
      var before, n := Up(st), st[|st| - 1];
      assert n in st && before + [n] == st;
      TextBefore(st, rest, more);
      CanonText(size, before, n + more);
      CanonPush(size, before, n, more);
    }
  }

  lemma {:induction false} CanonRoot(size: nat, st: seq<string>, s: string)
    requires |s| == 1 && s[0] == '/'
    ensures Canon(size, st, s) == Done(st)
  {
    assert s[1..] == "";
  }

  /** A canonical path is a fixed point exactly when its names can be put on one by one. */
  lemma {:induction false} CanonShow(size: nat, st: seq<string>)
    requires AllProper(st)
    ensures Canon(size, [], Show(st)) == Done(st) <==> Pushable(size, st)
  {
    if st == [] {
      CanonRoot(size, st, Show(st));
    } else {
      var before, n := Up(st), st[|st| - 1];
      assert n in st && before + [n] == st && n + "" == n;
      CanonText(size, before, n);
      CanonPush(size, before, n, "");
    }
  }

  /**
   Canonicalising again changes nothing: from a working directory that is itself a result for this buffer size, every
   result is again its own canonical form, whatever the working directory is by then.
   */
  lemma {:induction false} CanonTwice(size: nat, cwd: seq<string>, rel: string)
    requires AllProper(cwd) && Canon(size, [], Show(cwd)) == Done(cwd)
    requires Canon(size, cwd, rel).Done?
    ensures var r := Canon(size, cwd, rel).stack; Canon(size, [], Show(r)) == Done(r)
  {
    CanonShow(size, cwd);
    CanonPushable(size, cwd, rel);
    CanonResolves(size, cwd, rel);
    NoSlashes(rel);
    ResolveProper(cwd, Components(rel));
    CanonShow(size, Canon(size, cwd, rel).stack);
  }
}
