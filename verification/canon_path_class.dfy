/** canon_path and getcwd as the client runs them: in place, on a buffer of characters. */
module PathClients {
  import opened CanonPaths

  /** A position of a C string: the terminator is behind the last character. */
  function At(s: string, i: nat): char {
    if i < |s| then s[i] else '\0'
  }

  lemma {:induction false} DotName(s: string)
    requires s != "" && s[0] == '.' && '\0' !in s
    ensures Name(s) == ".." <==> At(s, 1) == '.' && (At(s, 2) == '/' || At(s, 2) == '\0')
    ensures Name(s) == "." <==> At(s, 1) == '/' || At(s, 1) == '\0'
  {
    var n := Name(s);
    assert |n| > 0 && n[0] == '.';
    if |s| > 1 && s[1] == '.' {
      assert |n| > 1 && n[1] == '.';
    }
    if At(s, 1) == '.' && (At(s, 2) == '/' || At(s, 2) == '\0') {
      assert |s| > 2 ==> s[2] != '\0' && s[2] in s;
      assert |n| == 2;
      assert n == "..";
    }
    if At(s, 1) == '/' || At(s, 1) == '\0' {
      assert |s| > 1 ==> s[1] in s;
      assert |n| == 1;
      assert n == ".";
    }
  }

  lemma {:induction false} TextPush(st: seq<string>, n: string)
    ensures Text(st + [n]) == Text(st) + n + "/"
  {
    assert Up(st + [n]) == st;
  }

  /** The last name of a text, without slashes, between two slashes. */
  ghost predicate Topped(t: string, below: string) {
    && |below| + 2 <= |t| && t[..|below|] == below && |below| > 0 && t[|below| - 1] == '/' && t[|t| - 1] == '/'
    && forall j :: |below| <= j < |t| - 1 ==> t[j] != '/'
  }

  lemma {:induction false} ToppedBy(t: string, below: string, n: string)
    requires n != "" && '/' !in n && below != "" && below[|below| - 1] == '/' && t == below + n + "/"
    ensures Topped(t, below) && t[..|t| - 1] == below + n
  {
    forall j | |below| <= j < |t| - 1 ensures t[j] != '/' {
      assert t[j] == n[j - |below|] && n[j - |below|] in n;
    }
  }

  lemma {:induction false} TextTop(st: seq<string>, t: string, below: string)
    requires AllProper(st) && st != [] && t == Text(st) && below == Text(Up(st))
    ensures Topped(t, below) && Show(st) == t[..|t| - 1]
  {
    assert st[|st| - 1] in st;
    ToppedBy(t, below, st[|st| - 1]);
  }

  /** A path and the text of its stack differ in a last slash, unless it is the root. */
  lemma {:induction false} ShownIs(st: seq<string>, t: string, s: string)
    requires AllProper(st) && t == Text(st) && s == Show(st)
    ensures if s[|s| - 1] == '/' then t == s && |s| == 1 else t == s + "/" && |t| > 1
    ensures st == [] <==> |t| == 1
  {
    if st != [] {
      TextTop(st, t, Text(Up(st)));
      var j := |s| - 1;
      assert t[j] == s[j];
    }
  }

  // One turn of Canon from place i; `want` is what the whole path comes to.

  lemma {:induction false} SlashTurn(size: nat, st: seq<string>, rel: string, i: nat, want: Outcome)
    requires i < |rel| && rel[i] == '/' && Canon(size, st, rel[i..]) == want
    ensures Canon(size, st, rel[i + 1..]) == want
  {
    assert rel[i..][1..] == rel[i + 1..];
  }

  lemma {:induction false} DotTurn(size: nat, st: seq<string>, rel: string, i: nat, want: Outcome)
    requires i < |rel| && Name(rel[i..]) == "." && Canon(size, st, rel[i..]) == want
    ensures Canon(size, st, rel[i + 1..]) == want
  {
    assert rel[i..][1..] == rel[i + 1..];
  }

  lemma {:induction false} UpTurn(size: nat, st: seq<string>, rel: string, i: nat, want: Outcome)
    requires i < |rel| && Name(rel[i..]) == ".." && AllProper(st) && Canon(size, st, rel[i..]) == want
    ensures i + 2 <= |rel| && AllProper(Up(st)) && Canon(size, Up(st), rel[i + 2..]) == want
  {
    assert rel[i..][2..] == rel[i + 2..];
  }

  lemma {:induction false} PushTurn(size: nat, st: seq<string>, rel: string, i: nat, n: string, want: Outcome)
    requires i < |rel| && rel[i] != '/' && n == Name(rel[i..]) && n != "." && n != ".."
    requires AllProper(st) && Canon(size, st, rel[i..]) == want
    ensures i + |n| <= |rel| && n != "" && Proper(n) && AllProper(st + [n])
    ensures want == if Caught(size, st, n) then TooLong
                    else if Overruns(size, st, n) then Undefined
                    else Canon(size, st + [n], rel[i + |n|..])
  {
    assert rel[i..][|n|..] == rel[i + |n|..];
  }

  predicate Absolute(rel: string) {
    rel != "" && rel[0] == '/'
  }

  /** One more character of a name has been copied behind what was there. */
  lemma {:induction false} OneMore(start: string, n: string, k: nat, was: string, buffer: string, a: nat)
    requires k < |n| && a < |buffer| && buffer[..a] == was == start + n[..k] && buffer[a] == n[k]
    ensures buffer[..a + 1] == start + n[..k + 1]
  {
    assert n[..k + 1] == n[..k] + [n[k]];
    assert buffer[..a + 1] == was + [n[k]];
  }

  class Client {
    var cwd: string
    ghost var directory: seq<string>

    /** The working directory is a result of canon_path, or the root it starts with. */
    ghost predicate Valid()
      reads this
    {
      AllProper(directory) && cwd == Show(directory)
    }

    constructor ()
      ensures Valid() && directory == []
    {
      cwd := "/";
      directory := [];
    }

    /** The stack a path starts from: the root, or the working directory, which has to fit the buffer. */
    ghost function From(rel: string): seq<string>
      reads this
    {
      if Absolute(rel) then [] else directory
    }

    ghost predicate StartFits(rel: string, size: nat)
      reads this
    {
      Absolute(rel) || |cwd| + 1 <= size
    }

    method GetCwd(c: array<char>) returns (status: int)
      modifies c
      ensures status == if c.Length < |cwd| + 1 then -1 else 0
      ensures status == 0 ==> c[..|cwd|] == cwd && c[|cwd|] == '\0'
    {
      if c.Length < |cwd| + 1 {
        return -1;
      }
      var i := 0;
      while i < |cwd|
        invariant i <= |cwd| && c[..i] == cwd[..i]
      {
        c[i] := cwd[i];
        i := i + 1;
      }
      c[|cwd|] := '\0';
      status := 0;
    }

    /** The start of the result: the root, or the working directory with a slash behind it. */
    method Begin(absolute: bool, abspath: array<char>) returns (defined: bool, a: nat, ghost st: seq<string>)
      requires Valid() && 2 <= abspath.Length
      modifies abspath
      ensures defined <==> absolute || |cwd| + 1 <= abspath.Length
      ensures st == if absolute then [] else directory
      ensures defined ==> a <= abspath.Length && abspath[..a] == Text(st)
    {
      st := if absolute then [] else directory;
      if absolute {
        abspath[0] := '/';
        assert abspath[..1] == "/";
        return true, 1, st;
      }
      var status := GetCwd(abspath);
      if status != 0 {
        return false, 0, st;
      }
      ghost var text := Text(st);
      ShownIs(st, text, cwd);
      a := |cwd|;
      assert abspath[..a][a - 1] == abspath[a - 1];
      if abspath[a - 1] != '/' {
        abspath[a] := '/';
        a := a + 1;
      }
      assert abspath[..a] == text;
      defined := true;
    }

    /** Take the last name off, or stay at the root. */
    method StepBack(abspath: array<char>, a: nat, ghost st: seq<string>) returns (b: nat)
      requires AllProper(st) && a <= abspath.Length && abspath[..a] == Text(st)
      ensures b <= a && abspath[..b] == Text(Up(st))
    {
      ghost var t, below := Text(st), Text(Up(st));
      ShownIs(st, t, Show(st));
      if a == 1 {
        return a;
      }
      TextTop(st, t, below);
      b := a - 1;
      while abspath[b - 1] != '/'
        invariant |below| <= b < a
        invariant forall j :: 0 <= j < a ==> abspath[j] == t[j]
        decreases b
      {
        b := b - 1;
      }
      assert b == |below|;
      assert abspath[..b] == t[..b];
    }

    /** Copy a name; the end is looked for after each character. */
    method CopyName(rel: string, i0: nat, abspath: array<char>, a0: nat)
      returns (caught: bool, defined: bool, i: nat, a: nat)
      requires i0 <= |rel| && a0 <= abspath.Length && 2 <= abspath.Length
      modifies abspath
      ensures abspath[..a0] == old(abspath[..a0])
      ensures var n := Name(rel[i0..]);
              && (caught <==> a0 + 2 < abspath.Length <= a0 + |n| + 2)
              && (defined <==> caught || a0 + |n| <= abspath.Length)
              && (defined && !caught ==>
                    i == i0 + |n| && a == a0 + |n| && abspath[..a] == old(abspath[..a0]) + n)
    {
      ghost var n := Name(rel[i0..]);
      i, a := i0, a0;
      while i < |rel| && rel[i] != '/'
        invariant i0 <= i <= |rel| && i - i0 == a - a0 <= |n| && a <= abspath.Length
        invariant abspath[..a] == old(abspath[..a0]) + n[..a - a0]
        invariant a0 + 2 < abspath.Length ==> a + 2 < abspath.Length
      {
        ghost var k := i - i0;
        assert rel[i0..][k] == rel[i];
        assert n[k] == rel[i];
        if a == abspath.Length {
          return false, false, i, a;
        }
        ghost var was := abspath[..a];
        abspath[a] := rel[i];
        assert abspath[..a] == was;
        OneMore(old(abspath[..a0]), n, k, was, abspath[..], a);
        i, a := i + 1, a + 1;
        if a + 2 == abspath.Length {
          return true, true, i, a;
        }
      }
      if i < |rel| {
        assert rel[i0..][i - i0] == rel[i];
      }
      caught, defined := false, true;
    }

    /** A name, and the slash behind it. */
    method PushName(rel: string, i0: nat, abspath: array<char>, a0: nat, ghost st: seq<string>)
      returns (caught: bool, defined: bool, i: nat, a: nat)
      requires i0 <= |rel| && a0 <= abspath.Length && 2 <= abspath.Length && abspath[..a0] == Text(st)
      modifies abspath
      ensures var n := Name(rel[i0..]);
              && (caught <==> Caught(abspath.Length, st, n))
              && (!defined <==> !caught && Overruns(abspath.Length, st, n))
              && (defined && !caught ==>
                    i == i0 + |n| && i <= |rel| && a <= abspath.Length && abspath[..a] == Text(st + [n]))
    {
      ghost var n := Name(rel[i0..]);
      caught, defined, i, a := CopyName(rel, i0, abspath, a0);
      if !caught && defined {
        if a == abspath.Length {
          defined := false;
        } else {
          abspath[a] := '/';
          a := a + 1;
          TextPush(st, n);
          assert abspath[..a] == Text(st) + n + "/";
        }
      }
    }

    method NameTurn(rel: string, i0: nat, abspath: array<char>, a0: nat, ghost st0: seq<string>)
      returns (caught: bool, defined: bool, i: nat, a: nat, ghost st: seq<string>)
      requires i0 < |rel| && AllProper(st0) && Proper(Name(rel[i0..])) && 2 <= abspath.Length
      requires a0 <= abspath.Length && abspath[..a0] == Text(st0)
      modifies abspath
      ensures var n := Name(rel[i0..]);
              && (caught <==> Caught(abspath.Length, st0, n)) && (caught ==> defined)
              && (!defined <==> !caught && Overruns(abspath.Length, st0, n))
              && (defined && !caught ==>
                    i == i0 + |n| && i <= |rel| && a <= abspath.Length && abspath[..a] == Text(st) && st == st0 + [n])
    {
      ghost var n := Name(rel[i0..]);
      caught, defined, i, a := PushName(rel, i0, abspath, a0, st0);
      defined := defined || caught;
      st := st0 + [n];
    }

    /** One turn of the main loop: a slash, "." or "..", or a name. What the whole path comes to stays the same. */
    method Advance(rel: string, i0: nat, abspath: array<char>, a0: nat, ghost st0: seq<string>, ghost want: Outcome)
      returns (caught: bool, defined: bool, i: nat, a: nat, ghost st: seq<string>)
      requires i0 < |rel| && '\0' !in rel && AllProper(st0) && 2 <= abspath.Length
      requires a0 <= abspath.Length && abspath[..a0] == Text(st0) && Canon(abspath.Length, st0, rel[i0..]) == want
      modifies abspath
      ensures caught ==> defined && want == TooLong
      ensures !defined ==> want == Undefined
      ensures defined && !caught ==>
                && i0 < i <= |rel| && AllProper(st) && a <= abspath.Length && abspath[..a] == Text(st)
                && Canon(abspath.Length, st, rel[i..]) == want
    {
      caught, defined, i, a, st := false, true, i0, a0, st0;
      if rel[i] == '/' {
        SlashTurn(abspath.Length, st, rel, i, want);
        i := i + 1;
        return;
      }
      var dots := Dots(rel, i);
      if dots == 2 {
        UpTurn(abspath.Length, st, rel, i, want);
        a := StepBack(abspath, a, st);
        i, st := i + 2, Up(st);
      } else if dots == 1 {
        DotTurn(abspath.Length, st, rel, i, want);
        i := i + 1;
      } else {
        PushTurn(abspath.Length, st, rel, i, Name(rel[i0..]), want);
        caught, defined, i, a, st := NameTurn(rel, i, abspath, a, st);
      }
    }

    /** The program's test for ".." and ".": a name of two dots or of one, and 0 for any other. */
    method Dots(rel: string, i: nat) returns (dots: nat)
      requires i < |rel| && '\0' !in rel && rel[i] != '/'
      ensures dots == if Name(rel[i..]) == ".." then 2 else if Name(rel[i..]) == "." then 1 else 0
    {
      dots := 0;
      if rel[i] == '.' {
        DotName(rel[i..]);
        if At(rel, i + 1) == '.' && (At(rel, i + 2) == '/' || At(rel, i + 2) == '\0') {
          return 2;
        }
        if At(rel, i + 1) == '/' || At(rel, i + 1) == '\0' {
          return 1;
        }
      }
    }

    /**
     canon_path. Status 0, with the resolution of the components in the buffer, terminated, if and only if every name
     fits on top of what the components before it come to. Status -1 when the path is too long, or the test at the end
     of the buffer catches the first name that does not fit. `defined` is false when that name starts behind the place
     the test looks at, so that the program writes behind the buffer, or when the working directory does not fit.
     */
    method CanonPath(rel: string, abspath: array<char>) returns (status: int, defined: bool)
      requires Valid() && 2 <= abspath.Length && '\0' !in rel
      modifies abspath
      ensures PATH_MAX < |rel| ==> defined && status == -1
      ensures |rel| <= PATH_MAX && !StartFits(rel, abspath.Length) ==> !defined
      ensures |rel| <= PATH_MAX && StartFits(rel, abspath.Length) ==>
                var size, st, cs := abspath.Length, From(rel), Components(rel);
                && (defined && status == 0 <==> FitsAll(size, st, cs))
                && (defined && status == -1 <==> exists k :: StopsAt(size, st, cs, k))
                && (!defined <==> exists k :: LeavesAt(size, st, cs, k))
      ensures defined && status == 0 ==>
                var s := Show(Resolve(From(rel), Components(rel)));
                |s| < abspath.Length && abspath[..|s|] == s && abspath[|s|] == '\0'
    {
      if PATH_MAX < |rel| {
        return -1, true;
      }
      var a: nat, i: nat, caught: bool;
      ghost var st;
      defined, a, st := Begin(Absolute(rel), abspath);
      if !defined {
        return -1, false;
      }
      ghost var want := Canon(abspath.Length, st, rel);
      CanonOutcomes(abspath.Length, st, rel);
      i := 0;
      assert rel[i..] == rel;
      while i < |rel|
        invariant i <= |rel| && AllProper(st) && a <= abspath.Length && abspath[..a] == Text(st)
        invariant Canon(abspath.Length, st, rel[i..]) == want
      {
        caught, defined, i, a, st := Advance(rel, i, abspath, a, st, want);
        if caught || !defined {
          return -1, defined;
        }
      }
      assert want == Done(st);
      status := Finish(abspath, a, st);
      defined := true;
    }

    /** Drop the last slash, except the root's, and terminate the string. */
    method Finish(abspath: array<char>, a: nat, ghost st: seq<string>) returns (status: int)
      requires AllProper(st) && a <= abspath.Length && 2 <= abspath.Length && abspath[..a] == Text(st)
      modifies abspath
      ensures status == 0 && |Show(st)| < abspath.Length
      ensures abspath[..|Show(st)|] == Show(st) && abspath[|Show(st)|] == '\0'
    {
      ghost var t, s := Text(st), Show(st);
      ShownIs(st, t, s);
      var e := a;
      if abspath[a - 1] == '/' && a != 1 {
        e := a - 1;
      }
      assert t[..e] == s;
      abspath[e] := '\0';
      assert abspath[..e] == t[..e];
      status := 0;
    }
  }
}
