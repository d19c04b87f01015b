/** What several modules share: an optional value, and overwriting part of a sequence. */
module Wrappers {
  datatype Option<+T> = None | Some(value: T)

  /** The part of a sequence from index n on; empty when it is not that long. */
  function After<T>(f: seq<T>, n: nat): seq<T> {
    if n <= |f| then f[n..] else []
  }

  /** The sequence with `data` put at `at`, over what is there; it may become longer. */
  function Spliced<T>(f: seq<T>, at: nat, data: seq<T>): seq<T>
    requires at <= |f|
  {
    f[..at] + (data + After(f, at + |data|))
  }

  /** Cutting three sequences inside the middle one. */
  lemma {:induction false} CutConcat<T>(a: seq<T>, b: seq<T>, c: seq<T>, n: nat)
    requires |a| <= n <= |a| + |b|
    ensures (a + (b + c))[n..] == b[n - |a|..] + c
    ensures (a + (b + c))[..n] == a + b[..n - |a|]
  {
  }
}
