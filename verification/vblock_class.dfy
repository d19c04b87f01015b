/** The offset map of a block as the program keeps it: one ordered map of slices, edited in place through iterators. */
module Vblocks {
  import opened Wrappers
  import opened OrderedMap
  import opened Blocks

  lemma {:induction false} TrimmedSkip(es: seq<Part>, i: nat, at: nat)
    requires i < |es|
    ensures Trimmed(es, if es[i].val.End() <= at then i + 1 else i, at) == Trimmed(es, i, at)
  {
  }

  lemma {:induction false} Replace(head: seq<Part>, es: seq<Part>, k: nat, e: Part)
    requires k < |es|
    ensures (head + es[k..])[|head| := e] == head + ([e] + es[k + 1..])
  {
    assert es[k..][1..] == es[k + 1..];
  }

  /** An update that splits the slice at q in two behind the new one: the slice is moved, filed again, and replaced. */
  lemma {:induction false} SplitSteps(es: seq<Part>, q: nat, moved: Slice, s: Slice)
    requires Sorted(es) && q < |es| && es[q].key < moved.offset && (q + 1 < |es| ==> moved.offset < es[q + 1].key)
    ensures Put(Put(es[q := Entry(es[q].key, moved)], moved.offset, moved), es[q].key, s)
         == es[..q] + ([Entry(es[q].key, s)] + ([Entry(moved.offset, moved)] + es[q + 1..]))
  {
    var k, e := es[q].key, Entry(es[q].key, moved);
    var one := es[q := e];
    SortedPut(es, q, moved);
    assert one == (es[..q] + [e]) + es[q + 1..];
    PutBetween(es[..q] + [e], es[q + 1..], moved.offset, moved);
    var more := [Entry(moved.offset, moved)] + es[q + 1..];
    ConcatAssoc(es[..q], [e], more);
    assert Before(es, q - 1, q);
    PutBetween(es[..q], [e] + more, k, s);
    assert ([e] + more)[1..] == more;
  }

  lemma {:induction false} StartSplitSteps(es: seq<Part>, moved: Slice, s: Slice)
    requires Sorted(es) && es != [] && es[0].key == s.offset < moved.offset && (|es| > 1 ==> moved.offset < es[1].key)
    ensures Put(Put(es[0 := Entry(s.offset, moved)], moved.offset, moved), s.offset, s)
         == [Entry(s.offset, s)] + ([Entry(moved.offset, moved)] + es[1..])
  {
    SplitSteps(es, 0, moved, s);
    assert es[..0] == [];
  }

  /** An update that cuts the last slice in two around the new one. */
  lemma {:induction false} LastSplitSteps(es: seq<Part>, s: Slice, shorter: Slice, tail: Slice)
    requires Sorted(es) && es != [] && es[|es| - 1].key < s.offset < tail.offset
    ensures var n := |es| - 1;
            var one := Put(es, s.offset, s)[n := Entry(es[n].key, shorter)];
            && Put(es, s.offset, s) == es + [Entry(s.offset, s)]
            && Put(Put(one, tail.offset, tail), s.offset, s)
               == (es[..n] + [Entry(es[n].key, shorter)]) + ([Entry(s.offset, s)] + [Entry(tail.offset, tail)])
  {
    var n := |es| - 1;
    var head := es[..n] + [Entry(es[n].key, shorter)];
    PutLast(es, s);
    SortedJoin(es, [Entry(s.offset, s)]);
    var one := (es + [Entry(s.offset, s)])[n := Entry(es[n].key, shorter)];
    SortedPut(es + [Entry(s.offset, s)], n, shorter);
    assert one == head + [Entry(s.offset, s)];
    PutLast(one, tail);
    SortedJoin(one, [Entry(tail.offset, tail)]);
    ConcatAssoc(head, [Entry(s.offset, s)], [Entry(tail.offset, tail)]);
    PutBetween(head, [Entry(s.offset, s)] + [Entry(tail.offset, tail)], s.offset, s);
    assert ([Entry(s.offset, s)] + [Entry(tail.offset, tail)])[1..] == [Entry(tail.offset, tail)];
  }

  /** Filing the new slice in front of the slice at i, or in place of it when it has the key. */
  lemma {:induction false} FileAt(es: seq<Part>, i: nat, s: Slice)
    requires Sorted(es) && i <= |es| && LowerBound(es, s.offset) == i
    ensures var tail := if i < |es| && es[i].key == s.offset then es[i + 1..] else es[i..];
            Put(es, s.offset, s) == es[..i] + ([Entry(s.offset, s)] + tail)
    ensures Sorted(Put(es, s.offset, s))
  {
    var head, tail := es[..i], es[i..];
    assert i > 0 ==> es[i - 1].key < s.offset;
    assert i < |es| ==> tail[0] == es[i] && tail[1..] == es[i + 1..];
    assert es == head + tail;
    PutBetween(head, tail, s.offset, s);
  }

  lemma {:induction false} AcrossSteps(es: seq<Part>, before: nat, s: Slice, rest: seq<Part>)
    requires before < |es| && es[before].val.offset <= s.offset
    ensures var all := (es[..before + 1] + [Entry(s.offset, s)]) + rest;
            var short := ShortenTo(es[before], s.offset);
            && all[before] == es[before]
            && all[before := short] == (es[..before] + [short]) + ([Entry(s.offset, s)] + rest)
            && (es[before].val.End() == s.offset ==> short == es[before] && all[before := short] == all)
  {
    assert es[..before + 1] == es[..before] + [es[before]];
  }

  /** A new slice with nothing in front of it, and what stays behind it. */
  lemma {:induction false} InFront(e: seq<Part>, rest: seq<Part>)
    ensures [] + (e + rest) == e + rest && (rest == [] ==> e + rest == e)
  {
  }

  /** What update comes to when it starts inside slice i - 1, not the last. */
  lemma {:induction false} UpdatedAcross(es: seq<Part>, i: nat, s: Slice, end: nat, short: Part)
    requires WellFormed(es) && Keyed(es) && s.length > 0 && s.offset <= Size(es) && end == s.End()
    requires 0 < i < |es| && i == LowerBound(es, s.offset) && es[i].key != s.offset
    requires es[i - 1].val.offset <= s.offset && short == ShortenTo(es[i - 1], s.offset)
    ensures Updated(es, s.offset, s.length, s.diskOffset)
         == Some((es[..i - 1] + [short]) + ([Entry(s.offset, s)] + Trimmed(es, i, end)))
  {
  }

  /** What it comes to in the last slice, or at its end. */
  lemma {:induction false} UpdatedAtEnd(es: seq<Part>, s: Slice, end: nat, short: Part, rest: seq<Part>)
    requires WellFormed(es) && Keyed(es) && s.length > 0 && s.offset <= Size(es) && end == s.End()
    requires es != [] && LowerBound(es, s.offset) == |es| && es[|es| - 1].val.offset <= s.offset
    requires short == ShortenTo(es[|es| - 1], s.offset)
    requires var last := es[|es| - 1];
             rest == if end < last.val.End() then [Rekeyed(MoveStart(last, end))] else []
    ensures Updated(es, s.offset, s.length, s.diskOffset)
         == Some((es[..|es| - 1] + [short]) + ([Entry(s.offset, s)] + rest))
  {
  }

  class Vblock {
    var slices: seq<Part>

    constructor ()
      ensures slices == []
    {
      slices := [];
    }

    /** Load a stored block into a new object. */
    constructor Load(v: seq<Slice>)
      ensures slices == Loaded(v)
    {
      slices := [];
      new;
      var i := 0;
      while i < |v|
        invariant i <= |v| && slices == Loaded(v[..i])
      {
        assert v[..i + 1][..i] == v[..i];
        slices := Put(slices, v[i].offset, v[i]);
        i := i + 1;
      }
      assert v[..i] == v;
    }

    method Length() returns (n: nat)
      ensures n == Blocks.Length(slices)
      ensures WellFormed(slices) && slices != [] ==>
                (n == |Places(slices)| <==> slices[|slices| - 1].key == slices[|slices| - 1].val.offset)
    {
      if |slices| == 0 {
        return 0;
      }
      if WellFormed(slices) {
        PlacesSize(slices);
      }
      var end := |slices| - 1;
      n := slices[end].key + slices[end].val.length;
    }

    /** after++, then erase the entry it stood at; the next entry now has its rank. */
    method Remove(after: nat, ghost head: seq<Part>, ghost e: Part, ghost tail: seq<Part>)
      requires Sorted(slices) && after == |head| && slices == head + ([e] + tail)
      modifies this
      ensures slices == head + tail && Sorted(slices)
    {
      SortedErase(head, e, tail);
      slices := Erase(slices, slices[after].key);
    }

    /**
     The loop that three branches of update run: erase slices while the end last looked at is covered. The end passed in
     may be that of another slice, in which case the first slice is erased unseen.
     */
    method EraseCovered(start: nat, lastEnd: nat, newEnd: nat, ghost head: seq<Part>, ghost es: seq<Part>, ghost i: nat)
      returns (oldEnd: nat, ghost q: nat)
      requires Chained(es) && Sorted(slices) && i < |es| && start == |head| && slices == head + es[i..]
      requires lastEnd + 1 == es[i].val.End() || lastEnd <= newEnd
      modifies this
      ensures q == Beyond(es, if lastEnd <= newEnd then i + 1 else i, newEnd + 1)
      ensures slices == head + es[q..] && Sorted(slices)
      ensures q < |es| ==> oldEnd + 1 == es[q].val.End()
    {
      var after := start;
      oldEnd, q := lastEnd, i;
      Peel(head, es, q);
      while oldEnd <= newEnd
        invariant after == start && i <= q < |es| && Sorted(slices) && slices == head + es[q..]
        invariant slices[after] == es[q] && |slices| == |head| + |es| - q
        invariant if q == i then oldEnd == lastEnd else lastEnd <= newEnd && oldEnd + 1 == es[q].val.End()
        invariant forall j :: i < j < q ==> es[j].val.End() <= newEnd + 1
        decreases |slices|
      {
        Peel(head, es, q);
        Remove(after, head, es[q], es[q + 1..]);
        q := q + 1;
        Peel(head, es, q);
        if after == |slices| {
          BeyondIs(es, i + 1, newEnd + 1, q);
          return;
        }
        assert Linked(es, q);
        oldEnd := slices[after].val.End() - 1;
      }
      BeyondIs(es, if lastEnd <= newEnd then i + 1 else i, newEnd + 1, q);
    }

    /** Take the covered start off the slice that the loop stopped at. */
    method CutStart(after: nat, oldEnd: nat, newEnd: nat, ghost head: seq<Part>, ghost es: seq<Part>, ghost q: nat,
                    ghost r: seq<Part>)
      requires after == |head| && q <= |es| && slices == head + es[q..]
      requires q < |es| ==> oldEnd + 1 == es[q].val.End() && newEnd < oldEnd
      requires r == if q == |es| then [] else [MoveStart(es[q], newEnd + 1)] + es[q + 1..]
      modifies this
      ensures slices == head + r
    {
      Peel(head, es, q);
      if after != |slices| {
        var e := slices[after];
        var cut := Slice(newEnd + 1, oldEnd - newEnd, e.val.diskOffset + (newEnd + 1 - e.val.offset));
        TrimStep(head, es, q, e, Entry(e.key, cut), oldEnd, newEnd);
        slices := slices[after := Entry(e.key, cut)];
      } else {
        TrimNone(head, es, q, newEnd);
      }
    }

    /** The loop, and then the cut. */
    method Trim(start: nat, lastEnd: nat, newEnd: nat, ghost head: seq<Part>, ghost es: seq<Part>, ghost i: nat)
      requires Chained(es) && Sorted(slices) && i < |es| && start == |head| && slices == head + es[i..]
      requires lastEnd + 1 == es[i].val.End() || lastEnd <= newEnd
      modifies this
      ensures slices == head + Trimmed(es, if lastEnd <= newEnd then i + 1 else i, newEnd + 1)
    {
      var oldEnd: nat, q: nat := EraseCovered(start, lastEnd, newEnd, head, es, i);
      CutStart(start, oldEnd, newEnd, head, es, q, Trimmed(es, if lastEnd <= newEnd then i + 1 else i, newEnd + 1));
    }

    lemma {:induction false} TrimStep(head: seq<Part>, es: seq<Part>, q: nat, e: Part, moved: Part,
                                      oldEnd: nat, newEnd: nat)
      requires q < |es| && e == es[q] && oldEnd + 1 == e.val.End() && newEnd < oldEnd
      requires moved == Entry(e.key, Slice(newEnd + 1, oldEnd - newEnd, e.val.diskOffset + (newEnd + 1 - e.val.offset)))
      ensures |head| < |head + es[q..]|
      ensures (head + es[q..])[|head| := moved] == head + ([MoveStart(es[q], newEnd + 1)] + es[q + 1..])
    {
      Replace(head, es, q, moved);
    }

    lemma {:induction false} TrimNone(head: seq<Part>, es: seq<Part>, q: nat, newEnd: nat)
      requires q == |es|
      ensures head + es[q..] == head + []
    {
    }

    /** update(offset, length, diskOffset). The result is false when the program's behaviour is undefined. */
    method Update(offset: nat, length: nat, diskOffset: int) returns (defined: bool)
      requires WellFormed(slices) && Keyed(slices) && length > 0 && offset <= Size(slices)
      modifies this
      ensures Updated(old(slices), offset, length, diskOffset) == if defined then Some(slices) else None
      ensures defined <==> !RunsOff(old(slices), offset, length)
    {
      ghost var es := slices;
      var newStart, newEnd := offset, offset + length - 1;
      var after := LowerBound(slices, newStart);
      var slice := Slice(newStart, length, diskOffset);
      Boundaries(es, offset);
      FileAt(es, after, slice);
      defined := true;
      if |slices| == 0 {
        slices := Put(slices, newStart, slice);
      } else if after == 0 {
        UpdateAtStart(slice, newEnd);
      } else if after != |slices| {
        if slices[after].key != newStart {
          UpdateAcross(slice, newEnd, after);
        } else {
          defined := UpdateAligned(slice, newEnd, after);
        }
      } else {
        UpdateAtEnd(slice, newEnd, after);
      }
    }

    /** update, at the beginning of the block. */
    method UpdateAtStart(slice: Slice, newEnd: nat)
      requires WellFormed(slices) && Keyed(slices) && slices != [] && slice.offset == 0 && slice.length == newEnd + 1
      modifies this
      ensures Updated(old(slices), 0, slice.length, slice.diskOffset) == Some(slices)
    {
      ghost var es := slices;
      var after, was := 0, slices[0].val;
      var oldStart, oldEnd := was.offset, was.End() - 1;
      assert Linked(es, 0) && KeyedAt(es, 0) && KeyedAt(es, 1);
      LowerBoundIs(es, 0, 0);
      FileAt(es, 0, slice);
      if oldEnd <= newEnd {
        after := after + 1;
        slices := Put(slices, slice.offset, slice);
        assert slices == [Entry(0, slice)] + es[1..];
        if after == |slices| {
          assert es[1..] == [] == Trimmed(es, 1, newEnd + 1);
          InFront([Entry(0, slice)], []);
          return;
        }
        oldEnd := slices[after].val.End() - 1;
        Trim(after, oldEnd, newEnd, [Entry(0, slice)], es, 1);
        TrimmedSkip(es, 1, newEnd + 1);
        InFront([Entry(0, slice)], Trimmed(es, 1, newEnd + 1));
      } else {
        var moved := Slice(newEnd + 1, oldEnd - newEnd, was.diskOffset + (newEnd + 1 - oldStart));
        assert Entry(moved.offset, moved) == Rekeyed(MoveStart(es[0], newEnd + 1));
        StartSplitSteps(es, moved, slice);
        InFront([Entry(0, slice)], [Entry(moved.offset, moved)] + es[1..]);
        slices := slices[after := Entry(slices[after].key, moved)];
        slices := Put(slices, moved.offset, moved);
        slices := Put(slices, slice.offset, slice);
      }
    }

    /** File the new slice in front of slice `after`, trim what it covers, and shorten the slice it starts in. */
    method PutAcross(slice: Slice, newEnd: nat, after: nat, ghost short: Part, ghost rest: seq<Part>)
      requires Sorted(slices) && Chained(slices) && 0 < after < |slices| && after == LowerBound(slices, slice.offset)
      requires slices[after].key != slice.offset
      requires slices[after - 1].val.offset < slice.offset <= slices[after - 1].val.End()
      requires short == ShortenTo(slices[after - 1], slice.offset) && rest == Trimmed(slices, after, newEnd + 1)
      modifies this
      ensures slices == (old(slices)[..after - 1] + [short]) + ([Entry(slice.offset, slice)] + rest)
    {
      ghost var es := slices;
      var oldEnd := slices[after].val.End() - 1;
      var before := after - 1;
      assert Linked(es, after);
      FileAt(es, after, slice);
      slices := Put(slices, slice.offset, slice);
      ghost var head := es[..after] + [Entry(slice.offset, slice)];
      ConcatAssoc(es[..after], [Entry(slice.offset, slice)], es[after..]);
      TrimmedSkip(es, after, newEnd + 1);
      Trim(after + 1, oldEnd, newEnd, head, es, after);
      AcrossSteps(es, before, slice, rest);
      ShortenFirst(before, slice, es[before], short);
    }

    /** Take off the slice at `before` what the new slice covers of it. */
    method ShortenFirst(before: nat, slice: Slice, ghost e: Part, ghost short: Part)
      requires before < |slices| && slices[before] == e && e.val.offset < slice.offset <= e.val.End()
      requires short == ShortenTo(e, slice.offset) && (e.val.End() == slice.offset ==> short == e)
      modifies this
      ensures slices == old(slices)[before := short]
    {
      var was := slices[before].val;
      var oldEnd := was.End() - 1;
      if oldEnd >= slice.offset {
        slices := slices[before := Entry(slices[before].key, was.(length := was.length - (oldEnd - slice.offset + 1)))];
      }
    }

    /** update, from inside one slice, not the last. */
    method UpdateAcross(slice: Slice, newEnd: nat, after: nat)
      requires WellFormed(slices) && Keyed(slices) && 0 < after < |slices| && after == LowerBound(slices, slice.offset)
      requires slices[after].key != slice.offset && slice.length > 0 && newEnd + 1 == slice.End()
      requires slice.offset <= Size(slices)
      modifies this
      ensures Updated(old(slices), slice.offset, slice.length, slice.diskOffset) == Some(slices)
    {
      Boundaries(slices, slice.offset);
      ghost var short, rest := ShortenTo(slices[after - 1], slice.offset), Trimmed(slices, after, newEnd + 1);
      UpdatedAcross(slices, after, slice, newEnd + 1, short);
      PutAcross(slice, newEnd, after, short, rest);
    }

    /** The same, when the write goes on behind the slice: it takes its place, and what follows is trimmed. */
    method UpdateOver(slice: Slice, oldEnd: nat, newEnd: nat, start: nat) returns (defined: bool)
      requires WellFormed(slices) && Keyed(slices) && 0 < start < |slices| && start == LowerBound(slices, slice.offset)
      requires slices[start].key == slice.offset && slice.length > 0 && newEnd + 1 == slice.End()
      requires slice.offset <= Size(slices)
      requires oldEnd + 1 == slices[start].val.End() && oldEnd < newEnd
      modifies this
      ensures defined <==> start + 1 < |old(slices)|
      ensures defined ==>
                slices == old(slices)[..start]
                          + ([Entry(slice.offset, slice)] + Trimmed(old(slices), start + 2, newEnd + 1))
    {
      ghost var es := slices;
      var after := start + 1;
      FileAt(es, start, slice);
      slices := Put(slices, slice.offset, slice);
      if after == |slices| {
        return false;
      }
      ghost var head := es[..start] + [Entry(slice.offset, slice)];
      ConcatAssoc(es[..start], [Entry(slice.offset, slice)], es[after..]);
      Trim(after, oldEnd, newEnd, head, es, after);
      ConcatAssoc(es[..start], [Entry(slice.offset, slice)], Trimmed(es, after + 1, newEnd + 1));
      defined := true;
    }

    /** The same, when the write ends inside the slice: its tail is filed again, with the place of its head. */
    method UpdateWithin(slice: Slice, moved: Slice, start: nat)
      requires Sorted(slices) && start < |slices| && slices[start].key == slice.offset
      requires slice.length > 0 && moved.offset == slice.End()
      requires start + 1 < |slices| ==> moved.offset < slices[start + 1].key
      modifies this
      ensures slices == old(slices)[..start]
                        + ([Entry(slice.offset, slice)] + ([Entry(moved.offset, moved)] + old(slices)[start + 1..]))
    {
      SplitSteps(slices, start, moved, slice);
      slices := slices[start := Entry(slices[start].key, moved)];
      slices := Put(slices, moved.offset, moved);
      slices := Put(slices, slice.offset, slice);
    }

    /** update, from the start of a slice that is not the first. */
    method UpdateAligned(slice: Slice, newEnd: nat, start: nat) returns (defined: bool)
      requires WellFormed(slices) && Keyed(slices) && 0 < start < |slices| && start == LowerBound(slices, slice.offset)
      requires slices[start].key == slice.offset && slice.length > 0 && newEnd + 1 == slice.End()
      requires slice.offset <= Size(slices)
      modifies this
      ensures Updated(old(slices), slice.offset, slice.length, slice.diskOffset)
           == if defined then Some(slices) else None
    {
      ghost var es := slices;
      var after, was := start, slices[start].val;
      var oldEnd := was.End() - 1;
      assert Linked(es, after) && KeyedAt(es, after) && KeyedAt(es, after + 1);
      FileAt(es, after, slice);
      defined := true;
      if oldEnd > newEnd {
        UpdateWithin(slice, was.(offset := newEnd + 1, length := oldEnd - newEnd), start);
      } else if oldEnd < newEnd {
        defined := UpdateOver(slice, oldEnd, newEnd, start);
      } else {
        slices := Put(slices, slice.offset, slice);
      }
    }

    /** File the new slice behind or inside the last one, which is shortened, or cut in two around it. */
    method PutAtEnd(slice: Slice, newEnd: nat, end: nat, ghost short: Part, ghost rest: seq<Part>)
      requires Sorted(slices) && 0 < end == |slices| && slices[end - 1].key < slice.offset <= slices[end - 1].val.End()
      requires slices[end - 1].key == slices[end - 1].val.offset && newEnd + 1 == slice.End() > slice.offset
      requires short == ShortenTo(slices[end - 1], slice.offset)
      requires var last := slices[end - 1];
               rest == if newEnd + 1 < last.val.End() then [Rekeyed(MoveStart(last, newEnd + 1))] else []
      modifies this
      ensures slices == (old(slices)[..end - 1] + [short]) + ([Entry(slice.offset, slice)] + rest)
    {
      ghost var es := slices;
      var after := end - 1;
      PutLast(es, slice);
      slices := Put(slices, slice.offset, slice);
      var was := slices[after].val;
      var oldEnd := was.End() - 1;
      if oldEnd > newEnd {
        var tail := Slice(newEnd + 1, oldEnd - newEnd, was.diskOffset);
        var shorter := was.(length := was.length - (oldEnd - slice.offset + 1));
        tail := tail.(diskOffset := tail.diskOffset + (shorter.length + slice.length));
        LastSplitSteps(es, slice, shorter, tail);
        slices := slices[after := Entry(slices[after].key, shorter)];
        slices := Put(slices, tail.offset, tail);
        slices := Put(slices, slice.offset, slice);
        assert Entry(es[after].key, shorter) == short && [Entry(tail.offset, tail)] == rest;
        return;
      }
      InFront([Entry(slice.offset, slice)], []);
      ShortenFirst(after, slice, es[after], short);
    }

    /** update, from inside the last slice or at its end. */
    method UpdateAtEnd(slice: Slice, newEnd: nat, end: nat)
      requires WellFormed(slices) && Keyed(slices) && 0 < end == |slices| && end == LowerBound(slices, slice.offset)
      requires slice.length > 0 && newEnd + 1 == slice.End() && slice.offset <= Size(slices)
      modifies this
      ensures Updated(old(slices), slice.offset, slice.length, slice.diskOffset) == Some(slices)
    {
      Boundaries(slices, slice.offset);
      assert KeyedAt(slices, end - 1);
      ghost var last := slices[end - 1];
      ghost var short := ShortenTo(last, slice.offset);
      ghost var rest := if newEnd + 1 < last.val.End() then [Rekeyed(MoveStart(last, newEnd + 1))] else [];
      UpdatedAtEnd(slices, slice, newEnd + 1, short, rest);
      PutAtEnd(slice, newEnd, end, short, rest);
    }

    /** set_len(length). The result is false when the program's behaviour is undefined. */
    method SetLen(length: nat) returns (defined: bool)
      requires WellFormed(slices) && Keyed(slices) && length > 0
      modifies this
      ensures defined <==> Resized(old(slices), length).Some?
      ensures defined ==> Resized(old(slices), length) == Some(slices)
    {
      var it := 0;
      while it != |slices|
        invariant it <= |slices| && slices == old(slices)
        invariant forall k :: 0 <= k < it ==> slices[k].key + slices[k].val.length < length
      {
        if slices[it].key + slices[it].val.length >= length {
          ReachingIs(slices, 0, length, it);
          ReachingStart(slices, length);
          slices := slices[it := Entry(slices[it].key, slices[it].val.(length := length - slices[it].key))];
          it := it + 1;
          return it == |slices|;
        }
        it := it + 1;
      }
      ReachingIs(slices, 0, length, it);
      defined := false;
    }
  }
}
