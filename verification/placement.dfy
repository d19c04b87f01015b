/**
 Choosing servers for the replicas of a block: the client's own server first, then servers drawn at random. The draws
 are a parameter; `done` is false when they run out while a slot is still unfilled.
 */
module Placement {
  import opened Coordination
  import opened Extents

  const NOWHERE: nat := 0xFFFF_FFFF_FFFF_FFFF

  /** What the program's == finds: it compares the servers only. */
  predicate Open(l: Location) {
    l.server == NOWHERE
  }

  /** What its != finds the opposite of: it compares servers and blocks. */
  predicate Blank(l: Location) {
    l.server == NOWHERE && l.block == NOWHERE
  }

  /** A network location is an address and a 16-bit port; 0 is none. */
  function AddressOf(bindTo: nat): nat {
    bindTo / 0x1_0000
  }

  /** The first server at an address; the length of the list when there is none. */
  function FirstAt(servers: seq<Server>, address: nat): (k: nat)
    ensures k <= |servers|
  {
    if servers == [] || AddressOf(servers[0].bindTo) == address then 0 else 1 + FirstAt(servers[1..], address)
  }

  lemma {:induction false} FirstAtIs(servers: seq<Server>, address: nat, k: nat)
    requires k <= |servers| && (k < |servers| ==> AddressOf(servers[k].bindTo) == address)
    requires forall j :: 0 <= j < k ==> AddressOf(servers[j].bindTo) != address
    ensures FirstAt(servers, address) == k
  {
    if k > 0 {
      FirstAtIs(servers[1..], address, k - 1);
    }
  }

  /** The client's own server, if it may be used: it has a location, it is available, and no slot is on it. */
  ghost predicate OwnFits(servers: seq<Server>, address: nat, l: seq<Location>) {
    var k := FirstAt(servers, address);
    k < |servers| && servers[k].bindTo != 0 && servers[k].state == AVAILABLE &&
    forall i :: 0 <= i < |l| ==> Blank(l[i]) || l[i].server != servers[k].id
  }

  ghost predicate OffersAt(servers: seq<Server>, k: int, id: nat) {
    0 <= k < |servers| && servers[k].id == id && servers[k].state == AVAILABLE
  }

  ghost predicate Offers(servers: seq<Server>, id: nat) {
    exists k :: OffersAt(servers, k, id)
  }

  /** Two slots that are both taken are on different servers. */
  ghost predicate Differ(l: seq<Location>, i: int, j: int) {
    0 <= i < j < |l| && !Open(l[i]) && !Open(l[j]) ==> l[i].server != l[j].server
  }

  ghost predicate AllDiffer(l: seq<Location>) {
    forall i, j :: Differ(l, i, j)
  }

  /** A slot keeps its block id; taken, it keeps its server; open, it stays so or gets an available server. */
  ghost predicate SlotKept(before: seq<Location>, after: seq<Location>, servers: seq<Server>, i: int) {
    0 <= i < |before| && i < |after| ==>
      && after[i].block == before[i].block
      && (!Open(before[i]) ==> after[i].server == before[i].server)
      && (!Open(after[i]) && Open(before[i]) ==> Offers(servers, after[i].server))
  }

  ghost predicate Extended(before: seq<Location>, after: seq<Location>, servers: seq<Server>) {
    |after| == |before| && forall i :: SlotKept(before, after, servers, i)
  }

  ghost predicate FirstOpen(l: seq<Location>, i: int) {
    0 <= i < |l| && Open(l[i]) && forall j :: 0 <= j < i ==> !Open(l[j])
  }

  ghost predicate Noted(l: seq<Location>, used: set<nat>, i: int) {
    0 <= i < |l| && !Open(l[i]) ==> l[i].server in used
  }

  ghost predicate AllNoted(l: seq<Location>, used: set<nat>) {
    forall i :: Noted(l, used, i)
  }

  lemma {:induction false} FillExtends(before: seq<Location>, l: seq<Location>, servers: seq<Server>, i: nat, id: nat)
    requires Extended(before, l, servers) && i < |l| && Open(l[i]) && Offers(servers, id)
    ensures Extended(before, l[i := l[i].(server := id)], servers)
  {
    var after := l[i := l[i].(server := id)];
    forall j ensures SlotKept(before, after, servers, j) {
      assert SlotKept(before, l, servers, j);
    }
  }

  lemma {:induction false} FillDiffers(l: seq<Location>, used: set<nat>, i: nat, id: nat)
    requires AllDiffer(l) && AllNoted(l, used) && i < |l| && Open(l[i]) && id !in used
    ensures AllDiffer(l[i := l[i].(server := id)])
  {
    var after := l[i := l[i].(server := id)];
    forall j, k ensures Differ(after, j, k) {
      assert Differ(l, j, k) && Noted(l, used, j) && Noted(l, used, k);
    }
  }

  lemma {:induction false} FillNoted(l: seq<Location>, used: set<nat>, i: nat, id: nat)
    requires AllNoted(l, used) && i < |l|
    ensures AllNoted(l[i := l[i].(server := id)], used + {id})
  {
    var after := l[i := l[i].(server := id)];
    forall j ensures Noted(after, used + {id}, j) {
      assert Noted(l, used, j);
    }
  }

  /** Filling open slots makes no two equal, unless two of the slots taken before were. */
  lemma {:induction false} ExtendedDiffer(before: seq<Location>, after: seq<Location>, servers: seq<Server>)
    requires Extended(before, after, servers) && AllDiffer(after)
    ensures AllDiffer(before)
  {
    forall i, j ensures Differ(before, i, j) {
      assert Differ(after, i, j) && SlotKept(before, after, servers, i) && SlotKept(before, after, servers, j);
    }
  }

  /** A draw that can fill no slot any more. */
  ghost predicate Spent(servers: seq<Server>, draw: nat, used: set<nat>) {
    servers != [] && var s := servers[draw % |servers|]; s.id in used || s.state != AVAILABLE
  }

  predicate NoneOpen(l: seq<Location>) {
    forall i :: 0 <= i < |l| ==> !Open(l[i])
  }

  ghost predicate OnSlots(l: seq<Location>, used: set<nat>) {
    forall x :: x in used && x != NOWHERE ==> exists i :: 0 <= i < |l| && l[i].server == x
  }

  lemma {:induction false} FillOnSlots(l: seq<Location>, used: set<nat>, i: nat, id: nat)
    requires OnSlots(l, used) && i < |l| && Open(l[i])
    ensures OnSlots(l[i := l[i].(server := id)], used + {id})
  {
    var after := l[i := l[i].(server := id)];
    assert after[i].server == id;
    forall x | x in used && x != NOWHERE ensures exists j :: 0 <= j < |after| && after[j].server == x {
      var j :| 0 <= j < |l| && l[j].server == x;
      assert after[j].server == x;
    }
  }

  /** Some slot is open, and every draw was of a server that is not available or has a slot already. */
  ghost predicate Stuck(l: seq<Location>, servers: seq<Server>, draws: seq<nat>) {
    && servers != []
    && (exists i :: 0 <= i < |l| && Open(l[i]))
    && (forall j :: 0 <= j < |draws| ==> Wasted(l, servers[draws[j] % |servers|]))
  }

  ghost predicate Wasted(l: seq<Location>, s: Server) {
    s.state != AVAILABLE || exists i :: 0 <= i < |l| && l[i].server == s.id
  }

  lemma {:induction false} StuckIs(l: seq<Location>, servers: seq<Server>, draws: seq<nat>, used: set<nat>, i: nat)
    requires servers != [] && OnSlots(l, used) && i < |l| && Open(l[i])
    requires forall k :: 0 <= k < |servers| ==> servers[k].id != NOWHERE
    requires forall j :: 0 <= j < |draws| ==> Spent(servers, draws[j], used)
    ensures Stuck(l, servers, draws)
  {
    forall j | 0 <= j < |draws| ensures Wasted(l, servers[draws[j] % |servers|]) {
      assert Spent(servers, draws[j], used);
    }
  }

  class Configuration {
    var servers: seq<Server>

    constructor (l: seq<Server>)
      ensures servers == l
    {
      servers := l;
    }

    /** The first server at an address. */
    method ServerAt(address: nat) returns (found: bool, mine: Server)
      ensures var k := FirstAt(servers, address);
              (found <==> k < |servers| && servers[k].bindTo != 0) && (found ==> mine == servers[k])
    {
      mine := Server(0, KILLED, 0);
      var j := 0;
      while j < |servers|
        invariant j <= |servers|
        invariant forall k :: 0 <= k < j ==> AddressOf(servers[k].bindTo) != address
      {
        if AddressOf(servers[j].bindTo) == address {
          FirstAtIs(servers, address, j);
          mine := servers[j];
          found := mine.bindTo != 0;
          return;
        }
        j := j + 1;
      }
      FirstAtIs(servers, address, j);
      found := false;
    }

    /** The servers of the slots that are taken. */
    method Used(bl: array<Location>) returns (used: set<nat>)
      ensures AllNoted(bl[..], used) && OnSlots(bl[..], used)
      ensures forall x :: x in used ==> exists i :: 0 <= i < bl.Length && bl[i].server == x && !Blank(bl[i])
    {
      used := {};
      var i := 0;
      while i < bl.Length
        invariant i <= bl.Length
        invariant forall k :: 0 <= k < i && !Blank(bl[k]) ==> bl[k].server in used
        invariant forall x :: x in used ==> exists k :: 0 <= k < i && bl[k].server == x && !Blank(bl[k])
      {
        if !Blank(bl[i]) {
          used := used + {bl[i].server};
        }
        i := i + 1;
      }
      forall x | x in used ensures exists k :: 0 <= k < |bl[..]| && bl[..][k].server == x {
        var k :| 0 <= k < bl.Length && bl[k].server == x;
        assert bl[..][k].server == x;
      }
    }

    /** Draw until an available server comes up that is not used yet. */
    method Draw(used: set<nat>, draws: seq<nat>) returns (found: bool, id: nat, rest: seq<nat>)
      requires servers != []
      ensures found ==> id !in used && Offers(servers, id)
      ensures !found ==> rest == []
      ensures |rest| <= |draws| && rest == draws[|draws| - |rest|..]
      ensures forall j :: 0 <= j < |draws| - |rest| ==> Spent(servers, draws[j], if found then used + {id} else used)
    {
      rest := draws;
      while rest != []
        invariant |rest| <= |draws| && rest == draws[|draws| - |rest|..]
        invariant forall j :: 0 <= j < |draws| - |rest| ==> Spent(servers, draws[j], used)
      {
        var k := rest[0] % |servers|;
        assert rest[0] == draws[|draws| - |rest|];
        if servers[k].id !in used && servers[k].state == AVAILABLE {
          assert OffersAt(servers, k, servers[k].id);
          assert forall j :: 0 <= j < |draws| - |rest| ==> Spent(servers, draws[j], used + {servers[k].id});
          return true, servers[k].id, rest[1..];
        }
        rest := rest[1..];
      }
      return false, 0, [];
    }

    /** Put a server into the first open slot. */
    method TakeFirst(bl: array<Location>, used: set<nat>, id: nat) returns (now: set<nat>)
      requires AllNoted(bl[..], used) && OnSlots(bl[..], used) && AllDiffer(bl[..])
      requires id !in used && Offers(servers, id)
      modifies bl
      ensures Extended(old(bl[..]), bl[..], servers) && AllDiffer(bl[..])
      ensures AllNoted(bl[..], now) && OnSlots(bl[..], now)
      ensures forall i :: 0 <= i < bl.Length && FirstOpen(old(bl[..]), i) ==> bl[i].server == id
    {
      var i := 0;
      while i < bl.Length
        invariant i <= bl.Length && bl[..] == old(bl[..])
        invariant forall j :: 0 <= j < i ==> !Open(bl[j])
      {
        if Open(bl[i]) {
          FillExtends(bl[..], bl[..], servers, i, id);
          FillDiffers(bl[..], used, i, id);
          FillNoted(bl[..], used, i, id);
          FillOnSlots(bl[..], used, i, id);
          bl[i] := bl[i].(server := id);
          assert bl[..] == old(bl[..])[i := old(bl[i]).(server := id)];
          return used + {id};
        }
        i := i + 1;
      }
      now := used;
    }

    /** Fill every open slot. The program's fallback for a slot that is still open is never reached. */
    method FillAll(bl: array<Location>, used: set<nat>, draws: seq<nat>) returns (done: bool)
      requires servers != [] || NoneOpen(bl[..])
      requires AllNoted(bl[..], used) && OnSlots(bl[..], used) && AllDiffer(bl[..])
      requires forall k :: 0 <= k < |servers| ==> servers[k].id != NOWHERE
      modifies bl
      ensures Extended(old(bl[..]), bl[..], servers) && AllDiffer(bl[..])
      ensures done ==> forall i :: 0 <= i < bl.Length ==> !Open(bl[i])
      ensures !done ==> Stuck(bl[..], servers, draws)
    {
      var i, taken, rest := 0, used, draws;
      while i < bl.Length
        invariant i <= bl.Length && (servers != [] || NoneOpen(bl[..]))
        invariant Extended(old(bl[..]), bl[..], servers) && AllDiffer(bl[..]) && AllNoted(bl[..], taken)
        invariant OnSlots(bl[..], taken) && |rest| <= |draws| && rest == draws[|draws| - |rest|..]
        invariant forall j :: 0 <= j < i ==> !Open(bl[j])
        invariant forall j :: 0 <= j < |draws| - |rest| ==> Spent(servers, draws[j], taken)
      {
        if Open(bl[i]) {
          var found, id;
          ghost var earlier := |draws| - |rest|;
          found, id, rest := Draw(taken, rest);
          ghost var now := if found then taken + {id} else taken;
          forall j | 0 <= j < |draws| - |rest| ensures Spent(servers, draws[j], now) {
            if j < earlier {
              assert Spent(servers, draws[j], taken);
            } else {
              assert draws[j] == draws[earlier..][j - earlier];
            }
          }
          if !found {
            StuckIs(bl[..], servers, draws, taken, i);
            return false;
          }
          ghost var before := bl[..];
          FillOnSlots(bl[..], taken, i, id);
          FillExtends(old(bl[..]), bl[..], servers, i, id);
          FillDiffers(bl[..], taken, i, id);
          FillNoted(bl[..], taken, i, id);
          bl[i] := bl[i].(server := id);
          assert bl[..] == before[i := before[i].(server := id)];
          taken := taken + {id};
        }
        assert !Open(bl[i]);
        i := i + 1;
      }
      done := true;
    }

    /** The closing check. Its inner loop advances the outer index, so it compares every slot with the first one. */
    method ClosingCheck(bl: array<Location>) returns (held: bool)
      ensures held <==> forall i :: 0 < i < bl.Length ==> bl[i].server != bl[0].server
    {
      var i := 0;
      while i < bl.Length
        invariant i == 0 || (i == bl.Length + 1 && forall k :: 0 < k < bl.Length ==> bl[k].server != bl[0].server)
        decreases bl.Length + 1 - i
      {
        var count, j := 0, 0;
        while i < bl.Length
          invariant i <= bl.Length && count == (if i == 0 then 0 else 1)
          invariant forall k :: 0 < k < i ==> bl[k].server != bl[0].server
        {
          if bl[i].server == bl[j].server {
            count := count + 1;
          }
          if count != 1 {
            return false;
          }
          i := i + 1;
        }
        i := i + 1;
      }
      held := true;
    }

    /**
     Assign servers to the open slots. Whatever is drawn: the client's own server goes first, slots taken before are
     unchanged, new ones are on available servers, no two slots share a server, and once every slot is filled neither
     assertion fails. (Without any server there must be no open slot: the draw is taken modulo their number.)
     */
    method AssignRandomBlockLocations(bl: array<Location>, mine: nat, draws: seq<nat>) returns (done: bool, held: bool)
      requires (servers != [] || NoneOpen(bl[..])) && AllDiffer(bl[..])
      requires forall k :: 0 <= k < |servers| ==> servers[k].id != NOWHERE
      modifies bl
      ensures Extended(old(bl[..]), bl[..], servers) && AllDiffer(bl[..])
      ensures done ==> held && forall i :: 0 <= i < bl.Length ==> !Open(bl[i])
      ensures !done ==> Stuck(bl[..], servers, draws)
      ensures OwnFits(servers, mine, old(bl[..])) ==>
                forall i :: 0 <= i < bl.Length && FirstOpen(old(bl[..]), i) ==>
                  bl[i].server == servers[FirstAt(servers, mine)].id
    {
      var used := Used(bl);
      var found, s := ServerAt(mine);
      ghost var first := bl[..];
      assert Extended(first, first, servers);
      if found && s.id !in used && s.state == AVAILABLE {
        assert OffersAt(servers, FirstAt(servers, mine), s.id);
        used := TakeFirst(bl, used, s.id);
      }
      ghost var second := bl[..];
      done := FillAll(bl, used, draws);
      ExtendedTwice(first, second, bl[..], servers);
      forall i | 0 <= i < bl.Length && FirstOpen(first, i) && OwnFits(servers, mine, first)
        ensures bl[i].server == servers[FirstAt(servers, mine)].id
      {
        assert second[i].server == s.id;
        assert SlotKept(second, bl[..], servers, i);
      }
      held := false;
      if done {
        held := ClosingCheck(bl);
        forall i | 0 < i < bl.Length ensures bl[i].server != bl[0].server {
          assert Differ(bl[..], 0, i);
        }
      }
    }
  }

  lemma {:induction false} ExtendedTwice(a: seq<Location>, b: seq<Location>, c: seq<Location>, servers: seq<Server>)
    requires Extended(a, b, servers) && Extended(b, c, servers)
    ensures Extended(a, c, servers)
  {
    forall i ensures SlotKept(a, c, servers, i) {
      assert SlotKept(a, b, servers, i) && SlotKept(b, c, servers, i);
    }
  }
}
