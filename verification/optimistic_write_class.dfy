/**
 The loops behind the optimistic write's steps: the client's sending loop and its list of outstanding servers, and the
 server's handling of an update. Each is proved to compute the function the state machine is built from.
 */
module Replication {
  import opened Extents
  import opened OptimisticWrites

  lemma {:induction false} WithoutAt(l: seq<nat>, x: nat, i: nat)
    requires i < |l| && l[i] == x && forall j :: 0 <= j < i ==> l[j] != x
    ensures Without(l, x) == l[..i] + l[i + 1..]
  {
    if i > 0 {
      WithoutAt(l[1..], x, i - 1);
      assert l[..i] == [l[0]] + l[1..][..i - 1] && l[1..][i..] == l[i + 1..];
    }
  }

  lemma {:induction false} WithoutNone(l: seq<nat>, x: nat)
    requires x !in l
    ensures Without(l, x) == l
  {
    if l != [] {
      WithoutNone(l[1..], x);
      assert l == [l[0]] + l[1..];
    }
  }

  /** What an operation still waits for. */
  class PendingAggregation {
    var outstanding: seq<nat>

    constructor ()
      ensures outstanding == []
    {
      outstanding := [];
    }

    method HandleSentToWtf(server: nat)
      modifies this
      ensures outstanding == old(outstanding) + [server]
    {
      outstanding := outstanding + [server];
    }

    /** Move everything behind entry i one place forward, and drop the last entry. */
    method Close(i: nat)
      requires i < |outstanding|
      modifies this
      ensures outstanding == old(outstanding)[..i] + old(outstanding)[i + 1..]
    {
      ghost var l := outstanding;
      var j := i;
      while j + 1 < |outstanding|
        invariant i <= j < |outstanding| == |l|
        invariant forall k :: 0 <= k < i || j <= k < |l| ==> outstanding[k] == l[k]
        invariant forall k :: i <= k < j ==> outstanding[k] == l[k + 1]
      {
        outstanding := outstanding[j := outstanding[j + 1]];
        j := j + 1;
      }
      outstanding := outstanding[..|outstanding| - 1];
      assert outstanding == l[..i] + l[i + 1..];
    }

    method RemoveWtfMessage(server: nat)
      modifies this
      ensures outstanding == Without(old(outstanding), server)
    {
      var i := 0;
      while i < |outstanding|
        invariant i <= |outstanding| && outstanding == old(outstanding)
        invariant forall j :: 0 <= j < i ==> outstanding[j] != server
      {
        if outstanding[i] == server {
          WithoutAt(outstanding, server, i);
          Close(i);
          return;
        }
        i := i + 1;
      }
      WithoutNone(outstanding, server);
    }
  }

  /** One send: to whom, under which nonce, and whether it carries the data or only opens a channel. */
  datatype Post = Post(server: nat, nonce: nat, data: bool)

  lemma {:induction false} PostedStep(p: map<Key, Pend>, q: map<Key, Pend>, h: nat, c: nat, base: nat,
                                      servers: seq<nat>, sent: seq<bool>, i: nat)
    requires |sent| == |servers| && i < |servers|
    requires q == if sent[i] then p[Key(c, base + i) := Pend(servers[i], h)] else p
    ensures Posted(p, h, c, base, servers[..i + 1], sent[..i + 1]) == Posted(q, h, c, base, servers[..i], sent[..i])
    ensures Reached(servers[..i + 1], sent[..i + 1])
         == (if sent[i] then [servers[i]] else []) + Reached(servers[..i], sent[..i])
  {
    assert servers[..i + 1][..i] == servers[..i] && sent[..i + 1][..i] == sent[..i];
  }

  class Client {
    const token: nat
    var nextServerNonce: nat
    var pending: map<Key, Pend>

    constructor (id: nat)
      ensures token == id && nextServerNonce == 0 && pending == map[]
    {
      token, nextServerNonce, pending := id, 0, map[];
    }

    /**
     Send to every server, the last one first, counting the nonce down. `sent` says which sends succeed; the others
     leave nothing pending. Replica i is sent nonce base + i, and only the first one is sent the data.
     */
    method PerformAggregation(op: PendingAggregation, handle: nat, servers: seq<nat>, sent: seq<bool>)
      returns (posts: seq<Post>)
      requires |sent| == |servers|
      modifies this, op
      ensures nextServerNonce == old(nextServerNonce) + |servers|
      ensures pending == Posted(old(pending), handle, token, old(nextServerNonce), servers, sent)
      ensures op.outstanding == old(op.outstanding) + Reached(servers, sent)
      ensures posts == seq(|servers|,
                           i requires 0 <= i < |servers| => Post(servers[i], old(nextServerNonce) + i, i == 0))
    {
      ghost var base := nextServerNonce;
      nextServerNonce := nextServerNonce + |servers|;
      var nonce := nextServerNonce;
      var i := |servers|;
      posts := [];
      assert servers[..i] == servers && sent[..i] == sent;
      while i > 0
        invariant i <= |servers| && nonce == base + i
        invariant nextServerNonce == base + |servers|
        invariant Posted(old(pending), handle, token, base, servers, sent)
               == Posted(pending, handle, token, base, servers[..i], sent[..i])
        invariant old(op.outstanding) + Reached(servers, sent) == op.outstanding + Reached(servers[..i], sent[..i])
        invariant |posts| == |servers| - i
        invariant forall j :: 0 <= j < |posts| ==> posts[j] == Post(servers[i + j], base + (i + j), i + j == 0)
      {
        i := i - 1;
        nonce := nonce - 1;
        ghost var p := pending;
        posts := [Post(servers[i], nonce, i == 0)] + posts;
        if sent[i] {
          op.HandleSentToWtf(servers[i]);
          pending := pending[Key(token, nonce) := Pend(servers[i], handle)];
        }
        PostedStep(p, pending, handle, token, base, servers, sent, i);
      }
    }
  }

  class Server {
    const self: nat
    var ids: nat
    var blocks: map<Location, seq<Byte>>

    constructor (id: nat)
      ensures self == id && ids == 0 && blocks == map[]
    {
      self, ids, blocks := id, 0, map[];
    }

    /** write_block: a new block, or nothing and -1 when the log has no room. */
    method WriteBlock(data: seq<Byte>, room: bool) returns (status: int, block: nat)
      modifies this
      ensures if room then status == |data| && block == old(ids) && ids == old(ids) + 1 &&
                           blocks == old(blocks)[Location(self, block) := data]
              else status == -1 && block == NO_BLOCK && ids == old(ids) && blocks == old(blocks)
    {
      status, block := -1, NO_BLOCK;
      if room {
        status, block := |data|, ids;
        blocks := blocks[Location(self, ids) := data];
        ids := ids + 1;
      }
    }

    /** How far this server stands from the master in the list; 0 when it is not there at all. */
    method NonceOffset(servers: seq<nat>) returns (offset: nat)
      ensures offset == if self in servers then IndexOf(servers, self) else 0
    {
      var i := 0;
      while i < |servers|
        invariant i <= |servers| && forall j :: 0 <= j < i ==> servers[j] != self
      {
        if servers[i] == self {
          return i;
        }
        i := i + 1;
      }
      offset := 0;
    }

    method Forward(m: Update) returns (copies: set<Update>)
      requires m.server == self
      ensures copies == Copies(m)
      ensures forall u :: u in copies <==>
                m.servers != [] && m.servers[0] == self
                && exists i :: 1 <= i < |m.servers| && u == m.(server := m.servers[i])
    {
      copies := {};
      if m.servers != [] && m.servers[0] == self {
        var i := 1;
        while i < |m.servers|
          invariant 1 <= i <= |m.servers|
          invariant copies == set j | 1 <= j < i :: m.(server := m.servers[j])
        {
          copies := copies + {m.(server := m.servers[i])};
          i := i + 1;
        }
      }
    }

    /** The 64-bit pattern of a status: -1 becomes the largest length. */
    function AsLength(status: int): nat
      requires -1 <= status
    {
      if status < 0 then NO_BLOCK else status
    }

    /** process_update, as one step of the state machine sees it. */
    method ProcessUpdate(m: Update, room: bool) returns (ack: Ack, copies: set<Update>)
      requires m.server == self
      modifies this
      ensures ack == AckOf(m, room, old(ids)) && copies == Copies(m)
      ensures if room then ids == old(ids) + 1 && blocks == old(blocks)[Location(self, old(ids)) := m.data]
              else ids == old(ids) && blocks == old(blocks)
    {
      var status, block := WriteBlock(m.data, room);
      copies := Forward(m);
      var offset := NonceOffset(m.servers);
      ack := Ack(self, m.client, m.nonce + offset, block, m.address, AsLength(status), m.round);
    }
  }
}
