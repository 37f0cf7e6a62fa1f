/** The askpass broker: Git and SSH ask for secrets, the UI answers, and an operation's
    credentials end with it (src-tauri/src/askpass.rs). */
module Askpass {
  import opened Wrappers

  // ---------- the broker's two tables ----------

  datatype Operation = Operation(token: string, background: bool, expires: int, rootPid: Option<nat>)

  /** `waiters` holds, for each request that is out with the UI, its operation. */
  datatype Broker = Broker(operations: map<string, Operation>, waiters: map<nat, string>, nextId: nat)

  const INITIAL := Broker(map[], map[], 1)

  /** What the socket says of the other end, where the platform can. */
  datatype Peer = Peer(pid: Option<nat>, uid: Option<nat>)

  predicate Live(b: Broker, operation: string, now: int) {
    operation in b.operations && now < b.operations[operation].expires
  }

  function Begun(b: Broker, operation: string, token: string, background: bool, expires: int): Broker {
    b.(operations := b.operations[operation := Operation(token, background, expires, None)])
  }

  function Bound(b: Broker, operation: string, pid: nat, now: int): Broker {
    if Live(b, operation, now) then
      b.(operations := b.operations[operation := b.operations[operation].(rootPid := Some(pid))])
    else b
  }

  function Removed(b: Broker, operation: string): Broker {
    b.(operations := b.operations - {operation})
  }

  function WaitersOf(b: Broker, operation: string): set<nat> {
    set id | id in b.waiters && b.waiters[id] == operation
  }

  function Released(b: Broker, operation: string): Broker {
    b.(waiters := b.waiters - WaitersOf(b, operation))
  }

  /** The process `n` parents up, if there is one. */
  function Climb(parents: map<nat, nat>, pid: nat, n: nat): Option<nat>
    decreases n
  {
    if n == 0 then Some(pid)
    else if pid in parents && parents[pid] != pid then Climb(parents, parents[pid], n - 1)
    else None
  }

  const MAX_CLIMB: nat := 32

  predicate Descends(parents: map<nat, nat>, pid: nat, ancestor: nat) {
    exists n: nat :: n < MAX_CLIMB && Climb(parents, pid, n) == Some(ancestor)
  }

  /** No secret before the Git process tree is bound, and none outside it. */
  predicate PeerAllowed(peer: Peer, ours: nat, root: Option<nat>, parents: map<nat, nat>) {
    && (peer.uid.Some? ==> peer.uid.value == ours)
    && root.Some?
    && (peer.pid.Some? ==> Descends(parents, peer.pid.value, root.value))
  }

  predicate Admissible(b: Broker, operation: string, token: string, peer: Peer,
                       ours: nat, parents: map<nat, nat>, now: int)
  {
    && Live(b, operation, now)
    && b.operations[operation].token == token
    && PeerAllowed(peer, ours, b.operations[operation].rootPid, parents)
    && !b.operations[operation].background
  }

  function Registered(b: Broker, operation: string): Broker {
    b.(waiters := b.waiters[b.nextId := operation], nextId := b.nextId + 1)
  }

  function Forgotten(b: Broker, id: nat): Broker {
    b.(waiters := b.waiters - {id})
  }

  /** What the waiter is sent: the answer, if its operation still lives. */
  function Relayed(b: Broker, id: nat, answer: Option<string>, now: int): Option<Option<string>> {
    if id !in b.waiters then None
    else Some(if Live(b, b.waiters[id], now) then answer else None)
  }

  // ---------- the server ----------

  lemma {:induction false} ClimbOneMore(parents: map<nat, nat>, pid: nat, n: nat)
    ensures Climb(parents, pid, n + 1)
            == match Climb(parents, pid, n)
               case None => None
               case Some(at) => if at in parents && parents[at] != at then Some(parents[at]) else None
    decreases n
  {
    if n > 0 && pid in parents && parents[pid] != pid {
      ClimbOneMore(parents, parents[pid], n - 1);
    }
  }

  lemma {:induction false} ClimbEnds(parents: map<nat, nat>, pid: nat, n: nat, m: nat)
    requires Climb(parents, pid, n).None? && n <= m
    ensures Climb(parents, pid, m).None?
  {
    if n < m {
      ClimbEnds(parents, pid, n, m - 1);
      ClimbOneMore(parents, pid, m - 1);
    }
  }

  method IsSelfOrDescendant(pid: nat, ancestor: nat, parents: map<nat, nat>) returns (r: bool)
    ensures r <==> Descends(parents, pid, ancestor)
  {
    var current := pid;
    for n := 0 to MAX_CLIMB
      invariant Climb(parents, pid, n) == Some(current)
      invariant forall m: nat :: m < n ==> Climb(parents, pid, m) != Some(ancestor)
    {
      if current == ancestor {
        return true;
      }
      ClimbOneMore(parents, pid, n);
      if current !in parents || parents[current] == current {
        forall m: nat | n < m < MAX_CLIMB ensures Climb(parents, pid, m).None? {
          ClimbEnds(parents, pid, n + 1, m);
        }
        return false;
      }
      current := parents[current];
    }
    r := false;
  }

  /** `AskpassServer`, one method per locked section. */
  class Server {
    const ours: nat
    var operations: map<string, Operation>
    var waiters: map<nat, string>
    var nextId: nat

    function Snapshot(): Broker
      reads this
    {
      Broker(operations, waiters, nextId)
    }

    constructor (uid: nat)
      ensures Snapshot() == INITIAL && ours == uid
    {
      ours, operations, waiters, nextId := uid, map[], map[], 1;
    }

    method Begin(operation: string, token: string, background: bool, expires: int)
      modifies this
      ensures Snapshot() == Begun(old(Snapshot()), operation, token, background, expires)
    {
      operations := operations[operation := Operation(token, background, expires, None)];
    }

    method BindRootPid(operation: string, pid: nat, now: int)
      modifies this
      ensures Snapshot() == Bound(old(Snapshot()), operation, pid, now)
    {
      if operation in operations {
        var record := operations[operation];
        if now < record.expires {
          operations := operations[operation := record.(rootPid := Some(pid))];
        }
      }
    }

    /** Both halves of `revoke`; the waiters it released were each sent a refusal. */
    method Revoke(operation: string) returns (released: set<nat>)
      modifies this
      ensures Snapshot() == Released(Removed(old(Snapshot()), operation), operation)
      ensures released == WaitersOf(old(Snapshot()), operation)
    {
      operations := operations - {operation};
      released := ReleaseWaiters(operation);
    }

    method ReleaseWaiters(operation: string) returns (released: set<nat>)
      modifies this`waiters
      ensures Snapshot() == Released(old(Snapshot()), operation)
      ensures released == WaitersOf(old(Snapshot()), operation)
    {
      var ids := set id | id in waiters && waiters[id] == operation;
      released := {};
      ghost var before := waiters;
      while ids != {}
        invariant released + ids == WaitersOf(old(Snapshot()), operation) && released !! ids
        invariant waiters == before - released
        decreases |ids|
      {
        var id :| id in ids;
        waiters := waiters - {id};
        released := released + {id};
        ids := ids - {id};
      }
    }

    /** Every operation that had expired is revoked, and no other. */
    method SweepExpired(now: int)
      modifies this
      ensures forall o :: o in operations <==> o in old(operations) && now < old(operations)[o].expires
      ensures forall o :: o in operations ==> operations[o] == old(operations)[o]
      ensures forall id :: id in waiters <==>
                && id in old(waiters)
                && !(old(waiters)[id] in old(operations) && now >= old(operations)[old(waiters)[id]].expires)
      ensures forall id :: id in waiters ==> waiters[id] == old(waiters)[id]
      ensures nextId == old(nextId)
    {
      var expired := set o | o in operations && now >= operations[o].expires;
      ghost var gone: set<string> := {};
      while expired != {}
        invariant forall o :: o in gone || o in expired <==> o in old(operations) && now >= old(operations)[o].expires
        invariant gone !! expired
        invariant operations == old(operations) - gone
        invariant forall id :: id in waiters <==> id in old(waiters) && old(waiters)[id] !in gone
        invariant forall id :: id in waiters ==> waiters[id] == old(waiters)[id]
        invariant nextId == old(nextId)
        decreases |expired|
      {
        var o :| o in expired;
        var _ := Revoke(o);
        gone := gone + {o};
        expired := expired - {o};
      }
    }

    /** The UI's reply; what the waiter was sent, if there was one. */
    method Respond(id: nat, answer: Option<string>, now: int) returns (sent: Option<Option<string>>)
      modifies this`waiters
      ensures sent == Relayed(old(Snapshot()), id, answer, now)
      ensures Snapshot() == Forgotten(old(Snapshot()), id)
    {
      sent := None;
      if id in waiters {
        var operation := waiters[id];
        waiters := waiters - {id};
        if operation in operations && now < operations[operation].expires {
          sent := Some(answer);
        } else {
          sent := Some(None);
        }
      }
    }

    /** The locked part of `resolve`: the request's id, if it may be put to the UI. */
    method Admit(operation: string, token: string, peer: Peer, parents: map<nat, nat>, now: int)
      returns (id: Option<nat>)
      modifies this
      ensures id.Some? <==> Admissible(old(Snapshot()), operation, token, peer, ours, parents, now)
      ensures id.Some? ==> id.value == old(nextId) && Snapshot() == Registered(old(Snapshot()), operation)
      ensures id.None? ==> Snapshot() == old(Snapshot())
    {
      if operation !in operations {
        return None;
      }
      var record := operations[operation];
      if record.token != token || now >= record.expires {
        return None;
      }
      var allowed := AllowedPeer(peer, record.rootPid, parents);
      if !allowed || record.background {
        return None;
      }
      id := Some(nextId);
      waiters := waiters[nextId := operation];
      nextId := nextId + 1;
    }

    method AllowedPeer(peer: Peer, root: Option<nat>, parents: map<nat, nat>) returns (allowed: bool)
      ensures allowed <==> PeerAllowed(peer, ours, root, parents)
    {
      if peer.uid.Some? && peer.uid.value != ours {
        return false;
      }
      if root.None? {
        return false;
      }
      allowed := true;
      if peer.pid.Some? {
        allowed := IsSelfOrDescendant(peer.pid.value, root.value, parents);
      }
    }
  }
}
