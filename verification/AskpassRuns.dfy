/** The askpass broker over whole runs (src-tauri/src/askpass.rs): connections, the UI, guards
    that are dropped, sweeps and deadlines interleave at the two locks. */
module AskpassRuns {
  import opened Wrappers
  import opened Askpass

  /** A connection: the box is its channel. `Leaving` has stopped listening, and has still to
      take its request back. */
  datatype Stage = Waiting(box: Option<Option<string>>) | Leaving | Ended(secret: Option<string>)

  datatype Conn = Conn(id: Option<nat>, operation: string, stage: Stage)

  /** A reply of the UI that met a waiter. History. */
  datatype Reply = Reply(operation: string, answer: Option<string>, lived: bool)

  /** `begun` (every operation id ever used), `revoking` (operations removed whose waiters are
      still to be released), `replies` and `admitted` (the connections let in) are history. */
  datatype World = World(
    broker: Broker,
    conns: map<nat, Conn>,
    begun: set<string>,
    revoking: set<string>,
    replies: map<nat, Reply>,
    admitted: set<nat>)

  datatype Action =
    | Begin(operation: string, token: string, background: bool, expires: int)
    | Bind(operation: string, pid: nat, now: int)
    | Remove(operation: string)
    | Release(operation: string)
    | Admit(conn: nat, operation: string, token: string, peer: Peer, ours: nat, parents: map<nat, nat>, now: int)
    | Respond(id: nat, answer: Option<string>, now: int)
    | Receive(conn: nat)
    | TimeOut(conn: nat)
    | Forget(conn: nat)

  predicate At(w: World, conn: nat, stage: Stage) {
    conn in w.conns && w.conns[conn].stage == stage
  }

  /** Operation ids are random and never repeat. */
  predicate Enabled(w: World, a: Action) {
    match a
    case Begin(operation, _, _, _) => operation !in w.begun
    case Remove(operation) => operation in w.begun
    case Release(operation) => operation in w.revoking
    case Admit(conn, _, _, _, _, _, _) => conn !in w.conns
    case Receive(conn) => conn in w.conns && w.conns[conn].stage.Waiting? && w.conns[conn].stage.box.Some?
    case TimeOut(conn) => At(w, conn, Waiting(None))
    case Forget(conn) => At(w, conn, Leaving) && w.conns[conn].id.Some?
    case _ => true
  }

  /** A message reaches the connection whose request it answers, if that still listens. */
  function Posted(conns: map<nat, Conn>, ids: set<nat>, message: Option<string>): map<nat, Conn> {
    map c | c in conns ::
      if conns[c].id.Some? && conns[c].id.value in ids && conns[c].stage == Waiting(None)
      then conns[c].(stage := Waiting(Some(message))) else conns[c]
  }

  function Do(w: World, a: Action): World
    requires Enabled(w, a)
  {
    match a
    case Begin(operation, token, background, expires) =>
      w.(broker := Begun(w.broker, operation, token, background, expires), begun := w.begun + {operation})
    case Bind(operation, pid, now) => w.(broker := Bound(w.broker, operation, pid, now))
    case Remove(operation) =>
      w.(broker := Removed(w.broker, operation), revoking := w.revoking + {operation})
    case Release(operation) =>
      w.(broker := Released(w.broker, operation), revoking := w.revoking - {operation},
         conns := Posted(w.conns, WaitersOf(w.broker, operation), None))
    case Admit(conn, operation, token, peer, ours, parents, now) =>
      if Admissible(w.broker, operation, token, peer, ours, parents, now) then
        w.(broker := Registered(w.broker, operation), admitted := w.admitted + {conn},
           conns := w.conns[conn := Conn(Some(w.broker.nextId), operation, Waiting(None))])
      else w.(conns := w.conns[conn := Conn(None, operation, Ended(None))])
    case Respond(id, answer, now) =>
      var sent := Relayed(w.broker, id, answer, now);
      if sent.None? then w
      else
        w.(broker := Forgotten(w.broker, id), conns := Posted(w.conns, {id}, sent.value),
           replies := w.replies[id := Reply(w.broker.waiters[id], answer, Live(w.broker, w.broker.waiters[id], now))])
    case Receive(conn) => w.(conns := w.conns[conn := w.conns[conn].(stage := Ended(w.conns[conn].stage.box.value))])
    case TimeOut(conn) => w.(conns := w.conns[conn := w.conns[conn].(stage := Leaving)])
    case Forget(conn) =>
      w.(broker := Forgotten(w.broker, w.conns[conn].id.value),
         conns := w.conns[conn := w.conns[conn].(stage := Ended(None))])
  }

  ghost predicate Start(w: World) {
    w == World(INITIAL, map[], {}, {}, map[], {})
  }

  // ---------- the invariant ----------

  /** Every request out with the UI belongs to an operation that lives in the table, or whose
      revocation has still to release it. */
  ghost predicate NoOrphans(w: World) {
    && (forall o :: o in w.broker.operations ==> o in w.begun && o !in w.revoking)
    && (forall o :: o in w.revoking ==> o in w.begun)
    && (forall id :: id in w.broker.waiters ==>
          && id < w.broker.nextId
          && (w.broker.waiters[id] in w.broker.operations || w.broker.waiters[id] in w.revoking))
  }

  /** Requests and connections match one to one; one that still listens is still out. */
  ghost predicate Matched(w: World) {
    && (forall c :: c in w.conns && w.conns[c].id.Some? ==>
          && w.conns[c].id.value < w.broker.nextId && c in w.admitted
          && (w.conns[c].id.value in w.broker.waiters ==>
                w.broker.waiters[w.conns[c].id.value] == w.conns[c].operation)
          && (w.conns[c].stage == Waiting(None) ==> w.conns[c].id.value in w.broker.waiters))
    && (forall c :: c in w.conns && w.conns[c].id.None? ==> w.conns[c].stage == Ended(None))
    && (forall c, d :: c in w.conns && d in w.conns && c != d && w.conns[c].id.Some? ==> w.conns[c].id != w.conns[d].id)
  }

  /** The secret a connection holds or returned. */
  function Secret(c: Conn): Option<string> {
    match c.stage
    case Waiting(Some(message)) => message
    case Ended(secret) => secret
    case _ => None
  }

  /** A secret comes from the one reply to its request, made while its operation lived. */
  ghost predicate Earned(w: World) {
    && (forall id :: id in w.replies ==> id < w.broker.nextId && id !in w.broker.waiters)
    && (forall c :: c in w.conns && Secret(w.conns[c]).Some? ==>
          && w.conns[c].id.Some? && w.conns[c].id.value in w.replies
          && w.replies[w.conns[c].id.value] == Reply(w.conns[c].operation, Secret(w.conns[c]), true))
  }

  ghost predicate Inv(w: World) {
    NoOrphans(w) && Matched(w) && Earned(w)
  }

  lemma TablesStep(w: World, a: Action)
    requires Inv(w) && Enabled(w, a) && (a.Begin? || a.Bind? || a.Remove?)
    ensures Inv(Do(w, a))
  {
    var next := Do(w, a);
    assert next.conns == w.conns && next.replies == w.replies && next.admitted == w.admitted;
    assert next.broker.waiters == w.broker.waiters && next.broker.nextId == w.broker.nextId;
    assert NoOrphans(next);
    assert Matched(next);
  }

  lemma AdmitStep(w: World, a: Action)
    requires Inv(w) && Enabled(w, a) && a.Admit?
    ensures Inv(Do(w, a))
  {
    assert NoOrphans(Do(w, a));
    if Admissible(w.broker, a.operation, a.token, a.peer, a.ours, a.parents, a.now) {
      AdmittedIsMatched(w, a);
    }
  }

  /** The request is new: no other connection has its number. */
  lemma AdmittedIsMatched(w: World, a: Action)
    requires Inv(w) && Enabled(w, a) && a.Admit?
    requires Admissible(w.broker, a.operation, a.token, a.peer, a.ours, a.parents, a.now)
    ensures Matched(Do(w, a)) && Earned(Do(w, a))
  {
  }

  lemma ReleaseStep(w: World, a: Action)
    requires Inv(w) && Enabled(w, a) && a.Release?
    ensures Inv(Do(w, a))
  {
    assert NoOrphans(Do(w, a));
    assert Matched(Do(w, a));
  }

  lemma RespondStep(w: World, a: Action)
    requires Inv(w) && Enabled(w, a) && a.Respond?
    ensures Inv(Do(w, a))
  {
    assert NoOrphans(Do(w, a));
    assert Matched(Do(w, a));
  }

  lemma HearStep(w: World, a: Action)
    requires Inv(w) && Enabled(w, a) && (a.Receive? || a.TimeOut?)
    ensures Inv(Do(w, a))
  {
    var next := Do(w, a);
    assert next.broker == w.broker && next.replies == w.replies && next.admitted == w.admitted;
    assert NoOrphans(next);
    assert Matched(next);
  }

  lemma ForgetStep(w: World, a: Action)
    requires Inv(w) && Enabled(w, a) && a.Forget?
    ensures Inv(Do(w, a))
  {
    assert NoOrphans(Do(w, a));
    assert Matched(Do(w, a));
  }

  lemma InvStep(w: World, a: Action)
    requires Inv(w) && Enabled(w, a)
    ensures Inv(Do(w, a))
  {
    if a.Release? { ReleaseStep(w, a); }
    else if a.Respond? { RespondStep(w, a); }
    else if a.Receive? || a.TimeOut? { HearStep(w, a); }
    else if a.Forget? { ForgetStep(w, a); }
    else if a.Admit? { AdmitStep(w, a); }
    else { TablesStep(w, a); }
  }

  // ---------- every run ----------

  ghost predicate Run(ws: seq<World>, acts: seq<Action>) {
    && |ws| == |acts| + 1 && Start(ws[0])
    && forall k :: 0 <= k < |acts| ==> Enabled(ws[k], acts[k]) && ws[k + 1] == Do(ws[k], acts[k])
  }

  lemma {:induction false} RunKeeps(ws: seq<World>, acts: seq<Action>, k: nat)
    requires Run(ws, acts) && k < |ws|
    ensures Inv(ws[k])
  {
    if k > 0 {
      RunKeeps(ws, acts, k - 1);
      InvStep(ws[k - 1], acts[k - 1]);
    }
  }

  // ---------- who is let in, from what was done before ----------

  /** The operation was begun for a user with this token, and not removed since; it has not expired. */
  ghost predicate Lives(acts: seq<Action>, b: nat, i: nat, operation: string, token: string, now: int)
    requires i <= |acts|
  {
    && b < i && acts[b].Begin? && acts[b].operation == operation && acts[b].token == token
    && now < acts[b].expires
    && forall s :: b < s < i ==> acts[s] != Remove(operation)
  }

  /** The step binds the root process in time. */
  predicate Binds(a: Action, operation: string, expires: int) {
    a.Bind? && a.operation == operation && a.now < expires
  }

  /** The last binding since in time is to `pid`. */
  ghost predicate BoundTo(acts: seq<Action>, b: nat, r: nat, i: nat, pid: nat)
    requires i <= |acts|
  {
    && b < r < i && acts[b].Begin? && Binds(acts[r], acts[b].operation, acts[b].expires) && acts[r].pid == pid
    && forall s :: r < s < i ==> !Binds(acts[s], acts[b].operation, acts[b].expires)
  }

  /** The other end is ours, and the bound process or one that it has started, where that is known. */
  predicate Belongs(peer: Peer, ours: nat, pid: nat, parents: map<nat, nat>) {
    && (peer.uid.None? || peer.uid == Some(ours))
    && (peer.pid.None? || Descends(parents, peer.pid.value, pid))
  }

  /** The connection asks with the token of an operation in the foreground that was begun at `b` and
      bound at `r`. */
  ghost predicate Entitled(acts: seq<Action>, i: nat, b: nat, r: nat)
    requires i < |acts| && acts[i].Admit?
  {
    && Lives(acts, b, i, acts[i].operation, acts[i].token, acts[i].now) && !acts[b].background
    && r < i && acts[r].Bind? && BoundTo(acts, b, r, i, acts[r].pid)
    && Belongs(acts[i].peer, acts[i].ours, acts[r].pid, acts[i].parents)
  }

  ghost predicate RootIs(acts: seq<Action>, b: nat, i: nat, pid: nat)
    requires i <= |acts|
  {
    exists r: nat :: BoundTo(acts, b, r, i, pid)
  }

  /** What a begun operation has in the table, until it is removed. */
  lemma {:induction false} RecordIs(ws: seq<World>, acts: seq<Action>, b: nat, i: nat)
    requires Run(ws, acts) && b < i < |ws| && acts[b].Begin?
    requires forall s :: b < s < i ==> acts[s] != Remove(acts[b].operation)
    ensures acts[b].operation in ws[i].broker.operations && acts[b].operation in ws[i].begun
    ensures var record := ws[i].broker.operations[acts[b].operation];
      && record.token == acts[b].token && record.background == acts[b].background && record.expires == acts[b].expires
      && (forall pid: nat :: record.rootPid == Some(pid) <==> RootIs(acts, b, i, pid))
  {
    var operation := acts[b].operation;
    if i > b + 1 {
      RecordIs(ws, acts, b, i - 1);
      RecordStays(ws[i - 1], acts[i - 1], operation);
      hide RootIs;
      forall pid: nat ensures RootIs(acts, b, i, pid) <==>
          if Binds(acts[i - 1], operation, acts[b].expires) then acts[i - 1].pid == pid
          else RootIs(acts, b, i - 1, pid)
      {
        LastBinding(acts, b, i - 1, pid);
      }
    } else {
      assert Enabled(ws[b], acts[b]);
    }
  }

  lemma RecordStays(w: World, a: Action, operation: string)
    requires Enabled(w, a) && operation in w.broker.operations && operation in w.begun && a != Remove(operation)
    ensures operation in Do(w, a).broker.operations && operation in Do(w, a).begun
    ensures var was := w.broker.operations[operation];
            var now := Do(w, a).broker.operations[operation];
            if Binds(a, operation, was.expires) then now == was.(rootPid := Some(a.pid)) else now == was
  {
  }

  lemma LastBinding(acts: seq<Action>, b: nat, last: nat, pid: nat)
    requires b < last < |acts| && acts[b].Begin?
    ensures RootIs(acts, b, last + 1, pid) <==>
              if Binds(acts[last], acts[b].operation, acts[b].expires) then acts[last].pid == pid
              else RootIs(acts, b, last, pid)
  {
    if Binds(acts[last], acts[b].operation, acts[b].expires) {
      if acts[last].pid == pid { assert BoundTo(acts, b, last, last + 1, pid); }
    } else if RootIs(acts, b, last, pid) {
      var r: nat :| BoundTo(acts, b, r, last, pid);
      assert BoundTo(acts, b, r, last + 1, pid);
    }
    if RootIs(acts, b, last + 1, pid) {
      var r: nat :| BoundTo(acts, b, r, last + 1, pid);
      assert r < last ==> BoundTo(acts, b, r, last, pid);
    }
  }

  /** An operation in the table was begun, and not removed since. */
  lemma {:induction false} WasBegun(ws: seq<World>, acts: seq<Action>, i: nat, operation: string) returns (b: nat)
    requires Run(ws, acts) && i < |ws| && operation in ws[i].broker.operations
    ensures b < i && acts[b].Begin? && acts[b].operation == operation
    ensures forall s :: b < s < i ==> acts[s] != Remove(operation)
  {
    assert Enabled(ws[i - 1], acts[i - 1]);
    if acts[i - 1].Begin? && acts[i - 1].operation == operation {
      b := i - 1;
    } else {
      b := WasBegun(ws, acts, i - 1, operation);
    }
  }

  /** Who is let in: exactly who asks with the token of an operation that was begun in the foreground,
      has not expired or been revoked, and whose process tree, as it was bound last, they belong to. */
  lemma AdmittedExactly(ws: seq<World>, acts: seq<Action>, i: nat)
    requires Run(ws, acts) && i < |acts| && acts[i].Admit?
    ensures ws[i + 1].conns[acts[i].conn].id.Some? <==> exists b: nat, r: nat :: Entitled(acts, i, b, r)
    ensures if ws[i + 1].conns[acts[i].conn].id.Some?
            then ws[i + 1].conns[acts[i].conn] == Conn(Some(ws[i].broker.nextId), acts[i].operation, Waiting(None))
            else ws[i + 1].conns[acts[i].conn] == Conn(None, acts[i].operation, Ended(None))
  {
    var a := acts[i];
    assert Enabled(ws[i], a);
    if a.operation in ws[i].broker.operations {
      var b := WasBegun(ws, acts, i, a.operation);
      RecordIs(ws, acts, b, i);
      var record := ws[i].broker.operations[a.operation];
      if record.rootPid.Some? {
        assert RootIs(acts, b, i, record.rootPid.value);
        var r: nat :| BoundTo(acts, b, r, i, record.rootPid.value);
        assert Admissible(ws[i].broker, a.operation, a.token, a.peer, a.ours, a.parents, a.now)
               ==> Entitled(acts, i, b, r);
      }
    }
    if b: nat, r: nat :| Entitled(acts, i, b, r) {
      RecordIs(ws, acts, b, i);
      assert RootIs(acts, b, i, acts[r].pid);
    }
  }

  /** The step let the connection in, and rightly so. */
  ghost predicate LetIn(acts: seq<Action>, i: nat, conn: nat) {
    && i < |acts| && acts[i].Admit? && acts[i].conn == conn
    && exists b: nat, r: nat :: Entitled(acts, i, b, r)
  }

  /** The UI's reply to request `id`, made while its operation was registered and unexpired. */
  predicate Gave(w: World, a: Action, id: nat, operation: string, secret: string) {
    && a.Respond? && a.id == id && a.answer == Some(secret)
    && id in w.broker.waiters && w.broker.waiters[id] == operation && Live(w.broker, operation, a.now)
  }

  /** The step gave the secret that the connection has by now, as the answer to its request. */
  ghost predicate CameFrom(ws: seq<World>, acts: seq<Action>, k: nat, conn: nat, t: nat)
    requires Run(ws, acts) && k < |ws|
  {
    && t < k && conn in ws[k].conns && ws[k].conns[conn].id.Some? && Secret(ws[k].conns[conn]).Some?
    && Gave(ws[t], acts[t], ws[k].conns[conn].id.value, ws[k].conns[conn].operation, Secret(ws[k].conns[conn]).value)
  }

  lemma {:induction false} AdmittedWasLetIn(ws: seq<World>, acts: seq<Action>, k: nat, conn: nat) returns (i: nat)
    requires Run(ws, acts) && k < |ws| && conn in ws[k].conns && ws[k].conns[conn].id.Some?
    ensures i < k && LetIn(acts, i, conn)
    ensures acts[i].operation == ws[k].conns[conn].operation
    ensures Some(ws[i].broker.nextId) == ws[k].conns[conn].id
  {
    hide Do, Enabled, Inv, Entitled;
    var w, a := ws[k - 1], acts[k - 1];
    RunKeeps(ws, acts, k - 1);
    if conn in w.conns {
      SecretStep(w, a, conn, "");
      i := AdmittedWasLetIn(ws, acts, k - 1, conn);
    } else {
      i := k - 1;
      ComesByAdmission(w, a, conn);
      AdmittedExactly(ws, acts, i);
    }
  }

  lemma ComesByAdmission(w: World, a: Action, conn: nat)
    requires Enabled(w, a) && conn !in w.conns && conn in Do(w, a).conns
    ensures a.Admit? && a.conn == conn
  {
  }

  lemma {:induction false} ReplyWasGiven(ws: seq<World>, acts: seq<Action>, k: nat, id: nat) returns (j: nat)
    requires Run(ws, acts) && k < |ws| && id in ws[k].replies
    ensures j < k && acts[j].Respond? && acts[j].id == id && id in ws[j].broker.waiters
    ensures ws[k].replies[id]
            == Reply(ws[j].broker.waiters[id], acts[j].answer,
                     Live(ws[j].broker, ws[j].broker.waiters[id], acts[j].now))
  {
    RunKeeps(ws, acts, k - 1);
    assert Enabled(ws[k - 1], acts[k - 1]);
    if id in ws[k - 1].replies {
      j := ReplyWasGiven(ws, acts, k - 1, id);
    } else {
      j := k - 1;
    }
  }

  /** A connection gets a secret only if it was let in (the right token, a bound process tree it
      belongs to, an operation that lives and is not a background one), and then only the one
      the UI gave for its own request while the operation was registered and unexpired. */
  lemma SecretsAreEarned(ws: seq<World>, acts: seq<Action>, k: nat, conn: nat) returns (i: nat, j: nat)
    requires Run(ws, acts) && k < |ws| && conn in ws[k].conns && Secret(ws[k].conns[conn]).Some?
    ensures i < j < k && LetIn(acts, i, conn)
    ensures Gave(ws[j], acts[j], ws[i].broker.nextId, acts[i].operation, Secret(ws[k].conns[conn]).value)
    ensures CameFrom(ws, acts, k, conn, j)
  {
    RunKeeps(ws, acts, k);
    i := AdmittedWasLetIn(ws, acts, k, conn);
    j := ReplyWasGiven(ws, acts, k, ws[k].conns[conn].id.value);
    RunKeeps(ws, acts, j);
    if j <= i {
      IdsGrow(ws, acts, j, i);
    }
  }

  /** The step gives the secret to the connection: the UI's reply to its request, which is still
      waited for. */
  ghost predicate Gives(w: World, a: Action, conn: nat, secret: string) {
    && conn in w.conns && w.conns[conn].id.Some? && w.conns[conn].stage == Waiting(None)
    && Gave(w, a, w.conns[conn].id.value, w.conns[conn].operation, secret)
  }

  /** What becomes of a connection that has a request out. */
  lemma SecretStep(w: World, a: Action, conn: nat, secret: string)
    requires Inv(w) && Enabled(w, a) && conn in w.conns
    ensures conn in Do(w, a).conns
    ensures Do(w, a).conns[conn].id == w.conns[conn].id && Do(w, a).conns[conn].operation == w.conns[conn].operation
    ensures Secret(Do(w, a).conns[conn]) == Some(secret) <==>
              Secret(w.conns[conn]) == Some(secret) || Gives(w, a, conn, secret)
  {
  }

  lemma {:induction false} ConnStays(ws: seq<World>, acts: seq<Action>, i: nat, k: nat, conn: nat)
    requires Run(ws, acts) && i <= k < |ws| && conn in ws[i].conns
    ensures conn in ws[k].conns && ws[k].conns[conn].id == ws[i].conns[conn].id
    ensures ws[k].conns[conn].operation == ws[i].conns[conn].operation
  {
    hide Do, Enabled, Inv;
    if i < k {
      ConnStays(ws, acts, i, k - 1, conn);
      RunKeeps(ws, acts, k - 1);
      SecretStep(ws[k - 1], acts[k - 1], conn, "");
    }
  }

  /** A connection has a secret exactly if the UI gave it, in time, as the reply to its request. */
  lemma {:induction false} SecretsExactly(ws: seq<World>, acts: seq<Action>, k: nat, conn: nat, secret: string)
    requires Run(ws, acts) && k < |ws| && conn in ws[k].conns
    ensures Secret(ws[k].conns[conn]) == Some(secret) <==> exists j :: 0 <= j < k && Gives(ws[j], acts[j], conn, secret)
  {
    hide Do, Enabled, Inv, Gave;
    var w, a := ws[k - 1], acts[k - 1];
    RunKeeps(ws, acts, k - 1);
    if conn in w.conns {
      SecretsExactly(ws, acts, k - 1, conn, secret);
      SecretStep(w, a, conn, secret);
    } else {
      NewHasNone(w, a, conn);
      forall j | 0 <= j < k ensures conn !in ws[j].conns {
        if conn in ws[j].conns { ConnStays(ws, acts, j, k - 1, conn); }
      }
    }
  }

  lemma NewHasNone(w: World, a: Action, conn: nat)
    requires Enabled(w, a) && conn !in w.conns && conn in Do(w, a).conns
    ensures Secret(Do(w, a).conns[conn]).None?
  {
  }

  /** The connection has stopped listening, or has its answer. */
  predicate Through(was: Stage, now: Stage) {
    match was
    case Waiting(_) => true
    case Leaving => now.Leaving? || now == Ended(None)
    case Ended(_) => now == was
  }

  lemma ThroughStep(w: World, a: Action, conn: nat)
    requires Inv(w) && Enabled(w, a) && conn in w.conns
    ensures conn in Do(w, a).conns && Through(w.conns[conn].stage, Do(w, a).conns[conn].stage)
  {
  }

  lemma {:induction false} StaysThrough(ws: seq<World>, acts: seq<Action>, i: nat, k: nat, conn: nat)
    requires Run(ws, acts) && i <= k < |ws| && conn in ws[i].conns && !ws[i].conns[conn].stage.Waiting?
    ensures conn in ws[k].conns && Through(ws[i].conns[conn].stage, ws[k].conns[conn].stage)
  {
    hide Do, Enabled, Inv;
    if i < k {
      StaysThrough(ws, acts, i, k - 1, conn);
      RunKeeps(ws, acts, k - 1);
      ThroughStep(ws[k - 1], acts[k - 1], conn);
    }
  }

  /** A connection that takes its answer returns that; one that gives up returns nothing, whatever is
      still replied, and once it has taken its request back the request is gone. */
  lemma LeavesForGood(ws: seq<World>, acts: seq<Action>, i: nat, k: nat, conn: nat)
    requires Run(ws, acts) && i < |acts| && i < k < |ws|
    requires acts[i] == Receive(conn) || acts[i] == TimeOut(conn) || acts[i] == Forget(conn)
    ensures conn in ws[i].conns && conn in ws[k].conns
    ensures var was := ws[i].conns[conn];
            var now := ws[k].conns[conn];
            match acts[i]
            case Receive(_) => was.stage.Waiting? && was.stage.box.Some? && now.stage == Ended(was.stage.box.value)
            case TimeOut(_) => now.stage.Leaving? || now.stage == Ended(None)
            case _ => was.id.Some? && now.stage == Ended(None) && was.id.value !in ws[k].broker.waiters
  {
    RunKeeps(ws, acts, i);
    assert Enabled(ws[i], acts[i]) && ws[i + 1] == Do(ws[i], acts[i]);
    StaysThrough(ws, acts, i + 1, k, conn);
    if acts[i].Forget? { StaysAnswered(ws, acts, i + 1, k, ws[i].conns[conn].id.value); }
  }

  lemma {:induction false} IdsGrow(ws: seq<World>, acts: seq<Action>, i: nat, k: nat)
    requires Run(ws, acts) && i <= k < |ws|
    ensures ws[i].broker.nextId <= ws[k].broker.nextId && ws[i].begun <= ws[k].begun
  {
    if i < k {
      IdsGrow(ws, acts, i, k - 1);
      assert Enabled(ws[k - 1], acts[k - 1]);
    }
  }

  lemma {:induction false} StaysAnswered(ws: seq<World>, acts: seq<Action>, i: nat, k: nat, id: nat)
    requires Run(ws, acts) && i <= k < |ws|
    requires id < ws[i].broker.nextId && id !in ws[i].broker.waiters
    ensures id < ws[k].broker.nextId && id !in ws[k].broker.waiters
  {
    if i < k {
      StaysAnswered(ws, acts, i, k - 1, id);
      assert Enabled(ws[k - 1], acts[k - 1]);
    }
  }

  /** Replies and secrets match one to one: what one reply gave reaches one connection, and a
      connection has its secret from one reply. */
  lemma RepliesReachOne(ws: seq<World>, acts: seq<Action>, k: nat, c: nat, d: nat, s: nat, t: nat)
    requires Run(ws, acts) && k < |ws| && CameFrom(ws, acts, k, c, s) && CameFrom(ws, acts, k, d, t)
    ensures c == d <==> s == t
  {
    RunKeeps(ws, acts, k);
    if c == d && s != t {
      var first, last := if s < t then s else t, if s < t then t else s;
      var id := acts[first].id;
      RunKeeps(ws, acts, first);
      assert Enabled(ws[first], acts[first]);
      StaysAnswered(ws, acts, first + 1, last, id);
    }
  }

  /** When `revoke` returns, no request of the operation is out and nobody waits for one, and so
      it stays: in any interleaving with admissions, replies, sweeps and deadlines. */
  lemma RevokedForGood(ws: seq<World>, acts: seq<Action>, i: nat, k: nat)
    requires Run(ws, acts) && i < |acts| && acts[i].Release? && i < k < |ws|
    ensures WaitersOf(ws[k].broker, acts[i].operation) == {}
    ensures forall c :: c in ws[k].conns && ws[k].conns[c].operation == acts[i].operation ==>
              ws[k].conns[c].stage != Waiting(None)
    ensures acts[i].operation !in ws[k].broker.operations
  {
    RunKeeps(ws, acts, k);
    StaysRevoked(ws, acts, i, k);
  }

  lemma {:induction false} StaysRevoked(ws: seq<World>, acts: seq<Action>, i: nat, k: nat)
    requires Run(ws, acts) && i < |acts| && acts[i].Release? && i < k < |ws|
    ensures acts[i].operation !in ws[k].broker.operations && acts[i].operation in ws[k].begun
    ensures forall id :: id in ws[k].broker.waiters ==> ws[k].broker.waiters[id] != acts[i].operation
  {
    assert Enabled(ws[i], acts[i]);
    RunKeeps(ws, acts, i);
    if k > i + 1 {
      StaysRevoked(ws, acts, i, k - 1);
      assert Enabled(ws[k - 1], acts[k - 1]);
    }
  }
}
