/** The connections of the sidecar's listener and their 64 slots
    (src-tauri/companion-net/node.go). */
module Slots {
  import opened Wrappers
  import R = RejectLimiter

  const MAX_CONNS: nat := 64

  // ---------- connSet ----------

  datatype Tracker = Tracker(conns: set<nat>, closed: bool)

  function Added(t: Tracker, conn: nat): Tracker {
    if t.closed then t else t.(conns := t.conns + {conn})
  }

  function Removed(t: Tracker, conn: nat): Tracker {
    t.(conns := t.conns - {conn})
  }

  class ConnSet {
    var conns: set<nat>
    var closed: bool

    function Snapshot(): Tracker
      reads this
    {
      Tracker(conns, closed)
    }

    constructor ()
      ensures Snapshot() == Tracker({}, false)
    {
      conns, closed := {}, false;
    }

    method Add(conn: nat) returns (ok: bool)
      modifies this
      ensures Snapshot() == Added(old(Snapshot()), conn)
      ensures ok == !old(closed)
    {
      if closed {
        return false;
      }
      conns := conns + {conn};
      ok := true;
    }

    method Remove(conn: nat)
      modifies this
      ensures Snapshot() == Removed(old(Snapshot()), conn)
    {
      conns := conns - {conn};
    }

    /** What `closeAll` goes on to close, outside the lock. */
    method CloseAll() returns (left: set<nat>)
      modifies this
      ensures Snapshot() == old(Snapshot()).(closed := true)
      ensures left == old(conns)
    {
      closed := true;
      left := conns;
    }
  }

  // ---------- slotConn ----------

  /** The channel of slots. */
  class SlotPool {
    var used: nat

    constructor ()
      ensures used == 0
    {
      used := 0;
    }

    /** The pump's send, which gives up when the channel is full. */
    method TryTake() returns (ok: bool)
      modifies this
      ensures ok <==> old(used) < MAX_CONNS
      ensures used == old(used) + if ok then 1 else 0
    {
      ok := used < MAX_CONNS;
      if ok {
        used := used + 1;
      }
    }
  }

  class SlotConn {
    const pool: SlotPool
    var returned: bool
    var closed: bool

    constructor (pool: SlotPool)
      ensures this.pool == pool && !returned && !closed
    {
      this.pool, returned, closed := pool, false, false;
    }

    method Close()
      requires !returned ==> pool.used > 0
      modifies this, pool
      ensures returned && closed
      ensures pool.used == old(pool.used) - if old(returned) then 0 else 1
    {
      if !returned {
        pool.used := pool.used - 1;
        returned := true;
      }
      closed := true;
    }
  }

  // ---------- the whole listener ----------

  /** Where a socket is: with the pump, turned away for want of a slot, with WhoIs, waiting to be
      accepted, between the two `Accept`s, with the server, or being closed by `admit` or by the
      tracking listener. */
  datatype Phase = Pumped | Turned | Admitting | Allowed | Out | Tracked | Refused | Dropped

  /** `removed` and `returned` are the two `once`s; `verdict` is history. */
  datatype Conn = Conn(phase: Phase, verdict: Option<R.Verdict>, removed: bool, returned: bool, closed: bool)

  /** One call of `Close`: the set, then the slot, then the socket. */
  datatype Step = Removing | Returning | Shutting | Finished

  datatype Closer = Closer(conn: nat, at: Step)

  /** The server's accept loop. */
  datatype Acceptor = Waiting | Holding(conn: nat) | Dropping(closer: nat) | Ended

  /** How far `service.close` is, after `http.Server.Close`. */
  datatype Stage = Open | Sweeping(left: set<nat>, current: Option<nat>) | Joining | Done

  datatype World = World(
    login: string,
    conns: map<nat, Conn>,
    closers: map<nat, Closer>,
    slots: int,
    tracker: Tracker,
    pump: Option<nat>,
    acceptor: Acceptor,
    cancelled: bool,
    deaf: bool,
    stage: Stage)

  datatype Action =
    | Arrive(conn: nat)
    | TakeSlot
    | Answer(conn: nat, id: nat, who: Option<R.WhoIs>)
    | GiveUp(conn: nat, id: nat)
    | Accept(conn: nat)
    | Track(id: nat)
    | AcceptEnds
    | BeginClose(conn: nat, id: nat)
    | Remove(id: nat)
    | Return(id: nat)
    | Shut(id: nat)
    | Cancel
    | Deafen
    | StartSweep
    | SweepOne(conn: nat, id: nat)
    | SweptOne
    | FinishSweep
    | FinishClose

  predicate In(w: World, conn: nat, phase: Phase) {
    conn in w.conns && w.conns[conn].phase == phase
  }

  predicate Is(w: World, id: nat, at: Step) {
    id in w.closers && w.closers[id].at == at && w.closers[id].conn in w.conns
  }

  /** Receiving from an empty slot channel would block. */
  predicate Enabled(w: World, a: Action) {
    match a
    case Arrive(conn) => conn !in w.conns && w.pump.None? && !w.deaf
    case TakeSlot => w.pump.Some? && w.pump.value in w.conns
    case Answer(conn, id, _) => In(w, conn, Admitting) && id !in w.closers
    case GiveUp(conn, id) => In(w, conn, Allowed) && w.cancelled && id !in w.closers
    case Accept(conn) => In(w, conn, Allowed) && w.acceptor.Waiting?
    case Track(id) => w.acceptor.Holding? && w.acceptor.conn in w.conns && id !in w.closers
    case AcceptEnds => w.acceptor.Waiting? || (w.acceptor.Dropping? && Is(w, w.acceptor.closer, Finished))
    case BeginClose(conn, id) => In(w, conn, Tracked) && id !in w.closers
    case Remove(id) => Is(w, id, Removing)
    case Return(id) => Is(w, id, Returning) && (w.conns[w.closers[id].conn].returned || w.slots > 0)
    case Shut(id) => Is(w, id, Shutting)
    case Cancel => true
    case Deafen => w.cancelled
    case StartSweep => w.stage.Open? && w.deaf && w.cancelled
    case SweepOne(conn, id) =>
      w.stage.Sweeping? && w.stage.current.None? && conn in w.stage.left && id !in w.closers
    case SweptOne => w.stage.Sweeping? && w.stage.current.Some? && Is(w, w.stage.current.value, Finished)
    case FinishSweep => w.stage == Sweeping({}, None)
    case FinishClose => w.stage.Joining? && w.acceptor.Ended?
  }

  function Moved(w: World, conn: nat, phase: Phase): World
    requires conn in w.conns
  {
    w.(conns := w.conns[conn := w.conns[conn].(phase := phase)])
  }

  function Closing(w: World, conn: nat, id: nat, at: Step): World {
    w.(closers := w.closers[id := Closer(conn, at)])
  }

  function Advanced(w: World, id: nat, at: Step): World
    requires id in w.closers
  {
    w.(closers := w.closers[id := w.closers[id].(at := at)])
  }

  function Do(w: World, a: Action): World
    requires Enabled(w, a)
  {
    match a
    case Arrive(conn) =>
      w.(conns := w.conns[conn := Conn(Pumped, None, false, false, false)], pump := Some(conn))
    case TakeSlot =>
      if w.slots < MAX_CONNS then Moved(w, w.pump.value, Admitting).(slots := w.slots + 1, pump := None)
      else
        w.(conns := w.conns[w.pump.value := w.conns[w.pump.value].(phase := Turned, closed := true)], pump := None)
    case Answer(conn, id, who) =>
      if w.cancelled then Closing(Moved(w, conn, Refused), conn, id, Returning)
      else
        var verdict := R.Authorize(who, w.login);
        var told := w.(conns := w.conns[conn := w.conns[conn].(verdict := Some(verdict))]);
        if verdict.Rejected? then Closing(Moved(told, conn, Refused), conn, id, Returning)
        else Moved(told, conn, Allowed)
    case GiveUp(conn, id) => Closing(Moved(w, conn, Refused), conn, id, Returning)
    case Accept(conn) => Moved(w, conn, Out).(acceptor := Holding(conn))
    case Track(id) =>
      var conn := w.acceptor.conn;
      if w.tracker.closed then Closing(Moved(w, conn, Dropped), conn, id, Returning).(acceptor := Dropping(id))
      else Moved(w, conn, Tracked).(tracker := Added(w.tracker, conn), acceptor := Waiting)
    case AcceptEnds => w.(acceptor := Ended)
    case BeginClose(conn, id) => Closing(w, conn, id, Removing)
    case Remove(id) =>
      var conn := w.closers[id].conn;
      var next := Advanced(w, id, Returning);
      if w.conns[conn].removed then next
      else next.(tracker := Removed(w.tracker, conn), conns := w.conns[conn := w.conns[conn].(removed := true)])
    case Return(id) =>
      var conn := w.closers[id].conn;
      var next := Advanced(w, id, Shutting);
      if w.conns[conn].returned then next
      else next.(slots := w.slots - 1, conns := w.conns[conn := w.conns[conn].(returned := true)])
    case Shut(id) =>
      var conn := w.closers[id].conn;
      Advanced(w, id, Finished).(conns := w.conns[conn := w.conns[conn].(closed := true)])
    case Cancel => w.(cancelled := true)
    case Deafen => w.(deaf := true)
    case StartSweep => w.(tracker := w.tracker.(closed := true), stage := Sweeping(w.tracker.conns, None))
    case SweepOne(conn, id) => Closing(w, conn, id, Removing).(stage := w.stage.(current := Some(id)))
    case SweptOne =>
      w.(stage := Sweeping(w.stage.left - {w.closers[w.stage.current.value].conn}, None))
    case FinishSweep => w.(stage := Joining)
    case FinishClose => w.(stage := Done)
  }

  ghost predicate Start(w: World) {
    w == World(w.login, map[], map[], 0, Tracker({}, false), None, Waiting, false, false, Open)
  }

  // ---------- the invariant ----------

  /** A connection with a slot: from the pump's `slots <-` until the one `<- slots`. */
  predicate HasSlot(c: Conn) {
    !c.phase.Pumped? && !c.phase.Turned? && !c.returned
  }

  function Holders(w: World): set<nat> {
    set c | c in w.conns && HasSlot(w.conns[c])
  }

  ghost predicate SlotsMatch(w: World) {
    w.slots == |Holders(w)| && w.slots <= MAX_CONNS
  }

  predicate Early(phase: Phase) {
    phase.Pumped? || phase.Admitting? || phase.Allowed? || phase.Out?
  }

  /** The ones that only a call of `Close` can still take further. */
  predicate Leaving(c: Conn) {
    (c.phase.Tracked? && c.removed) || c.phase.Refused? || c.phase.Dropped?
  }

  predicate WellFormed(c: Conn) {
    && (Early(c.phase) ==> !c.removed && !c.returned && !c.closed)
    && (c.removed ==> c.phase.Tracked?)
    && (c.returned ==> Leaving(c))
    && (c.phase.Turned? ==> c.closed)
    && (c.closed ==> c.phase.Turned? || c.returned)
    && (c.phase.Allowed? || c.phase.Out? || c.phase.Tracked? || c.phase.Dropped? ==>
          c.verdict.Some? && c.verdict.value.Admitted?)
  }

  predicate PhaseOk(w: World, c: nat)
    requires c in w.conns
  {
    && WellFormed(w.conns[c])
    && (w.conns[c].phase.Pumped? ==> w.pump == Some(c))
    && (w.conns[c].phase.Out? ==> w.acceptor == Holding(c))
    && (c in w.tracker.conns <==> w.conns[c].phase.Tracked? && !w.conns[c].removed)
  }

  ghost predicate Phases(w: World) {
    && (forall c :: c in w.conns ==> PhaseOk(w, c))
    && (forall c :: c in w.tracker.conns ==> c in w.conns)
    && (w.pump.Some? ==> In(w, w.pump.value, Pumped))
    && (w.acceptor.Holding? ==> In(w, w.acceptor.conn, Out))
  }

  predicate Sound(c: Conn, at: Step) {
    match at
    case Removing => c.phase.Tracked?
    case Returning => Leaving(c)
    case Shutting => Leaving(c) && c.returned
    case Finished => Leaving(c) && c.returned && c.closed
  }

  ghost predicate Closers(w: World) {
    && (forall id :: id in w.closers ==>
          w.closers[id].conn in w.conns && Sound(w.conns[w.closers[id].conn], w.closers[id].at))
    && (w.acceptor.Dropping? ==> w.acceptor.closer in w.closers)
  }

  predicate AtWork(w: World, id: nat, conn: nat) {
    id in w.closers && w.closers[id].conn == conn && (w.closers[id].at.Returning? || w.closers[id].at.Shutting?)
  }

  ghost predicate Attended(w: World) {
    forall c :: c in w.conns && Leaving(w.conns[c]) && !w.conns[c].closed ==> exists id :: AtWork(w, id, c)
  }

  ghost predicate Swept(w: World) {
    && (w.tracker.closed <==> !w.stage.Open?)
    && (!w.stage.Open? ==> w.cancelled && w.deaf)
    && (w.stage.Sweeping? ==>
          && w.tracker.conns <= w.stage.left
          && (forall c :: c in w.stage.left ==> In(w, c, Tracked))
          && (w.stage.current.Some? ==> w.stage.current.value in w.closers))
    && (w.stage.Joining? || w.stage.Done? ==> w.tracker.conns == {})
    && (w.stage.Done? ==> w.acceptor.Ended?)
  }

  ghost predicate Inv(w: World) {
    SlotsMatch(w) && Phases(w) && Closers(w) && Attended(w) && Swept(w)
  }

  /** The connection a step changes, and the call of `Close`. */
  function Subject(w: World, a: Action): Option<nat> {
    match a
    case Arrive(conn) => Some(conn)
    case TakeSlot => w.pump
    case Answer(conn, _, _) => Some(conn)
    case GiveUp(conn, _) => Some(conn)
    case Accept(conn) => Some(conn)
    case Track(_) => if w.acceptor.Holding? then Some(w.acceptor.conn) else None
    case Remove(id) => if id in w.closers then Some(w.closers[id].conn) else None
    case Return(id) => if id in w.closers then Some(w.closers[id].conn) else None
    case Shut(id) => if id in w.closers then Some(w.closers[id].conn) else None
    case _ => None
  }

  function Call(a: Action): Option<nat> {
    match a
    case Answer(_, id, _) => Some(id)
    case GiveUp(_, id) => Some(id)
    case Track(id) => Some(id)
    case BeginClose(_, id) => Some(id)
    case Remove(id) => Some(id)
    case Return(id) => Some(id)
    case Shut(id) => Some(id)
    case SweepOne(_, id) => Some(id)
    case _ => None
  }

  predicate Admission(a: Action) {
    a.Arrive? || a.TakeSlot? || a.Answer? || a.GiveUp? || a.Accept? || a.Track? || a.AcceptEnds?
  }

  predicate Closure(a: Action) {
    a.BeginClose? || a.Remove? || a.Return? || a.Shut?
  }

  /** A step changes one connection at most, and one call of `Close`. */
  ghost predicate OthersSame(w: World, next: World, conn: Option<nat>, call: Option<nat>) {
    && (forall c :: c in w.conns ==> c in next.conns)
    && (forall c :: c in next.conns && Some(c) != conn ==> c in w.conns && next.conns[c] == w.conns[c])
    && (forall id :: id in w.closers ==> id in next.closers)
    && (forall id :: id in next.closers && Some(id) != call ==> id in w.closers && next.closers[id] == w.closers[id])
    && next.login == w.login
  }

  lemma OthersStay(w: World, a: Action)
    requires Enabled(w, a)
    ensures OthersSame(w, Do(w, a), Subject(w, a), Call(a))
  {
    if Admission(a) { OthersStayIn(w, a); }
  }

  predicate Accepting(a: Action) {
    a.Accept? || a.Track? || a.AcceptEnds?
  }

  lemma OthersStayIn(w: World, a: Action)
    requires Enabled(w, a) && Admission(a)
    ensures OthersSame(w, Do(w, a), Subject(w, a), Call(a))
  {
    if Accepting(a) { OthersStayAccepting(w, a); }
  }

  lemma OthersStayAccepting(w: World, a: Action)
    requires Enabled(w, a) && Accepting(a)
    ensures OthersSame(w, Do(w, a), Subject(w, a), Call(a))
  {
  }

  lemma AdmissionStep(w: World, a: Action)
    requires Phases(w) && Enabled(w, a) && Admission(a) && Subject(w, a).Some?
    ensures var c := Subject(w, a).value; c in Do(w, a).conns && PhaseOk(Do(w, a), c)
  {
    var c := Subject(w, a).value;
    assert c in w.conns ==> PhaseOk(w, c);
    if Accepting(a) { AcceptingStep(w, a); }
  }

  lemma AcceptingStep(w: World, a: Action)
    requires Phases(w) && Enabled(w, a) && Accepting(a) && Subject(w, a).Some?
    ensures var c := Subject(w, a).value; c in Do(w, a).conns && PhaseOk(Do(w, a), c)
  {
    var c := Subject(w, a).value;
    assert PhaseOk(w, c);
  }

  lemma ClosureStep(w: World, a: Action)
    requires Phases(w) && Closers(w) && Enabled(w, a) && Closure(a) && Subject(w, a).Some?
    ensures var c := Subject(w, a).value; c in Do(w, a).conns && PhaseOk(Do(w, a), c)
  {
    var id := Call(a).value;
    assert PhaseOk(w, w.closers[id].conn) && Sound(w.conns[w.closers[id].conn], w.closers[id].at);
  }

  lemma SlotsStep(w: World, a: Action)
    requires SlotsMatch(w) && Phases(w) && Closers(w) && Enabled(w, a)
    ensures SlotsMatch(Do(w, a))
  {
    if a.TakeSlot? && w.slots < MAX_CONNS {
      TakeTakesOne(w, a);
    } else if a.Return? && !w.conns[w.closers[a.id].conn].returned {
      ReturnTakesOne(w, a);
    } else {
      OthersStay(w, a);
      SameHolders(w, a);
      HoldersStay(w, Do(w, a), Subject(w, a), Call(a));
    }
  }

  lemma HoldersStay(w: World, next: World, conn: Option<nat>, call: Option<nat>)
    requires OthersSame(w, next, conn, call)
    requires conn.Some? && conn.value in next.conns ==>
               (HasSlot(next.conns[conn.value]) <==> conn.value in w.conns && HasSlot(w.conns[conn.value]))
    ensures Holders(next) == Holders(w)
  {
  }

  lemma TakeTakesOne(w: World, a: Action)
    requires Phases(w) && Enabled(w, a) && a.TakeSlot? && w.slots < MAX_CONNS
    ensures Do(w, a).slots == w.slots + 1 && |Holders(Do(w, a))| == |Holders(w)| + 1
  {
    var conn := w.pump.value;
    assert PhaseOk(w, conn) && conn !in Holders(w);
    assert Do(w, a).conns == w.conns[conn := w.conns[conn].(phase := Admitting)];
    hide Do, Enabled;
    assert Holders(Do(w, a)) == Holders(w) + {conn};
  }

  lemma ReturnTakesOne(w: World, a: Action)
    requires Closers(w) && Enabled(w, a) && a.Return? && !w.conns[w.closers[a.id].conn].returned
    ensures Do(w, a).slots == w.slots - 1 && |Holders(Do(w, a))| == |Holders(w)| - 1
  {
    var conn := w.closers[a.id].conn;
    assert Sound(w.conns[conn], Returning) && conn in Holders(w);
    assert Do(w, a).conns == w.conns[conn := w.conns[conn].(returned := true)];
    hide Do, Enabled;
    assert Holders(Do(w, a)) == Holders(w) - {conn};
  }

  lemma SameHolders(w: World, a: Action)
    requires Phases(w) && Closers(w) && Enabled(w, a)
    requires a.TakeSlot? ==> w.slots >= MAX_CONNS
    requires a.Return? ==> w.conns[w.closers[a.id].conn].returned
    ensures Do(w, a).slots == w.slots
    ensures Subject(w, a).Some? ==>
              var c := Subject(w, a).value;
              c in Do(w, a).conns && (HasSlot(Do(w, a).conns[c]) <==> c in w.conns && HasSlot(w.conns[c]))
  {
    if Admission(a) { SameHoldersIn(w, a); }
  }

  lemma SameHoldersIn(w: World, a: Action)
    requires Phases(w) && Enabled(w, a) && Admission(a)
    requires a.TakeSlot? ==> w.slots >= MAX_CONNS
    ensures Do(w, a).slots == w.slots
    ensures Subject(w, a).Some? ==>
              var c := Subject(w, a).value;
              c in Do(w, a).conns && (HasSlot(Do(w, a).conns[c]) <==> c in w.conns && HasSlot(w.conns[c]))
  {
    assert Subject(w, a).Some? && Subject(w, a).value in w.conns ==> PhaseOk(w, Subject(w, a).value);
  }

  lemma PhasesStep(w: World, a: Action)
    requires Phases(w) && Closers(w) && Enabled(w, a)
    ensures Phases(Do(w, a))
  {
    var next := Do(w, a);
    OthersStay(w, a);
    forall c | c in next.conns ensures PhaseOk(next, c) {
      if Subject(w, a) == Some(c) {
        if Admission(a) { AdmissionStep(w, a); } else { ClosureStep(w, a); }
      } else {
        OtherPhase(w, a, c);
      }
    }
    if Admission(a) { HandsStep(w, a); } else { HandsStay(w, a); }
  }

  /** Of the rest, what concerns another connection. */
  lemma RestStays(w: World, a: Action, c: nat)
    requires Enabled(w, a) && Subject(w, a) != Some(c)
    ensures c in Do(w, a).tracker.conns <==> c in w.tracker.conns
    ensures w.pump == Some(c) ==> Do(w, a).pump == Some(c)
    ensures w.acceptor == Holding(c) ==> Do(w, a).acceptor == Holding(c)
  {
  }

  lemma OtherPhase(w: World, a: Action, c: nat)
    requires Phases(w) && Enabled(w, a)
    requires c in w.conns && c in Do(w, a).conns && Subject(w, a) != Some(c) && Do(w, a).conns[c] == w.conns[c]
    ensures PhaseOk(Do(w, a), c)
  {
    RestStays(w, a, c);
    hide Do, Enabled, Subject;
    assert PhaseOk(w, c);
  }

  /** What the pump and the accept loop have in hand, and the tracked ones. */
  ghost predicate Hands(w: World) {
    && (forall c :: c in w.tracker.conns ==> c in w.conns)
    && (w.pump.Some? ==> In(w, w.pump.value, Pumped))
    && (w.acceptor.Holding? ==> In(w, w.acceptor.conn, Out))
  }

  lemma HandsStep(w: World, a: Action)
    requires Phases(w) && Enabled(w, a) && Admission(a)
    ensures Hands(Do(w, a))
  {
    assert w.pump.Some? ==> PhaseOk(w, w.pump.value);
  }

  lemma HandsStay(w: World, a: Action)
    requires Phases(w) && Closers(w) && Enabled(w, a) && !Admission(a)
    ensures Hands(Do(w, a))
  {
  }

  lemma ClosersStep(w: World, a: Action)
    requires Phases(w) && Closers(w) && Enabled(w, a) && Swept(w)
    ensures Closers(Do(w, a))
  {
    var next := Do(w, a);
    OthersStay(w, a);
    forall id | id in next.closers
      ensures next.closers[id].conn in next.conns && Sound(next.conns[next.closers[id].conn], next.closers[id].at)
    {
      if Call(a) == Some(id) {
        CallStep(w, a);
      } else {
        OnlyForward(w, a, w.closers[id].conn);
      }
    }
    DroppingKnown(w, a);
  }

  lemma DroppingKnown(w: World, a: Action)
    requires Closers(w) && Enabled(w, a)
    ensures Do(w, a).acceptor.Dropping? ==> Do(w, a).acceptor.closer in Do(w, a).closers
  {
  }

  lemma CallStep(w: World, a: Action)
    requires Phases(w) && Closers(w) && Enabled(w, a) && Swept(w) && Call(a).Some? && Call(a).value in Do(w, a).closers
    ensures var closer := Do(w, a).closers[Call(a).value];
            closer.conn in Do(w, a).conns && Sound(Do(w, a).conns[closer.conn], closer.at)
  {
  }

  /** What a call of `Close` relies on stays so: nothing of a connection is undone. */
  predicate Forward(c: Conn, d: Conn) {
    && (c.phase.Tracked? ==> d.phase.Tracked?) && (Leaving(c) ==> Leaving(d))
    && (c.removed ==> d.removed) && (c.returned ==> d.returned) && (c.closed ==> d.closed)
  }

  lemma OnlyForward(w: World, a: Action, c: nat)
    requires Phases(w) && Enabled(w, a) && c in w.conns
    ensures c in Do(w, a).conns && Forward(w.conns[c], Do(w, a).conns[c])
  {
    assert PhaseOk(w, c);
    if Subject(w, a) != Some(c) {
      OthersStay(w, a);
      hide Do, Enabled, Subject;
    } else if Admission(a) {
      ForwardIn(w, a, c);
    }
  }

  lemma ForwardIn(w: World, a: Action, c: nat)
    requires Phases(w) && Enabled(w, a) && c in w.conns && Admission(a) && Subject(w, a) == Some(c)
    ensures c in Do(w, a).conns && Forward(w.conns[c], Do(w, a).conns[c])
  {
    assert PhaseOk(w, c);
  }

  lemma AttendedStep(w: World, a: Action)
    requires Attended(w) && Phases(w) && Closers(w) && Enabled(w, a)
    ensures Attended(Do(w, a))
  {
    var next := Do(w, a);
    OthersStay(w, a);
    forall c | c in next.conns && Leaving(next.conns[c]) && !next.conns[c].closed
      ensures exists id :: AtWork(next, id, c)
    {
      if c in w.conns && Leaving(w.conns[c]) && !w.conns[c].closed {
        var id :| AtWork(w, id, c);
        StaysAtWork(w, a, id, c);
      } else {
        assert c in w.conns ==> PhaseOk(w, c);
        if Admission(a) { LeavingStarts(w, a, c); } else { RemovalStarts(w, a, c); }
        assert AtWork(next, a.id, c);
      }
    }
  }

  lemma StaysAtWork(w: World, a: Action, id: nat, c: nat)
    requires Enabled(w, a) && AtWork(w, id, c) && c in Do(w, a).conns && !Do(w, a).conns[c].closed
    ensures AtWork(Do(w, a), id, c)
  {
    if Call(a) == Some(id) {
      CallAtWork(w, a, id, c);
    } else {
      OthersStay(w, a);
      hide Do, Enabled;
    }
  }

  lemma CallAtWork(w: World, a: Action, id: nat, c: nat)
    requires Enabled(w, a) && Call(a) == Some(id) && AtWork(w, id, c)
    requires c in Do(w, a).conns && !Do(w, a).conns[c].closed
    ensures AtWork(Do(w, a), id, c)
  {
    assert a.Return? || a.Shut?;
  }

  lemma LeavingStarts(w: World, a: Action, c: nat)
    requires Enabled(w, a) && Admission(a)
    requires c in Do(w, a).conns && Leaving(Do(w, a).conns[c]) && !Do(w, a).conns[c].closed
    requires c in w.conns ==> !Leaving(w.conns[c])
    requires w.acceptor.Holding? && w.acceptor.conn in w.conns ==> !w.conns[w.acceptor.conn].removed
    ensures a.Answer? || a.GiveUp? || a.Track?
    ensures AtWork(Do(w, a), a.id, c)
  {
  }

  lemma RemovalStarts(w: World, a: Action, c: nat)
    requires Enabled(w, a) && !Admission(a)
    requires c in Do(w, a).conns && Leaving(Do(w, a).conns[c]) && !Do(w, a).conns[c].closed
    requires c in w.conns ==> !Leaving(w.conns[c])
    ensures a.Remove? && AtWork(Do(w, a), a.id, c)
  {
  }

  lemma SweptStep(w: World, a: Action)
    requires Inv(w) && Enabled(w, a)
    ensures Swept(Do(w, a))
  {
    if Admission(a) { SweptIn(w, a); }
  }

  lemma SweptIn(w: World, a: Action)
    requires Inv(w) && Enabled(w, a) && Admission(a)
    ensures Swept(Do(w, a))
  {
  }

  lemma InvStep(w: World, a: Action)
    requires Inv(w) && Enabled(w, a)
    ensures Inv(Do(w, a))
  {
    SlotsStep(w, a);
    PhasesStep(w, a);
    ClosersStep(w, a);
    AttendedStep(w, a);
    SweptStep(w, a);
  }

  // ---------- every run ----------

  ghost predicate Path(ws: seq<World>, acts: seq<Action>) {
    && |ws| == |acts| + 1
    && forall k :: 0 <= k < |acts| ==> Enabled(ws[k], acts[k]) && ws[k + 1] == Do(ws[k], acts[k])
  }

  ghost predicate Run(ws: seq<World>, acts: seq<Action>) {
    Path(ws, acts) && Start(ws[0])
  }

  lemma {:induction false} RunKeeps(ws: seq<World>, acts: seq<Action>, k: nat)
    requires Run(ws, acts) && k < |ws|
    ensures Inv(ws[k])
  {
    if k > 0 {
      RunKeeps(ws, acts, k - 1);
      InvStep(ws[k - 1], acts[k - 1]);
    } else {
      assert Holders(ws[0]) == {};
    }
  }

  /** Slots in use are the connections that have not returned theirs, never more than 64, and
      returning one never blocks. */
  lemma SlotsAreConserved(ws: seq<World>, acts: seq<Action>, k: nat)
    requires Run(ws, acts) && k < |ws|
    ensures ws[k].slots == |Holders(ws[k])| && 0 <= ws[k].slots <= MAX_CONNS
    ensures forall id :: Is(ws[k], id, Returning) ==> Enabled(ws[k], Return(id))
  {
    RunKeeps(ws, acts, k);
    var w := ws[k];
    forall id | Is(w, id, Returning) ensures Enabled(w, Return(id)) {
      if !w.conns[w.closers[id].conn].returned {
        assert w.closers[id].conn in Holders(w);
      }
    }
  }

  lemma Admits(w: World, a: Action, conn: nat)
    requires Enabled(w, a) && In(Do(w, a), conn, Allowed)
    ensures In(w, conn, Allowed)
            || (a.Answer? && a.conn == conn && !w.cancelled && R.Authorize(a.who, w.login).Admitted?)
  {
  }

  lemma LoginKept(w: World, a: Action)
    requires Enabled(w, a)
    ensures Do(w, a).login == w.login
  {
  }

  lemma {:induction false} LoginStays(ws: seq<World>, acts: seq<Action>, i: nat, k: nat)
    requires Run(ws, acts) && i <= k < |ws|
    ensures ws[i].login == ws[k].login
  {
    hide Do, Enabled;
    if i < k {
      LoginStays(ws, acts, i, k - 1);
      LoginKept(ws[k - 1], acts[k - 1]);
    }
  }

  /** The pump turns a socket away exactly if 64 others hold a slot. */
  lemma TurnedAwayExactly(ws: seq<World>, acts: seq<Action>, k: nat)
    requires Run(ws, acts) && k < |acts| && acts[k].TakeSlot?
    ensures ws[k].pump.Some? && ws[k].pump.value in ws[k + 1].conns
    ensures var c := ws[k + 1].conns[ws[k].pump.value];
            if |Holders(ws[k])| == MAX_CONNS then c.phase.Turned? && c.closed
            else c.phase.Admitting? && HasSlot(c) && !c.closed
  {
    RunKeeps(ws, acts, k);
    assert PhaseOk(ws[k], ws[k].pump.value) && Enabled(ws[k], acts[k]);
  }

  /** WhoIs lets a socket go on exactly if its node is untagged and of the required login and the
      service is not closing; else a `Close` of it has begun. */
  lemma LetInExactly(ws: seq<World>, acts: seq<Action>, k: nat)
    requires Run(ws, acts) && k < |acts| && acts[k].Answer?
    ensures var a := acts[k];
            && (In(ws[k + 1], a.conn, Allowed) <==>
                  !ws[k].cancelled && a.who.Some? && !a.who.value.tagged && a.who.value.user == Some(ws[k].login))
            && (!In(ws[k + 1], a.conn, Allowed) ==> In(ws[k + 1], a.conn, Refused) && AtWork(ws[k + 1], a.id, a.conn))
  {
    assert Enabled(ws[k], acts[k]) && ws[k + 1] == Do(ws[k], acts[k]);
  }

  /** The accept loop hands a socket to the server exactly if the service has not begun to close its
      connections; else a `Close` of it has begun, and the loop waits for that and ends. */
  lemma TrackedExactly(ws: seq<World>, acts: seq<Action>, k: nat)
    requires Run(ws, acts) && k < |acts| && acts[k].Track?
    ensures var conn := ws[k].acceptor.conn;
            if ws[k].stage.Open?
            then In(ws[k + 1], conn, Tracked) && conn in ws[k + 1].tracker.conns && ws[k + 1].acceptor.Waiting?
            else AtWork(ws[k + 1], acts[k].id, conn) && ws[k + 1].acceptor == Dropping(acts[k].id)
  {
    RunKeeps(ws, acts, k);
    assert Enabled(ws[k], acts[k]) && ws[k + 1] == Do(ws[k], acts[k]);
  }

  /** A call of `Close` for the connection gets to the slot. */
  predicate ReturnOf(w: World, a: Action, conn: nat) {
    a.Return? && a.id in w.closers && w.closers[a.id].conn == conn
  }

  predicate Back(w: World, conn: nat) {
    conn in w.conns && w.conns[conn].returned
  }

  function Returns(ws: seq<World>, acts: seq<Action>, conn: nat, k: nat): nat
    requires k <= |acts| && |ws| == |acts| + 1
  {
    if k == 0 then 0
    else Returns(ws, acts, conn, k - 1) + if ReturnOf(ws[k - 1], acts[k - 1], conn) then 1 else 0
  }

  /** Those of them that make a slot free. */
  function Lowerings(ws: seq<World>, acts: seq<Action>, conn: nat, k: nat): nat
    requires k <= |acts| && |ws| == |acts| + 1
  {
    if k == 0 then 0
    else
      Lowerings(ws, acts, conn, k - 1)
      + if ReturnOf(ws[k - 1], acts[k - 1], conn) && ws[k].slots == ws[k - 1].slots - 1 then 1 else 0
  }

  lemma ReturnLowersOnce(w: World, a: Action, conn: nat)
    requires Enabled(w, a) && ReturnOf(w, a, conn)
    ensures Back(Do(w, a), conn)
    ensures Do(w, a).slots == w.slots - (if Back(w, conn) then 0 else 1)
  {
  }

  lemma OtherStepsReturnNothing(w: World, a: Action, conn: nat)
    requires Enabled(w, a) && !ReturnOf(w, a, conn)
    ensures Back(Do(w, a), conn) <==> Back(w, conn)
  {
    if Subject(w, a) != Some(conn) {
      OthersStay(w, a);
      hide Do, Enabled, Subject;
    }
  }

  /** However many calls of `Close` get to a connection's slot, in whatever order: exactly one of
      them makes it free. */
  lemma {:induction false} ReturnedOnce(ws: seq<World>, acts: seq<Action>, k: nat, conn: nat)
    requires Run(ws, acts) && k < |ws|
    ensures Lowerings(ws, acts, conn, k) == if Returns(ws, acts, conn, k) > 0 then 1 else 0
    ensures Back(ws[k], conn) <==> Returns(ws, acts, conn, k) > 0
  {
    if k > 0 {
      var w, a := ws[k - 1], acts[k - 1];
      assert Enabled(w, a) && ws[k] == Do(w, a);
      hide Do, Enabled;
      ReturnedOnce(ws, acts, k - 1, conn);
      if ReturnOf(w, a, conn) { ReturnLowersOnce(w, a, conn); } else { OtherStepsReturnNothing(w, a, conn); }
    }
  }

  /** What comes out of `Accept` was let in by `authorize`. */
  lemma {:induction false} OnlyTheOwnerIsAccepted(ws: seq<World>, acts: seq<Action>, k: nat, conn: nat) returns (j: nat)
    requires Run(ws, acts) && k < |acts| && acts[k] == Accept(conn)
    ensures j < k && acts[j].Answer? && acts[j].conn == conn && !ws[j].cancelled
    ensures R.Authorize(acts[j].who, ws[k].login).Admitted?
  {
    assert Enabled(ws[k], acts[k]);
    j := AllowedWas(ws, acts, k, conn);
  }

  lemma {:induction false} AllowedWas(ws: seq<World>, acts: seq<Action>, k: nat, conn: nat) returns (j: nat)
    requires Run(ws, acts) && k < |ws| && In(ws[k], conn, Allowed)
    ensures j < k && acts[j].Answer? && acts[j].conn == conn && !ws[j].cancelled
    ensures R.Authorize(acts[j].who, ws[k].login).Admitted?
  {
    assert k > 0;
    assert Enabled(ws[k - 1], acts[k - 1]) && ws[k] == Do(ws[k - 1], acts[k - 1]);
    hide Do, Enabled, Start;
    LoginStays(ws, acts, k - 1, k);
    Admits(ws[k - 1], acts[k - 1], conn);
    if In(ws[k - 1], conn, Allowed) {
      j := AllowedWas(ws, acts, k - 1, conn);
    } else {
      j := k - 1;
    }
  }

  /** Nothing is left to run: no socket with the pump or with WhoIs, no `Close` under way. */
  predicate Idle(w: World) {
    && w.pump.None?
    && (forall c :: c in w.conns ==> !w.conns[c].phase.Admitting? && !w.conns[c].phase.Allowed?)
    && (forall id :: id in w.closers ==> w.closers[id].at.Finished?)
  }

  /** Once `service.close` is done nothing is accepted any more, and every socket is closed, or is
      about to be: by the pump or `admit`, which can only close it now, or by a `Close` under way.
      When those are through, all are closed and every slot is back. */
  lemma ClosedForGood(ws: seq<World>, acts: seq<Action>, k: nat)
    requires Run(ws, acts) && k < |ws| && ws[k].stage.Done?
    ensures forall c :: c in ws[k].conns ==>
              || ws[k].conns[c].closed
              || ws[k].pump == Some(c) || In(ws[k], c, Admitting) || In(ws[k], c, Allowed)
              || exists id :: AtWork(ws[k], id, c)
    ensures forall c :: !Enabled(ws[k], Accept(c)) && !Enabled(ws[k], Arrive(c))
    ensures forall c, id, who :: Enabled(ws[k], Answer(c, id, who)) ==> In(Do(ws[k], Answer(c, id, who)), c, Refused)
    ensures Idle(ws[k]) ==> (forall c :: c in ws[k].conns ==> ws[k].conns[c].closed) && ws[k].slots == 0
  {
    RunKeeps(ws, acts, k);
    var w := ws[k];
    forall c | c in w.conns ensures WellFormed(w.conns[c]) && (w.conns[c].phase.Tracked? ==> w.conns[c].removed) {
      assert PhaseOk(w, c);
    }
    if Idle(w) {
      forall c | c in w.conns ensures w.conns[c].closed && !HasSlot(w.conns[c]) {
        assert forall id :: !AtWork(w, id, c);
      }
      assert Holders(w) == {};
    }
  }

  // ---------- a service that serves one connection and closes ----------

  function Alone(login: string, c: Conn): World {
    World(login, map[0 := c], map[], 1, Tracker({}, false), None, Waiting, false, false, Open)
  }

  lemma ComesIn(login: string, name: string, w0: World, w1: World, w2: World, w3: World)
    requires Start(w0) && w0.login == login
    requires w1 == w0.(conns := map[0 := Conn(Pumped, None, false, false, false)], pump := Some(0))
    requires w2 == Alone(login, Conn(Admitting, None, false, false, false))
    requires w3 == Alone(login, Conn(Allowed, Some(R.Admitted(name)), false, false, false))
    ensures Run([w0, w1, w2, w3], [Arrive(0), TakeSlot, Answer(0, 0, Some(R.WhoIs(name, false, Some(login))))])
  {
  }

  lemma IsServed(login: string, w3: World, w4: World, w5: World)
    requires w3.conns.Keys == {0} && w3 == Alone(login, w3.conns[0]) && w3.conns[0].phase.Allowed?
    requires w4 == Alone(login, w3.conns[0].(phase := Out)).(acceptor := Holding(0))
    requires w5 == Alone(login, w3.conns[0].(phase := Tracked)).(tracker := Tracker({0}, false))
    ensures Path([w3, w4, w5], [Accept(0), Track(0)])
  {
  }

  lemma BeginsToClose(w5: World, w6: World, w7: World, w8: World, w9: World)
    requires w5.conns.Keys == {0} && w5.conns[0].phase.Tracked? && w5.closers == map[]
    requires w5.tracker == Tracker({0}, false) && w5.acceptor.Waiting? && w5.stage.Open?
    requires w6 == w5.(cancelled := true) && w7 == w6.(deaf := true)
    requires w8 == w7.(tracker := Tracker({0}, true), stage := Sweeping({0}, None))
    requires w9 == w8.(closers := map[0 := Closer(0, Removing)], stage := Sweeping({0}, Some(0)))
    ensures Path([w5, w6, w7, w8, w9], [Cancel, Deafen, StartSweep, SweepOne(0, 0)])
  {
  }

  lemma IsRemoved(w9: World, w10: World)
    requires w9.conns.Keys == {0} && !w9.conns[0].removed
    requires w9.closers == map[0 := Closer(0, Removing)] && w9.tracker == Tracker({0}, true)
    requires w10 == w9.(closers := map[0 := Closer(0, Returning)], conns := map[0 := w9.conns[0].(removed := true)],
                        tracker := Tracker({}, true))
    ensures Enabled(w9, Remove(0)) && Do(w9, Remove(0)) == w10
  {
    assert {0} - {0} == {};
  }

  lemma IsReturned(w10: World, w11: World)
    requires w10.conns.Keys == {0} && !w10.conns[0].returned && w10.slots == 1
    requires w10.closers == map[0 := Closer(0, Returning)]
    requires w11 == w10.(closers := map[0 := Closer(0, Shutting)], slots := 0,
                         conns := map[0 := w10.conns[0].(returned := true)])
    ensures Enabled(w10, Return(0)) && Do(w10, Return(0)) == w11
  {
  }

  lemma IsShut(w11: World, w12: World)
    requires w11.conns.Keys == {0} && w11.closers == map[0 := Closer(0, Shutting)]
    requires w12 == w11.(closers := map[0 := Closer(0, Finished)],
                         conns := map[0 := w11.conns[0].(closed := true)])
    ensures Enabled(w11, Shut(0)) && Do(w11, Shut(0)) == w12
  {
  }

  lemma IsClosed(w9: World, w10: World, w11: World, w12: World)
    requires Enabled(w9, Remove(0)) && Do(w9, Remove(0)) == w10
    requires Enabled(w10, Return(0)) && Do(w10, Return(0)) == w11
    requires Enabled(w11, Shut(0)) && Do(w11, Shut(0)) == w12
    ensures Path([w9, w10, w11, w12], [Remove(0), Return(0), Shut(0)])
  {
    hide Do, Enabled;
  }

  lemma IsSwept(w12: World, w13: World, w14: World)
    requires 0 in w12.conns && w12.closers == map[0 := Closer(0, Finished)] && w12.stage == Sweeping({0}, Some(0))
    requires w13 == w12.(stage := Sweeping({}, None)) && w14 == w13.(stage := Joining)
    ensures Path([w12, w13, w14], [SweptOne, FinishSweep])
  {
    assert {0} - {0} == {};
  }

  lemma IsDone(w14: World, w15: World, w16: World)
    requires w14.stage.Joining? && w14.acceptor.Waiting?
    requires w15 == w14.(acceptor := Ended) && w16 == w15.(stage := Done)
    ensures Path([w14, w15, w16], [AcceptEnds, FinishClose])
  {
  }

  lemma Joined(before: seq<World>, first: seq<Action>, after: seq<World>, second: seq<Action>)
    requires Path(before, first) && Path(after, second) && before[|first|] == after[0]
    ensures Path(before + after[1..], first + second)
  {
    hide Do, Enabled;
    var ws, acts := before + after[1..], first + second;
    forall k | 0 <= k < |acts|
      ensures Enabled(ws[k], acts[k]) && ws[k + 1] == Do(ws[k], acts[k])
    {
      if k >= |first| {
        assert ws[k] == after[k - |first|] && ws[k + 1] == after[k + 1 - |first|];
      }
    }
  }

  /** A run goes on. */
  lemma Goes(ws: seq<World>, acts: seq<Action>, after: seq<World>, second: seq<Action>) returns (longer: seq<World>)
    requires Run(ws, acts) && Path(after, second) && ws[|acts|] == after[0]
    ensures Run(longer, acts + second) && |longer| == |ws| + |second| && longer[..|ws|] == ws
    ensures longer[|longer| - 1] == after[|second|]
  {
    Joined(ws, acts, after, second);
    longer := ws + after[1..];
  }

  /** Until the service closes. */
  lemma ServeRun(login: string, name: string) returns (ws: seq<World>, acts: seq<Action>, w: World)
    ensures Run(ws, acts) && |acts| == 5 && acts[3] == Accept(0) && ws[5] == w
    ensures w == Alone(login, Conn(Tracked, Some(R.Admitted(name)), false, false, false))
                   .(tracker := Tracker({0}, false))
  {
    var c := Conn(Allowed, Some(R.Admitted(name)), false, false, false);
    var w0 := World(login, map[], map[], 0, Tracker({}, false), None, Waiting, false, false, Open);
    var w1 := w0.(conns := map[0 := Conn(Pumped, None, false, false, false)], pump := Some(0));
    var w2 := Alone(login, Conn(Admitting, None, false, false, false));
    var w3 := Alone(login, c);
    var w4 := Alone(login, c.(phase := Out)).(acceptor := Holding(0));
    w := Alone(login, c.(phase := Tracked)).(tracker := Tracker({0}, false));
    ComesIn(login, name, w0, w1, w2, w3);
    IsServed(login, w3, w4, w);
    hide Do, Enabled, Start, Path;
    acts := [Arrive(0), TakeSlot, Answer(0, 0, Some(R.WhoIs(name, false, Some(login))))];
    ws := Goes([w0, w1, w2, w3], acts, [w3, w4, w], [Accept(0), Track(0)]);
    acts := acts + [Accept(0), Track(0)];
  }

  /** From there to the end. */
  lemma CloseSteps(w5: World) returns (ws: seq<World>, acts: seq<Action>)
    requires w5.conns.Keys == {0} && w5.conns[0].phase.Tracked? && !w5.conns[0].removed && !w5.conns[0].returned
    requires w5.closers == map[] && w5.tracker == Tracker({0}, false) && w5.slots == 1
    requires w5.acceptor.Waiting? && w5.stage.Open?
    ensures Path(ws, acts) && |acts| == 11 && ws[0] == w5
    ensures ws[11].stage.Done? && ws[11].slots == 0 && 0 in ws[11].conns && ws[11].conns[0].closed
  {
    var w6 := w5.(cancelled := true);
    var w7 := w6.(deaf := true);
    var w8 := w7.(tracker := Tracker({0}, true), stage := Sweeping({0}, None));
    var w9 := w8.(closers := map[0 := Closer(0, Removing)], stage := Sweeping({0}, Some(0)));
    var w10 := w9.(closers := map[0 := Closer(0, Returning)], conns := map[0 := w9.conns[0].(removed := true)],
                   tracker := Tracker({}, true));
    var w11 := w10.(closers := map[0 := Closer(0, Shutting)], slots := 0,
                    conns := map[0 := w10.conns[0].(returned := true)]);
    var w12 := w11.(closers := map[0 := Closer(0, Finished)], conns := map[0 := w11.conns[0].(closed := true)]);
    var w13 := w12.(stage := Sweeping({}, None));
    var w14 := w13.(stage := Joining);
    var w15 := w14.(acceptor := Ended);
    var w16 := w15.(stage := Done);
    BeginsToClose(w5, w6, w7, w8, w9);
    IsRemoved(w9, w10);
    IsReturned(w10, w11);
    IsShut(w11, w12);
    IsClosed(w9, w10, w11, w12);
    IsSwept(w12, w13, w14);
    IsDone(w14, w15, w16);
    hide Do, Enabled, Path;
    var first := [Cancel, Deafen, StartSweep, SweepOne(0, 0)];
    Joined([w5, w6, w7, w8, w9], first, [w9, w10, w11, w12], [Remove(0), Return(0), Shut(0)]);
    Joined([w12, w13, w14], [SweptOne, FinishSweep], [w14, w15, w16], [AcceptEnds, FinishClose]);
    var before := [w5, w6, w7, w8, w9] + [w9, w10, w11, w12][1..];
    var after := [w12, w13, w14] + [w14, w15, w16][1..];
    first := first + [Remove(0), Return(0), Shut(0)];
    var second := [SweptOne, FinishSweep] + [AcceptEnds, FinishClose];
    Joined(before, first, after, second);
    ws, acts := before + after[1..], first + second;
    assert ws[11] == w16;
  }

  /** Such a close comes to its end: a run in which a connection is let in and served, the service
      closes, and the connection is closed and its slot back. */
  lemma CloseRun(login: string, name: string) returns (ws: seq<World>, acts: seq<Action>)
    ensures Run(ws, acts) && |acts| == 16 && acts[3] == Accept(0)
    ensures ws[5].slots == 1 && In(ws[5], 0, Tracked)
    ensures ws[16].stage.Done? && ws[16].slots == 0 && 0 in ws[16].conns && ws[16].conns[0].closed
  {
    var before, first, w := ServeRun(login, name);
    var after, second := CloseSteps(w);
    hide Do, Enabled, Path, Start;
    ws := Goes(before, first, after, second);
    acts := first + second;
    assert before[5] == ws[..|before|][5];
  }
}
