/** The gateway supervisor over whole runs (src-tauri/src/companion_service.rs): event
    readers of old and new processes, the admin command queue, starts, stops, deadlines and
    exits interleave. Each action is one critical section, or one disk write made while the
    store lock is held. */
module GatewayRuns {
  import opened Wrappers
  import opened Devices
  import opened Gateway
  import P = PushStore

  datatype Phase =
    | Checked
    | Peeked(frame: Option<Frame>)
    | Written(saved: Result<()>, frame: Option<Frame>)

  /** The event being handled. It holds the store lock until it is applied. */
  datatype Flight = NoFlight | Flight(gen: nat, event: Event, phase: Phase)

  /** A start between its decision and its installation. `list` is the device list it read.
      The rest is history: a stop landed since; an event of an older process was about to
      change the list when it was read; or was about to report an expiry when it began. */
  datatype Launch =
    | NoLaunch
    | Launch(expected: nat, list: Option<seq<Device>>, stopped: bool, racing: bool, late: bool)

  /** The caller whose turn it is in the command queue. */
  datatype Turn =
    | Free
    | Waiting(id: nat, want: Want, gen: nat, got: Option<Result<Event>>)
    | Elapsed(id: nat, want: Want, gen: nat)

  /** A delivery of push messages under way: the event of `gen` asked for it, and the push services
      have still to answer for what is `left`. */
  datatype Target = Target(device: string, sent: P.Subscription)
  datatype Delivery = Delivery(gen: nat, left: set<Target>)

  datatype Push = Push(book: P.Book, jobs: map<nat, Delivery>, next: nat)

  /** `installed` and `timedOut` are history: the generations that ran, and those in which a
      command timed out. `answers` holds what each caller was told. */
  datatype Machine = Machine(
    inner: Inner,
    memory: Option<seq<Device>>,
    disk: seq<Device>,
    push: Push,
    flight: Flight,
    launch: Launch,
    turn: Turn,
    asked: nat,
    answers: map<nat, Result<Event>>,
    installed: set<nat>,
    timedOut: set<nat>)

  /** `stored` says whether the write of push.json that may come with it works. */
  datatype Action =
    | Begin
    | LoadList
    | RefuseStart(why: string)
    | InstallStart(port: Option<nat>)
    | Watch(gen: nat)
    | Check(gen: nat, event: Event)
    | Peek
    | Write(outcome: WriteOutcome)
    | Apply(stored: bool)
    | Exit(gen: nat)
    | Stop
    | FailNow(why: string)
    | Clear
    | Ask(want: Want)
    | Elapse
    | GiveUp
    | Collect
    | EditStopped(frame: Frame, outcome: WriteOutcome, stored: bool)
    | PushAnswer(job: nat, target: Target, gone: bool, stored: bool)
    | Rekey(stored: bool)

  /** What an action leaves for others to do: a kill to be sent once the node is quiet, a
      shutdown likewise (an expiry), the cleanup after an exit nobody asked for; and whether
      a process was told to shut down. */
  datatype Outcome = Outcome(machine: Machine, kill: bool, expiring: bool, cleanup: bool, told: bool)

  function Quietly(m: Machine): Outcome {
    Outcome(m, false, false, false, false)
  }

  predicate ChangesDevices(event: Event) {
    event.Registered? || event.Updated? || event.Revoked?
  }

  /** The list the event in hand is about to write. */
  function Intended(m: Machine): Result<seq<Device>>
    requires m.flight.Flight?
  {
    if m.memory.None? then Err("companion-device-invalid")
    else if m.flight.phase.Peeked? && m.flight.phase.frame.Some? then
      Applied(m.memory.value, m.flight.phase.frame.value)
    else
      match m.flight.event
      case Registered(device) => Upserted(m.memory.value, device)
      case Updated(device) => Upserted(m.memory.value, device)
      case Revoked(Some(id)) => Ok(Without(m.memory.value, id))
      case _ => Err("companion-device-invalid")
  }

  predicate Writing(m: Machine) {
    && m.flight.Flight?
    && ((m.flight.phase.Checked? && ChangesDevices(m.flight.event))
        || (m.flight.phase.Peeked? && m.flight.phase.frame.Some?))
  }

  /** The event in hand has still to write a list that differs from the file. */
  predicate AboutToChange(m: Machine) {
    Writing(m) && Intended(m).Ok? && Intended(m).value != m.disk
  }

  predicate AboutToExpire(m: Machine) {
    m.flight.Flight? && m.flight.phase.Checked? && m.flight.event == Problem("policy-expired")
  }

  predicate Applicable(m: Machine) {
    && m.flight.Flight?
    && (match m.flight.phase
        case Checked => !ChangesDevices(m.flight.event) && !m.flight.event.Deferred?
        case Peeked(frame) => frame.None?
        case Written(_, _) => true)
  }

  predicate Enabled(m: Machine, a: Action) {
    match a
    case Begin => m.launch.NoLaunch? && MayStart(m.inner)
    case LoadList => m.launch.Launch? && m.launch.list.None?
    case RefuseStart(_) => m.launch.Launch?
    case InstallStart(_) => m.launch.Launch? && m.launch.list.Some? && m.flight.NoFlight?
    case Watch(gen) => gen in m.installed
    case Check(gen, _) => gen in m.installed && m.flight.NoFlight?
    case Peek => m.flight.Flight? && m.flight.phase.Checked? && m.flight.event.Deferred?
    case Write(_) => Writing(m)
    case Apply(_) => Applicable(m)
    case Exit(gen) => gen in m.installed
    case Ask(_) => m.turn.Free?
    case Elapse => m.turn.Waiting? && m.turn.got.None?
    case GiveUp => m.turn.Elapsed?
    case Collect => m.turn.Waiting? && m.turn.got.Some?
    case EditStopped(_, _, _) => m.flight.NoFlight? && Idle(m.inner)
    case PushAnswer(job, target, _, _) => job in m.push.jobs && target in m.push.jobs[job].left
    case Rekey(_) => m.inner.process.None?
    case _ => true
  }

  /** A reply reaches its caller unless the caller has already given up on it. */
  function Delivered(turn: Turn, reply: Option<Reply>): Turn {
    if reply.Some? && turn.Waiting? && turn.id == reply.value.id && turn.got.None? then
      turn.(got := Some(reply.value.answer))
    else turn
  }

  function After(m: Machine, e: Effect): Machine {
    m.(inner := e.inner, turn := Delivered(m.turn, e.reply))
  }

  function Landed(m: Machine, e: Effect): Outcome {
    Outcome(After(m, e).(flight := NoFlight), e.kill, false, false, false)
  }

  function DoWrite(m: Machine, outcome: WriteOutcome): Machine
    requires Writing(m)
  {
    var frame := if m.flight.phase.Peeked? then m.flight.phase.frame else None;
    match Intended(m)
    case Err(code) => m.(flight := m.flight.(phase := Written(Err(code), frame)))
    case Ok(list) =>
      match outcome
      case Saved => m.(memory := Some(list), disk := list, flight := m.flight.(phase := Written(Ok(()), frame)))
      case FailedOld(why) => m.(flight := m.flight.(phase := Written(Err(why), frame)))
      case FailedNew(why) => m.(disk := list, flight := m.flight.(phase := Written(Err(why), frame)))
  }

  /** Only a command of the kind this path is for is answered. */
  function ResolvedIf(i: Inner, allowed: bool, event: Event): Effect {
    if allowed then Resolved(i, event) else Effect(i, false, None)
  }

  predicate Awaits(i: Inner, decision: bool) {
    i.pending.Some? && (if decision then i.pending.value.want.Decision? else i.pending.value.want.Change?)
  }

  predicate Knows(m: Machine, device: string) {
    m.memory.Some? && Lookup(m.memory.value, device).Some?
  }

  /** What a request for these devices is sent to. */
  function Targets(book: P.Book, devices: set<string>): set<Target> {
    set d, s | d in devices && d in book && s in book[d] :: Target(d, s)
  }

  /** The subscriptions and deliveries once the event in hand is handled. */
  function Pushed(m: Machine, stored: bool): Push
    requires m.flight.Flight?
  {
    var push := m.push;
    match m.flight.event
    case Revoked(Some(id)) =>
      if stored && m.flight.phase.Written? && m.flight.phase.saved.Ok? && m.flight.phase.frame.None?
      then push.(book := push.book - {id}) else push
    case PushSubscribed(device, reported, valid) =>
      if stored && valid && Knows(m, device) then push.(book := P.Subscribed(push.book, device, reported)) else push
    case PushDropped(device, endpoint) =>
      if stored && Knows(m, device) then push.(book := P.Pruned(push.book, device, P.At(endpoint))) else push
    case PushAsked(devices, granted) =>
      var targets := Targets(push.book, devices);
      if granted && targets != {}
      then push.(jobs := push.jobs[push.next := Delivery(m.flight.gen, targets)], next := push.next + 1) else push
    case _ => push
  }

  function DoApply(m: Machine, stored: bool): Outcome
    requires Applicable(m)
  {
    var o := Handled(m);
    o.(machine := o.machine.(push := Pushed(m, stored)))
  }

  /** A push service has answered; `gone` deletes the subscription the message was sent to. */
  function DoAnswer(m: Machine, job: nat, target: Target, gone: bool, stored: bool): Machine
    requires job in m.push.jobs
  {
    var left := m.push.jobs[job].(left := m.push.jobs[job].left - {target});
    m.(push := m.push.(jobs := m.push.jobs[job := left],
                       book := if gone && stored then P.Pruned(m.push.book, target.device, P.SameKeys(target.sent))
                               else m.push.book))
  }

  /** What the event in hand does to the locked state. */
  function Effected(m: Machine): Effect
    requires Applicable(m)
  {
    match m.flight.phase
    case Peeked(_) => ResolvedIf(m.inner, Awaits(m.inner, true), m.flight.event)
    case Written(Err(code), _) => Halted(m.inner, code)
    case Written(Ok(_), _) => ResolvedIf(m.inner, Awaits(m.inner, false), m.flight.event)
    case Checked =>
      match m.flight.event
      case Ready(port) => OnReady(m.inner, port)
      case Problem(code) => OnProblem(m.inner, code)
      case _ => Resolved(m.inner, m.flight.event)
  }

  /** What the event in hand does to all but the subscriptions. */
  function Handled(m: Machine): Outcome
    requires Applicable(m)
  {
    Landed(m, Effected(m)).(expiring := AboutToExpire(m))
  }

  function DoAsk(m: Machine, want: Want): Machine {
    if MayAsk(m.inner) then
      m.(inner := m.inner.(pending := Some(Pending(m.asked, want))), asked := m.asked + 1,
         turn := Waiting(m.asked, want, m.inner.generation, None))
    else m.(asked := m.asked + 1, answers := m.answers[m.asked := Err("companion-not-running")])
  }

  function DoEdit(m: Machine, frame: Frame, outcome: WriteOutcome, stored: bool): Machine {
    if !Applied(m.disk, frame).Ok? || outcome.FailedOld? then m
    else
      m.(disk := Applied(m.disk, frame).value,
         push := if frame.Revoke? && outcome.Saved? && stored then m.push.(book := m.push.book - {frame.id})
                 else m.push)
  }

  function Do(m: Machine, a: Action): Outcome
    requires Enabled(m, a)
  {
    match a
    case Begin =>
      Quietly(m.(inner := Begun(m.inner),
                 launch := Launch(m.inner.generation, None, false, false, AboutToExpire(m))))
    case LoadList =>
      Quietly(m.(launch := m.launch.(list := Some(m.disk), racing := AboutToChange(m))))
    case RefuseStart(why) =>
      Quietly(m.(inner := Refused(m.inner, m.launch.expected, why), launch := NoLaunch))
    case InstallStart(port) =>
      if MayInstall(m.inner, m.launch.expected) then
        Quietly(m.(inner := Installed(m.inner, port), memory := m.launch.list, launch := NoLaunch,
                   installed := m.installed + {m.inner.generation + 1}))
      else Quietly(m.(launch := NoLaunch))
    case Watch(gen) =>
      var e := Overdue(m.inner, gen);
      Outcome(After(m, e), e.kill, false, false, false)
    case Check(gen, event) =>
      Quietly(if Heeded(m.inner, gen) then m.(flight := Flight(gen, event, Checked)) else m)
    case Peek =>
      var p := m.inner.pending;
      var frame :=
        if p.Some? && p.value.want.Change? && p.value.want.frame.id == m.flight.event.target
           && KindOf(p.value.want.frame) == m.flight.event.kind
        then Some(p.value.want.frame) else None;
      Quietly(m.(flight := m.flight.(phase := Peeked(frame))))
    case Write(outcome) => Quietly(DoWrite(m, outcome))
    case Apply(stored) => DoApply(m, stored)
    case Exit(gen) =>
      if m.inner.generation != gen then Quietly(m)
      else Outcome(After(m, Exited(m.inner)), false, false, Unrequested(m.inner), false)
    case Stop =>
      Outcome(m.(inner := Gateway.Stopped(m.inner),
                 launch := if m.launch.Launch? then m.launch.(stopped := true) else NoLaunch),
              false, false, false, m.inner.process.Some?)
    case FailNow(why) =>
      var e := FailedFromOutside(m.inner, why);
      Outcome(After(m, e), e.kill, false, false, false)
    case Clear => Quietly(m.(inner := Cleared(m.inner)))
    case Ask(want) => Quietly(DoAsk(m, want))
    case Elapse => Quietly(m.(turn := Elapsed(m.turn.id, m.turn.want, m.turn.gen)))
    case GiveUp =>
      var e := GivenUp(m.inner, m.turn.gen);
      Outcome(m.(inner := e.inner, turn := Free, timedOut := m.timedOut + {m.turn.gen},
                 answers := m.answers[m.turn.id := Err("companion-timeout")]),
              e.kill, false, false, false)
    case Collect =>
      Quietly(m.(turn := Free, answers := m.answers[m.turn.id := m.turn.got.value]))
    case EditStopped(frame, outcome, stored) => Quietly(DoEdit(m, frame, outcome, stored))
    case PushAnswer(job, target, gone, stored) => Quietly(DoAnswer(m, job, target, gone, stored))
    case Rekey(stored) => Quietly(if stored then m.(push := m.push.(book := map[])) else m)
  }

  // ---------- the invariant ----------

  ghost predicate Start(m: Machine) {
    && m.inner == INITIAL && m.memory.None? && UniqueIds(m.disk)
    && m.flight.NoFlight? && m.launch.NoLaunch? && m.turn.Free?
    && m.asked == 0 && m.answers == map[] && m.installed == {} && m.timedOut == {}
    && m.push.jobs == map[]
  }

  /** `Running` means an installed process that said it is ready and that nobody ended. */
  ghost predicate RunningIsReady(m: Machine) {
    && (m.inner.status.Running? ==> m.inner.process.Some? && m.inner.ready && m.inner.terminal.None?)
    && (m.inner.terminal.Some? ==> m.inner.terminal.value.Disabled? || m.inner.terminal.value.Failed?)
  }

  /** The pending command is the one whose caller has the turn, asked of this process, which has
      not been halted since. */
  ghost predicate PendingIsTurn(m: Machine) {
    m.inner.pending.Some? ==>
      && m.inner.process.Some?
      && (m.inner.terminal.Some? ==> m.inner.terminal.value.Disabled?)
      && (m.turn.Elapsed? || (m.turn.Waiting? && m.turn.got.None?))
      && m.turn.id == m.inner.pending.value.id
      && m.turn.want == m.inner.pending.value.want
      && m.turn.gen == m.inner.generation
  }

  ghost predicate Generations(m: Machine) {
    && (forall g :: g in m.installed ==> g <= m.inner.generation)
    && (m.inner.process.Some? <==> m.inner.generation in m.installed)
    && (m.flight.Flight? ==> m.flight.gen in m.installed)
    && (m.inner.process.Some? ==> m.memory.Some?)
    && (m.flight.Flight? && m.inner.process.Some? ==> m.flight.gen == m.inner.generation)
    && (m.launch.Launch? ==> m.inner.process.None? && m.launch.expected <= m.inner.generation)
    && (m.launch.Launch? && m.launch.stopped ==> m.launch.expected < m.inner.generation)
    && (!m.turn.Free? ==> m.turn.gen in m.installed)
  }

  /** A generation in which a command timed out is done: it never runs again. */
  ghost predicate Sealed(m: Machine) {
    && m.timedOut <= m.installed
    && (m.inner.process.Some? && m.inner.generation in m.timedOut ==> m.inner.terminal.Some?)
    && (!m.turn.Free? ==> m.turn.gen !in m.timedOut)
  }

  /** Every caller is either the one whose turn it is or has its one outcome. */
  ghost predicate OneOutcome(m: Machine) {
    && (!m.turn.Free? ==> m.turn.id < m.asked)
    && forall id: nat :: id in m.answers <==> id < m.asked && !(!m.turn.Free? && m.turn.id == id)
  }

  ghost predicate Lists(m: Machine) {
    && UniqueIds(m.disk)
    && (m.memory.Some? ==> UniqueIds(m.memory.value))
    && (m.launch.Launch? && m.launch.list.Some? ==> UniqueIds(m.launch.list.value))
  }

  /** What an event that was saved has put on disk. */
  ghost predicate OnDisk(m: Machine) {
    m.flight.Flight? && m.flight.phase.Written? && m.flight.phase.saved.Ok? ==>
      && m.memory == Some(m.disk)
      && (match m.flight.phase.frame
          case Some(frame) => Achieved(frame, m.disk)
          case None =>
            match m.flight.event
            case Registered(device) => Lookup(m.disk, device.id) == Some(device)
            case Updated(device) => Lookup(m.disk, device.id) == Some(device)
            case Revoked(Some(id)) => Lookup(m.disk, id) == None
            case _ => false)
  }

  /** A deferral being saved is the pending command's, and nothing is asked meanwhile. */
  ghost predicate DeferralIsPending(m: Machine) {
    m.flight.Flight? && !m.flight.phase.Checked? && m.flight.phase.frame.Some? ==>
      && m.flight.event.Deferred?
      && m.flight.phase.frame.value.id == m.flight.event.target
      && if m.inner.pending.Some? then m.inner.pending.value.want == Change(m.flight.phase.frame.value)
         else !m.inner.status.Running?
  }

  ghost predicate FlightShape(m: Machine) {
    m.flight.Flight? ==>
      match m.flight.phase
      case Checked => true
      case Peeked(_) => m.flight.event.Deferred?
      case Written(_, frame) => (frame.None? ==> ChangesDevices(m.flight.event))
  }

  /** A start that read the list with no older write to come has read the file as it stays. */
  ghost predicate FreshList(m: Machine) {
    m.launch.Launch? && m.launch.list.Some? && !m.launch.racing ==>
      && !AboutToChange(m)
      && (m.inner.status.Starting? ==> m.launch.list == Some(m.disk))
  }

  ghost predicate FreshPolicy(m: Machine) {
    m.launch.Launch? && !m.launch.late ==> !m.inner.expired && !AboutToExpire(m)
  }

  ghost predicate Inv(m: Machine) {
    && RunningIsReady(m) && PendingIsTurn(m) && Generations(m) && Sealed(m) && OneOutcome(m)
    && Lists(m) && OnDisk(m) && DeferralIsPending(m) && FlightShape(m)
    && FreshList(m) && FreshPolicy(m)
  }

  lemma InvStart(m: Machine)
    requires Start(m)
    ensures Inv(m)
  {
  }

  lemma IntendedMeans(m: Machine)
    requires Writing(m) && Intended(m).Ok? && m.memory.Some? && UniqueIds(m.memory.value)
    ensures UniqueIds(Intended(m).value)
    ensures OnDisk(DoWrite(m, Saved))
  {
    if m.flight.phase.Peeked? {
      ApplyAchieves(m.memory.value, m.flight.phase.frame.value);
    } else {
      match m.flight.event {
        case Registered(device) => UpsertMeans(m.memory.value, device);
        case Updated(device) => UpsertMeans(m.memory.value, device);
        case Revoked(Some(id)) => WithoutMeans(m.memory.value, id);
      }
    }
  }

  lemma StartsKeep(m: Machine, a: Action)
    requires Inv(m) && Enabled(m, a)
    requires a.Begin? || a.LoadList? || a.RefuseStart? || a.InstallStart? || a.EditStopped?
    ensures Inv(Do(m, a).machine)
  {
    if a.EditStopped? && Applied(m.disk, a.frame).Ok? { ApplyAchieves(m.disk, a.frame); }
  }

  lemma CheckAndPeekKeep(m: Machine, a: Action)
    requires Inv(m) && Enabled(m, a)
    requires a.Check? || a.Peek?
    ensures Inv(Do(m, a).machine)
  {
  }

  lemma WriteKeeps(m: Machine, outcome: WriteOutcome)
    requires Inv(m) && Writing(m)
    ensures Inv(DoWrite(m, outcome))
  {
    var after := DoWrite(m, outcome);
    assert !AboutToChange(after) && !AboutToExpire(after);
    if Intended(m).Ok? {
      IntendedMeans(m);
      if outcome.Saved? { assert OnDisk(after); }
    }
    assert Lists(after) && OnDisk(after);
  }

  lemma HaltLands(m: Machine, code: string)
    requires Inv(m) && m.flight.Flight?
    ensures Inv(Landed(m, Halted(m.inner, code)).machine)
  {
  }

  lemma ResolveLands(m: Machine, allowed: bool, event: Event)
    requires Inv(m) && m.flight.Flight?
    ensures Inv(Landed(m, ResolvedIf(m.inner, allowed, event)).machine)
  {
  }

  lemma ReadyLands(m: Machine, port: nat)
    requires Inv(m) && m.flight.Flight?
    ensures Inv(Landed(m, OnReady(m.inner, port)).machine)
  {
    if m.inner.process.Some? && m.inner.port.Some? && m.inner.port.value != port {
      HaltLands(m, "companion-port-mismatch");
    }
  }

  lemma ProblemLands(m: Machine, code: string)
    requires Inv(m) && m.flight.Flight? && m.flight.event == Problem(code) && m.flight.phase.Checked?
    ensures Inv(Landed(m, OnProblem(m.inner, code)).machine)
  {
  }

  lemma PushIsApart(m: Machine, push: Push)
    requires Inv(m)
    ensures Inv(m.(push := push))
  {
  }

  lemma ApplyKeeps(m: Machine, stored: bool)
    requires Inv(m) && Applicable(m)
    ensures Inv(DoApply(m, stored).machine)
  {
    HandledKeeps(m);
    hide Inv, Handled;
    PushIsApart(Handled(m).machine, Pushed(m, stored));
  }

  lemma HandledKeeps(m: Machine)
    requires Inv(m) && Applicable(m)
    ensures Inv(Handled(m).machine)
  {
    match m.flight.phase {
      case Peeked(_) => ResolveLands(m, Awaits(m.inner, true), m.flight.event);
      case Written(Err(code), _) => HaltLands(m, code);
      case Written(Ok(_), _) => ResolveLands(m, Awaits(m.inner, false), m.flight.event);
      case Checked =>
        var event := m.flight.event;
        if event.Ready? {
          ReadyLands(m, event.port);
        } else if event.Problem? {
          ProblemLands(m, event.code);
        } else {
          ResolveLands(m, true, event);
          ResolveLands(m, false, event);
        }
    }
  }

  lemma HaltsKeep(m: Machine, a: Action)
    requires Inv(m) && Enabled(m, a)
    requires a.Watch? || a.FailNow?
    ensures Inv(Do(m, a).machine)
  {
  }

  lemma EndsKeep(m: Machine, a: Action)
    requires Inv(m) && Enabled(m, a)
    requires a.Exit? || a.Stop? || a.Clear?
    ensures Inv(Do(m, a).machine)
  {
  }

  lemma AskKeeps(m: Machine, want: Want)
    requires Inv(m) && Enabled(m, Ask(want))
    ensures Inv(Do(m, Ask(want)).machine)
  {
  }

  lemma TurnKeeps(m: Machine, a: Action)
    requires Inv(m) && Enabled(m, a)
    requires a.Elapse? || a.GiveUp? || a.Collect?
    ensures Inv(Do(m, a).machine)
  {
  }

  lemma InvStep(m: Machine, a: Action)
    requires Inv(m) && Enabled(m, a)
    ensures Inv(Do(m, a).machine)
  {
    match a {
      case Begin => StartsKeep(m, a);
      case LoadList => StartsKeep(m, a);
      case RefuseStart(_) => StartsKeep(m, a);
      case InstallStart(_) => StartsKeep(m, a);
      case EditStopped(_, _, _) => StartsKeep(m, a);
      case PushAnswer(_, _, _, _) => PushIsApart(m, Do(m, a).machine.push);
      case Rekey(_) => PushIsApart(m, Do(m, a).machine.push);
      case Check(_, _) => CheckAndPeekKeep(m, a);
      case Peek => CheckAndPeekKeep(m, a);
      case Write(outcome) => WriteKeeps(m, outcome);
      case Apply(stored) => ApplyKeeps(m, stored);
      case Ask(want) => AskKeeps(m, want);
      case Elapse => TurnKeeps(m, a);
      case GiveUp => TurnKeeps(m, a);
      case Collect => TurnKeeps(m, a);
      case Watch(_) => HaltsKeep(m, a);
      case FailNow(_) => HaltsKeep(m, a);
      case _ => EndsKeep(m, a);
    }
  }

  /** At most the process ends; a kill is only handed out for a process that is installed, an
      expiry only told by one that ran. */
  ghost predicate OnlyEnds(m: Machine, o: Outcome) {
    && o.machine.installed == m.installed
    && (o.machine.inner.process.Some? ==> m.inner.process.Some? && o.machine.inner.generation == m.inner.generation)
    && (o.kill ==> m.inner.process.Some? && m.inner.generation in m.installed)
    && (o.expiring ==> m.flight.Flight? && m.flight.gen in m.installed)
  }

  lemma ApplyOnlyEnds(m: Machine, stored: bool)
    requires Generations(m) && Applicable(m)
    ensures OnlyEnds(m, DoApply(m, stored))
  {
    HandledOnlyEnds(m);
    hide Handled, Pushed;
  }

  lemma HandledOnlyEnds(m: Machine)
    requires Generations(m) && Applicable(m)
    ensures OnlyEnds(m, Handled(m))
  {
  }

  /** What every action but an installation amounts to from outside. */
  lemma OnlyInstallAdds(m: Machine, a: Action)
    requires Generations(m) && Enabled(m, a) && !a.InstallStart?
    ensures OnlyEnds(m, Do(m, a))
  {
    if a.Apply? { ApplyOnlyEnds(m, a.stored); }
  }

  // ---------- runs ----------

  ghost predicate Path(ms: seq<Machine>, acts: seq<Action>) {
    && |ms| == |acts| + 1
    && forall k :: 0 <= k < |acts| ==> Enabled(ms[k], acts[k]) && ms[k + 1] == Do(ms[k], acts[k]).machine
  }

  ghost predicate Run(ms: seq<Machine>, acts: seq<Action>) {
    Path(ms, acts) && Start(ms[0])
  }

  lemma {:induction false} PathKeeps(ms: seq<Machine>, acts: seq<Action>, k: nat)
    requires Path(ms, acts) && Inv(ms[0]) && k < |ms|
    ensures Inv(ms[k])
  {
    if k > 0 {
      PathKeeps(ms, acts, k - 1);
      InvStep(ms[k - 1], acts[k - 1]);
    }
  }

  lemma RunKeeps(ms: seq<Machine>, acts: seq<Action>, k: nat)
    requires Run(ms, acts) && k < |ms|
    ensures Inv(ms[k])
  {
    InvStart(ms[0]);
    PathKeeps(ms, acts, k);
  }

  /** The process whose event an action handles. */
  function Speaker(m: Machine, a: Action): Option<nat> {
    match a
    case Check(gen, _) => Some(gen)
    case Peek => if m.flight.Flight? then Some(m.flight.gen) else None
    case Write(_) => if m.flight.Flight? then Some(m.flight.gen) else None
    case Apply(_) => if m.flight.Flight? then Some(m.flight.gen) else None
    case _ => None
  }

  /** Whenever the status says running, a process is installed that said it is ready and
      that nobody has halted or stopped. */
  lemma RunningMeansReady(ms: seq<Machine>, acts: seq<Action>, k: nat)
    requires Run(ms, acts) && k < |ms| && ms[k].inner.status.Running?
    ensures ms[k].inner.process.Some? && ms[k].inner.ready && ms[k].inner.terminal.None?
    ensures ms[k].inner.generation in ms[k].installed && ms[k].inner.generation !in ms[k].timedOut
  {
    RunKeeps(ms, acts, k);
  }

  /** Once a newer process is installed, handling an event of an older one changes nothing: not the
      status, the pending reply, the devices, their file or the subscriptions, even if it was being
      handled when that process exited. */
  lemma OldProcessesAreMute(ms: seq<Machine>, acts: seq<Action>, k: nat)
    requires Run(ms, acts) && k < |acts|
    requires ms[k].inner.process.Some?
    requires Speaker(ms[k], acts[k]).Some? && Speaker(ms[k], acts[k]).value != ms[k].inner.generation
    ensures acts[k].Check? && ms[k + 1] == ms[k]
  {
    RunKeeps(ms, acts, k);
  }

  predicate Stored(m: Machine, device: string, s: P.Subscription) {
    s in P.All(m.push.book, device)
  }

  /** The subscription is still the one that the message was sent to. */
  predicate SentTo(target: Target, s: P.Subscription) {
    s.endpoint == target.sent.endpoint && s.p256dh == target.sent.p256dh && s.auth == target.sent.auth
  }

  /** What a delivery does that an event has set off, of an older process or of this one: it takes
      the subscription its message was sent to, if that is still stored as it was, and touches
      nothing else. It changes the subscriptions exactly when the push service answers that this one
      is gone, the write works, and it is still stored. */
  lemma DeliveriesExactly(ms: seq<Machine>, acts: seq<Action>, k: nat)
    requires Run(ms, acts) && k < |acts| && acts[k].PushAnswer?
    ensures ms[k + 1] == ms[k].(push := ms[k + 1].push)
    ensures ms[k + 1].push.book != ms[k].push.book <==>
              && acts[k].gone && acts[k].stored
              && exists s :: Stored(ms[k], acts[k].target.device, s) && SentTo(acts[k].target, s)
    ensures forall device, s :: Stored(ms[k + 1], device, s) <==>
              && Stored(ms[k], device, s)
              && !(acts[k].gone && acts[k].stored && device == acts[k].target.device && SentTo(acts[k].target, s))
  {
    var m, a := ms[k], acts[k];
    assert Enabled(m, a) && ms[k + 1] == DoAnswer(m, a.job, a.target, a.gone, a.stored);
    var gone := P.SameKeys(a.target.sent);
    P.PrunedExactly(m.push.book, a.target.device, gone);
    if exists s :: Stored(m, a.target.device, s) && gone(s) {
      var s :| Stored(m, a.target.device, s) && gone(s);
      assert s in P.All(m.push.book, a.target.device);
    }
    forall device, s ensures s in P.All(P.Pruned(m.push.book, a.target.device, gone), device)
                             <==> Stored(m, device, s) && !(device == a.target.device && gone(s))
    {
      P.RenewalsSurvive(m.push.book, a.target.device, a.target.sent, device, s);
    }
  }

  predicate EndsLaunch(a: Action) {
    a.RefuseStart? || a.InstallStart?
  }

  /** A stop that lands while a process is being created keeps it from being installed. */
  lemma StopDuringStart(ms: seq<Machine>, acts: seq<Action>, i: nat, j: nat)
    requires Run(ms, acts) && i < j < |acts|
    requires acts[i].Stop? && ms[i].launch.Launch? && acts[j].InstallStart?
    requires forall t :: i < t < j ==> !EndsLaunch(acts[t])
    ensures ms[j + 1].inner == ms[j].inner && ms[j + 1].installed == ms[j].installed
  {
    StillStopped(ms, acts, i, j);
    RunKeeps(ms, acts, j);
  }

  lemma StopMarks(m: Machine)
    requires m.launch.Launch?
    ensures Do(m, Stop).machine.launch.Launch? && Do(m, Stop).machine.launch.stopped
  {
  }

  lemma MarkStays(m: Machine, a: Action)
    requires Enabled(m, a) && !EndsLaunch(a) && m.launch.Launch? && m.launch.stopped
    ensures Do(m, a).machine.launch.Launch? && Do(m, a).machine.launch.stopped
  {
  }

  lemma {:induction false} StillStopped(ms: seq<Machine>, acts: seq<Action>, i: nat, j: nat)
    requires Run(ms, acts) && i < j < |ms|
    requires acts[i].Stop? && ms[i].launch.Launch?
    requires forall t :: i < t < j ==> !EndsLaunch(acts[t])
    ensures ms[j].launch.Launch? && ms[j].launch.stopped
  {
    hide Do, Enabled;
    if j > i + 1 {
      StillStopped(ms, acts, i, j - 1);
      MarkStays(ms[j - 1], acts[j - 1]);
    } else {
      StopMarks(ms[i]);
    }
  }

  lemma {:induction false} HistoryGrows(ms: seq<Machine>, acts: seq<Action>, i: nat, j: nat)
    requires Run(ms, acts) && i <= j < |ms|
    ensures ms[i].timedOut <= ms[j].timedOut
    ensures forall id :: id in ms[i].answers ==> id in ms[j].answers && ms[j].answers[id] == ms[i].answers[id]
  {
    hide Do, Enabled;
    if i < j {
      HistoryGrows(ms, acts, i, j - 1);
      RunKeeps(ms, acts, j - 1);
      StepGrows(ms[j - 1], acts[j - 1]);
    }
  }

  lemma StepGrows(m: Machine, a: Action)
    requires OneOutcome(m) && Enabled(m, a)
    ensures m.timedOut <= Do(m, a).machine.timedOut
    ensures forall id :: id in m.answers ==>
      id in Do(m, a).machine.answers && Do(m, a).machine.answers[id] == m.answers[id]
  {
  }

  lemma SealedIsMute(m: Machine, a: Action)
    requires Generations(m) && Sealed(m) && PendingIsTurn(m) && Enabled(m, a)
    requires Speaker(m, a).Some? && Speaker(m, a).value in m.timedOut
    ensures Do(m, a).machine.turn == m.turn && Do(m, a).machine.answers == m.answers
  {
  }

  lemma GiveUpMarks(m: Machine)
    requires Enabled(m, GiveUp)
    ensures m.turn.gen in Do(m, GiveUp).machine.timedOut
  {
  }

  /** After a command timed out, no event of that gateway ever answers a later command. */
  lemma TimedOutIsSealed(ms: seq<Machine>, acts: seq<Action>, i: nat, j: nat)
    requires Run(ms, acts) && i < j < |acts|
    requires acts[i].GiveUp? && Speaker(ms[j], acts[j]) == Some(ms[i].turn.gen)
    ensures ms[j + 1].turn == ms[j].turn && ms[j + 1].answers == ms[j].answers
  {
    HistoryGrows(ms, acts, i + 1, j);
    RunKeeps(ms, acts, j);
    hide Do;
    GiveUpMarks(ms[i]);
    SealedIsMute(ms[j], acts[j]);
  }

  /** Every caller that asked, but for the one whose turn it is, has one outcome for good. */
  lemma OneOutcomeEach(ms: seq<Machine>, acts: seq<Action>, i: nat, j: nat, id: nat)
    requires Run(ms, acts) && i <= j < |ms|
    ensures id in ms[i].answers <==> id < ms[i].asked && !(!ms[i].turn.Free? && ms[i].turn.id == id)
    ensures id in ms[i].answers ==> id in ms[j].answers && ms[j].answers[id] == ms[i].answers[id]
  {
    RunKeeps(ms, acts, i);
    HistoryGrows(ms, acts, i, j);
  }

  predicate Told(m: Machine) {
    m.turn.Waiting? && m.turn.got.Some? && m.turn.got.value.Ok?
  }

  lemma OnlyApplyTells(m: Machine, a: Action)
    requires Enabled(m, a) && !Told(m) && Told(Do(m, a).machine)
    ensures a.Apply?
  {
  }

  predicate WasSaved(m: Machine) {
    m.flight.Flight? && m.flight.phase.Written? && m.flight.phase.saved.Ok?
  }

  lemma OnlySavedTells(m: Machine)
    requires PendingIsTurn(m) && Applicable(m) && !Told(m)
    requires Told(Handled(m).machine) && Handled(m).machine.turn.want.Change?
    ensures WasSaved(m)
  {
  }

  lemma SavedTells(m: Machine)
    requires PendingIsTurn(m) && OnDisk(m) && DeferralIsPending(m) && FlightShape(m) && WasSaved(m) && !Told(m)
    requires Told(Handled(m).machine) && Handled(m).machine.turn.want.Change?
    ensures Achieved(m.turn.want.frame, m.disk) && Handled(m).machine.disk == m.disk
    ensures m.turn.Waiting? && Handled(m).machine.turn.want == m.turn.want
  {
  }

  /** An event that answers a device command as done finds its effect on disk. */
  lemma ApplyTells(m: Machine)
    requires PendingIsTurn(m) && OnDisk(m) && DeferralIsPending(m) && FlightShape(m) && Applicable(m) && !Told(m)
    requires Told(Handled(m).machine) && Handled(m).machine.turn.want.Change?
    ensures Achieved(m.turn.want.frame, m.disk) && Handled(m).machine.disk == m.disk
    ensures m.turn.Waiting? && Handled(m).machine.turn.want == m.turn.want
  {
    OnlySavedTells(m);
    hide Handled, OnDisk, DeferralIsPending, FlightShape, PendingIsTurn;
    SavedTells(m);
  }

  /** When a device command is answered as done, by its own event or by a deferral, the file
      already holds the revoke, update or unlock it asked for. */
  lemma ToldIsOnDisk(ms: seq<Machine>, acts: seq<Action>, k: nat)
    requires Run(ms, acts) && k < |acts|
    requires !Told(ms[k]) && Told(ms[k + 1]) && ms[k + 1].turn.want.Change?
    ensures acts[k].Apply? && Achieved(ms[k + 1].turn.want.frame, ms[k + 1].disk)
  {
    RunKeeps(ms, acts, k);
    OnlyApplyTells(ms[k], acts[k]);
    assert ms[k + 1].turn == Handled(ms[k]).machine.turn && ms[k + 1].disk == Handled(ms[k]).machine.disk;
    hide Do, Handled;
    ApplyTells(ms[k]);
  }

  // ---------- what a start is given ----------

  /** The port that settings give the gateway unless changed; never 0. */
  const GATEWAY_PORT: nat := 47110

  ghost predicate UntilInstalled(ms: seq<Machine>, acts: seq<Action>) {
    && Path(ms, acts) && acts != [] && acts[|acts| - 1].InstallStart?
    && (forall t :: 0 <= t < |acts| - 1 ==> !EndsLaunch(acts[t]))
    && ms[|acts|].inner.process.Some?
  }

  /** However it goes on, if this start installs a process the list it keeps is the file. */
  ghost predicate AlwaysFresh(m: Machine) {
    forall ms: seq<Machine>, acts: seq<Action> ::
      UntilInstalled(ms, acts) && ms[0] == m ==> ms[|acts|].memory == Some(ms[|acts|].disk)
  }

  /** However it goes on, if this start installs a process no expiry is held against it. */
  ghost predicate AlwaysUnexpired(m: Machine) {
    forall ms: seq<Machine>, acts: seq<Action> :: UntilInstalled(ms, acts) && ms[0] == m ==> !ms[|acts|].inner.expired
  }

  lemma {:induction false} LaunchKept(ms: seq<Machine>, acts: seq<Action>, k: nat)
    requires Path(ms, acts) && Inv(ms[0]) && ms[0].launch.Launch? && k < |ms|
    requires forall t :: 0 <= t < k ==> !EndsLaunch(acts[t])
    ensures Inv(ms[k]) && ms[k].launch.Launch?
    ensures ms[k].launch.late == ms[0].launch.late
    ensures ms[0].launch.list.Some? ==> ms[k].launch.list.Some? && ms[k].launch.racing == ms[0].launch.racing
  {
    hide Do, Enabled, Inv;
    PathKeeps(ms, acts, k);
    if k > 0 {
      LaunchKept(ms, acts, k - 1);
      LaunchStays(ms[k - 1], acts[k - 1]);
    }
  }

  lemma LaunchStays(m: Machine, a: Action)
    requires Enabled(m, a) && m.launch.Launch? && !EndsLaunch(a)
    ensures var launch := Do(m, a).machine.launch;
            && launch.Launch? && launch.late == m.launch.late
            && (m.launch.list.Some? ==> launch.list.Some? && launch.racing == m.launch.racing)
  {
  }

  /** The list a start reads is the file's for good exactly when no event of an older process
      has still to write one. The store lock is not held between the read and the install, so
      an event whose write outlasts its process slips in between. */
  lemma FreshListExactly(ms: seq<Machine>, acts: seq<Action>, k: nat)
    requires Run(ms, acts) && k < |acts| && acts[k].LoadList?
    requires MayInstall(ms[k].inner, ms[k].launch.expected)
    ensures AlwaysFresh(ms[k + 1]) <==> !AboutToChange(ms[k])
  {
    RunKeeps(ms, acts, k);
    RunKeeps(ms, acts, k + 1);
    var m := ms[k + 1];
    assert Enabled(ms[k], acts[k]) && m == Do(ms[k], LoadList).machine;
    if AboutToChange(ms[k]) {
      StaleContinuation(m, GATEWAY_PORT);
    } else {
      forall after: seq<Machine>, more: seq<Action> | UntilInstalled(after, more) && after[0] == m
        ensures after[|more|].memory == Some(after[|more|].disk)
      {
        LaunchKept(after, more, |more| - 1);
        assert Enabled(after[|more| - 1], more[|more| - 1]);
      }
    }
  }

  lemma StaleContinuation(m: Machine, port: nat)
    requires Inv(m) && m.launch.Launch? && m.launch.list == Some(m.disk) && AboutToChange(m)
    requires MayInstall(m.inner, m.launch.expected)
    ensures !AlwaysFresh(m)
  {
    var acts := [Write(Saved), Apply(true), InstallStart(Some(port))];
    var m1 := Do(m, acts[0]).machine;
    assert m1.inner.pending.None?;
    var m2 := Do(m1, acts[1]).machine;
    assert m2.inner == m.inner && m2.launch == m.launch;
    var m3 := Do(m2, acts[2]).machine;
    var ms := [m, m1, m2, m3];
    assert Path(ms, acts);
    assert UntilInstalled(ms, acts) && ms[0] == m;
    assert m3.memory != Some(m3.disk);
  }

  /** A process starts with no expiry held against it exactly when no event of an older one
      that reports an expiry is in hand as the start begins. */
  lemma UnexpiredExactly(ms: seq<Machine>, acts: seq<Action>, k: nat)
    requires Run(ms, acts) && k < |acts| && acts[k].Begin?
    ensures AlwaysUnexpired(ms[k + 1]) <==> !AboutToExpire(ms[k])
  {
    RunKeeps(ms, acts, k);
    RunKeeps(ms, acts, k + 1);
    var m := ms[k + 1];
    assert Enabled(ms[k], acts[k]) && m == Do(ms[k], Begin).machine;
    if AboutToExpire(ms[k]) {
      ExpiredContinuation(m, GATEWAY_PORT);
    } else {
      forall after: seq<Machine>, more: seq<Action> | UntilInstalled(after, more) && after[0] == m
        ensures !after[|more|].inner.expired
      {
        LaunchKept(after, more, |more| - 1);
        assert Enabled(after[|more| - 1], more[|more| - 1]);
      }
    }
  }

  lemma ExpiredContinuation(m: Machine, port: nat)
    requires Inv(m) && m.launch.Launch? && m.launch.list.None? && AboutToExpire(m)
    requires MayInstall(m.inner, m.launch.expected)
    ensures !AlwaysUnexpired(m)
  {
    var acts := [LoadList, Apply(true), InstallStart(Some(port))];
    var m1 := Do(m, acts[0]).machine;
    var m2 := Do(m1, acts[1]).machine;
    var m3 := Do(m2, acts[2]).machine;
    var ms := [m, m1, m2, m3];
    assert Path(ms, acts);
    assert UntilInstalled(ms, acts) && ms[0] == m;
  }

  const NO_PUSHES := Push(map[], map[], 0)

  function WithPhone(phone: Device, port: nat): Machine {
    Machine(Exited(Installed(Begun(INITIAL), Some(port))).inner, Some([]), [], NO_PUSHES,
            Flight(1, Registered(phone), Checked), NoLaunch, Free, 0, map[], {1}, {})
  }

  lemma PhoneReported(phone: Device, port: nat) returns (ms: seq<Machine>, acts: seq<Action>)
    ensures Run(ms, acts) && ms[|acts|] == WithPhone(phone, port)
  {
    var off := Machine(INITIAL, None, [], NO_PUSHES, NoFlight, NoLaunch, Free, 0, map[], {}, {});
    var begun := off.(inner := Begun(INITIAL), launch := Launch(0, None, false, false, false));
    var read := begun.(launch := begun.launch.(list := Some([])));
    var runs := read.(inner := Installed(read.inner, Some(port)), memory := Some([]),
                      launch := NoLaunch, installed := {1});
    var heard := runs.(flight := Flight(1, Registered(phone), Checked));
    ms := [off, begun, read, runs, heard, WithPhone(phone, port)];
    acts := [Begin, LoadList, InstallStart(Some(port)), Check(1, Registered(phone)), Exit(1)];
    assert Do(off, Begin).machine == begun && Do(begun, LoadList).machine == read;
    assert Do(read, InstallStart(Some(port))).machine == runs;
    assert Do(runs, acts[3]).machine == heard && Do(heard, Exit(1)).machine == WithPhone(phone, port);
  }

  /** Such a start exists: the gateway reports a new phone, exits while that is being written,
      and the next start has read the list by then. Its process is installed without the phone. */
  lemma StaleListRun(phone: Device, port: nat) returns (ms: seq<Machine>, acts: seq<Action>)
    requires phone.id != "" && port > 0
    ensures Run(ms, acts) && acts != []
    ensures ms[|acts|].inner.process.Some? && ms[|acts|].memory == Some([]) && ms[|acts|].disk == [phone]
  {
    var before, first := PhoneReported(phone, port);
    var gone := WithPhone(phone, port);
    var again := gone.(inner := Begun(gone.inner), launch := Launch(2, None, false, false, false));
    var stale := again.(launch := Launch(2, Some([]), false, true, false));
    assert Intended(stale) == Ok([phone]) by {
      var none: seq<Device> := [];
      assert IndexOf(none, phone.id) == 0 && none + [phone] == [phone];
    }
    var wrote := stale.(memory := Some([phone]), disk := [phone],
                        flight := Flight(1, Registered(phone), Written(Ok(()), None)));
    var quiet := wrote.(flight := NoFlight);
    var last := quiet.(inner := Installed(quiet.inner, Some(port)), memory := Some([]),
                       launch := NoLaunch, installed := {1, 3});
    var after := [gone, again, stale, wrote, quiet, last];
    var second := [Begin, LoadList, Write(Saved), Apply(true), InstallStart(Some(port))];
    assert Path(after, second) by {
      assert Do(gone, Begin).machine == again && Do(again, LoadList).machine == stale;
      assert Do(stale, Write(Saved)).machine == wrote;
      assert Do(wrote, Apply(true)).machine == quiet && Do(quiet, InstallStart(Some(port))).machine == last;
    }
    ms, acts := before + after[1..], first + second;
    Joined(before, first, after, second);
  }

  lemma Joined(before: seq<Machine>, first: seq<Action>, after: seq<Machine>, second: seq<Action>)
    requires Path(before, first) && Path(after, second) && before[|first|] == after[0]
    ensures Path(before + after[1..], first + second)
  {
    var ms, acts := before + after[1..], first + second;
    forall k | 0 <= k < |acts|
      ensures Enabled(ms[k], acts[k]) && ms[k + 1] == Do(ms[k], acts[k]).machine
    {
      if k >= |first| {
        assert ms[k] == after[k - |first|] && ms[k + 1] == after[k + 1 - |first|];
      }
    }
  }

  // ---------- a delivery that outlasts its process ----------

  /** A gateway asks for a push, exits, and the next one is installed before the push service
      answers that the subscription is gone: with that it is, under the new process. */
  lemma OldDeliveryRun(phone: Device, s: P.Subscription, port: nat) returns (ms: seq<Machine>, acts: seq<Action>)
    requires port > 0
    ensures Run(ms, acts) && acts != [] && acts[|acts| - 1].PushAnswer?
    ensures var last := ms[|acts| - 1];
            && last.inner.process.Some? && acts[|acts| - 1].job in last.push.jobs
            && last.push.jobs[acts[|acts| - 1].job].gen < last.inner.generation
            && Stored(last, phone.id, s) && !Stored(ms[|acts|], phone.id, s)
  {
    var before, first, newer := AsksAndGoes(phone, s, port);
    var target := Target(phone.id, s);
    var answered := DoAnswer(newer, 0, target, true, true);
    P.PrunedExactly(newer.push.book, phone.id, P.SameKeys(s));
    assert s in P.All(newer.push.book, phone.id);
    LateAnswer(newer, target);
    hide Do, Enabled;
    var last := [PushAnswer(0, target, true, true)];
    assert Path([newer, answered], last);
    Joined(before, first, [newer, answered], last);
    ms, acts := before + [newer, answered][1..], first + last;
    assert ms[|first|] == newer && ms[|acts|] == answered;
  }

  lemma AsksAndGoes(phone: Device, s: P.Subscription, port: nat)
    returns (ms: seq<Machine>, acts: seq<Action>, newer: Machine)
    ensures Run(ms, acts) && |acts| == 9 && ms[9] == newer
    ensures newer.inner.process.Some? && newer.inner.generation == 3
    ensures newer.push == Push(map[phone.id := [s]], map[0 := Delivery(1, {Target(phone.id, s)})], 1)
  {
    var book: P.Book := map[phone.id := [s]];
    var off := Machine(INITIAL, None, [phone], Push(book, map[], 0), NoFlight, NoLaunch, Free, 0, map[], {}, {});
    var begun := off.(inner := Begun(INITIAL), launch := Launch(0, None, false, false, false));
    var read := begun.(launch := begun.launch.(list := Some([phone])));
    var runs := read.(inner := Installed(read.inner, Some(port)), memory := Some([phone]),
                      launch := NoLaunch, installed := {1});
    var asks := PushAsked({phone.id}, true);
    var heard := runs.(flight := Flight(1, asks, Checked));
    var target := Target(phone.id, s);
    assert Targets(book, {phone.id}) == {target};
    var sends := runs.(push := Push(book, map[0 := Delivery(1, {target})], 1));
    var gone := sends.(inner := Exited(sends.inner).inner);
    var again := gone.(inner := Begun(gone.inner), launch := Launch(2, None, false, false, false));
    var reread := again.(launch := again.launch.(list := Some([phone])));
    newer := reread.(inner := Installed(reread.inner, Some(port)), launch := NoLaunch, installed := {1, 3});
    FirstHalf(off, begun, read, runs, heard, port, asks);
    SendsAndExits(heard, sends, gone, target);
    SecondHalf(gone, again, reread, newer, phone, port);
    assert Start(off);
    hide Do, Enabled, Start;
    ms := [off, begun, read, runs, heard, sends, gone, again, reread, newer];
    acts := [Begin, LoadList, InstallStart(Some(port)), Check(1, asks), Apply(true), Exit(1),
             Begin, LoadList, InstallStart(Some(port))];
  }

  lemma SendsAndExits(heard: Machine, sends: Machine, gone: Machine, target: Target)
    requires heard.flight == Flight(1, PushAsked({target.device}, true), Checked)
    requires heard.inner.generation == 1 && heard.installed == {1}
    requires heard.push.next == 0 && Targets(heard.push.book, {target.device}) == {target}
    requires sends == heard.(flight := NoFlight,
                             push := Push(heard.push.book, heard.push.jobs[0 := Delivery(1, {target})], 1))
    requires gone == sends.(inner := Exited(sends.inner).inner) && sends.inner.pending.None?
    ensures Enabled(heard, Apply(true)) && Do(heard, Apply(true)).machine == sends
    ensures Enabled(sends, Exit(1)) && Do(sends, Exit(1)).machine == gone
  {
  }

  lemma LateAnswer(newer: Machine, target: Target)
    requires 0 in newer.push.jobs && target in newer.push.jobs[0].left
    ensures Enabled(newer, PushAnswer(0, target, true, true))
    ensures Do(newer, PushAnswer(0, target, true, true)).machine == DoAnswer(newer, 0, target, true, true)
  {
  }

  lemma FirstHalf(off: Machine, begun: Machine, read: Machine, runs: Machine, heard: Machine, port: nat, asks: Event)
    requires Start(off) && off.inner == INITIAL
    requires begun == off.(inner := Begun(INITIAL), launch := Launch(0, None, false, false, false))
    requires read == begun.(launch := begun.launch.(list := Some(off.disk)))
    requires runs == read.(inner := Installed(read.inner, Some(port)), memory := Some(off.disk),
                           launch := NoLaunch, installed := {1})
    requires heard == runs.(flight := Flight(1, asks, Checked))
    ensures Enabled(off, Begin) && Do(off, Begin).machine == begun
    ensures Enabled(begun, LoadList) && Do(begun, LoadList).machine == read
    ensures Enabled(read, InstallStart(Some(port))) && Do(read, InstallStart(Some(port))).machine == runs
    ensures Enabled(runs, Check(1, asks)) && Do(runs, Check(1, asks)).machine == heard
  {
  }

  lemma SecondHalf(gone: Machine, again: Machine, reread: Machine, newer: Machine, phone: Device, port: nat)
    requires gone.inner.generation == 2 && MayStart(gone.inner) && gone.disk == [phone] && gone.memory == Some([phone])
    requires gone.launch.NoLaunch? && gone.flight.NoFlight? && gone.installed == {1}
    requires again == gone.(inner := Begun(gone.inner), launch := Launch(2, None, false, false, false))
    requires reread == again.(launch := again.launch.(list := Some([phone])))
    requires newer == reread.(inner := Installed(reread.inner, Some(port)), launch := NoLaunch, installed := {1, 3})
    ensures Enabled(gone, Begin) && Do(gone, Begin).machine == again
    ensures Enabled(again, LoadList) && Do(again, LoadList).machine == reread
    ensures Enabled(reread, InstallStart(Some(port))) && Do(reread, InstallStart(Some(port))).machine == newer
  {
  }

  // ---------- an expiry that outlasts its process ----------

  /** A gateway that runs, with no device. */
  function Up(port: nat): Machine {
    Machine(Installed(Begun(INITIAL), Some(port)).(ready := true, status := Running(port)), Some([]), [], NO_PUSHES,
            NoFlight, NoLaunch, Free, 0, map[], {1}, {})
  }

  lemma ComesUp(port: nat) returns (ms: seq<Machine>, acts: seq<Action>)
    ensures Run(ms, acts) && |acts| == 5 && ms[5] == Up(port)
  {
    var off := Machine(INITIAL, None, [], NO_PUSHES, NoFlight, NoLaunch, Free, 0, map[], {}, {});
    var begun := off.(inner := Begun(INITIAL), launch := Launch(0, None, false, false, false));
    var read := begun.(launch := begun.launch.(list := Some([])));
    var runs := read.(inner := Installed(read.inner, Some(port)), memory := Some([]),
                      launch := NoLaunch, installed := {1});
    var heard := runs.(flight := Flight(1, Ready(port), Checked));
    FirstHalf(off, begun, read, runs, heard, port, Ready(port));
    SaysReady(heard, port);
    assert Start(off);
    hide Do, Enabled, Start;
    ms := [off, begun, read, runs, heard, Up(port)];
    acts := [Begin, LoadList, InstallStart(Some(port)), Check(1, Ready(port)), Apply(true)];
  }

  lemma SaysReady(heard: Machine, port: nat)
    requires heard == Up(port).(inner := Installed(Begun(INITIAL), Some(port)),
                                flight := Flight(1, Ready(port), Checked))
    ensures Enabled(heard, Apply(true)) && Do(heard, Apply(true)).machine == Up(port)
  {
  }

  /** The gateway reports that its policy has expired, and exits before that is marked; the next start
      has cleared the mark by then, and its process is installed with the expiry against it. */
  lemma ExpiredRun(port: nat) returns (ms: seq<Machine>, acts: seq<Action>, k: nat)
    requires port > 0
    ensures Run(ms, acts) && k < |acts| && acts[k].Begin? && AboutToExpire(ms[k])
    ensures ms[|acts|].inner.process.Some? && ms[|acts|].inner.expired
    ensures ms[|acts|].inner.generation > ms[k].flight.gen
  {
    var before, first := ComesUp(port);
    var expiry := Problem("policy-expired");
    var heard := Up(port).(flight := Flight(1, expiry, Checked));
    var gone := heard.(inner := Exited(heard.inner).inner);
    var again := gone.(inner := Begun(gone.inner), launch := Launch(2, None, false, false, true));
    var read := again.(launch := again.launch.(list := Some([])));
    var marked := read.(inner := OnProblem(read.inner, "policy-expired").inner, flight := NoFlight);
    var last := marked.(inner := Installed(marked.inner, Some(port)), launch := NoLaunch, installed := {1, 3});
    ExpiryWaits(heard, gone, again, read, port);
    ExpiryLands(read, marked, last, port);
    hide Do, Enabled;
    var after := [Up(port), heard, gone, again, read, marked, last];
    var more := [Check(1, expiry), Exit(1), Begin, LoadList, Apply(true), InstallStart(Some(port))];
    assert Path(after, more);
    Joined(before, first, after, more);
    ms, acts, k := before + after[1..], first + more, |first| + 2;
    assert ms[k] == gone && acts[k] == Begin && ms[|acts|] == last;
  }

  lemma ExpiryWaits(heard: Machine, gone: Machine, again: Machine, read: Machine, port: nat)
    requires heard == Up(port).(flight := Flight(1, Problem("policy-expired"), Checked))
    requires gone == heard.(inner := Exited(heard.inner).inner)
    requires again == gone.(inner := Begun(gone.inner), launch := Launch(2, None, false, false, true))
    requires read == again.(launch := again.launch.(list := Some([])))
    ensures Enabled(Up(port), Check(1, Problem("policy-expired")))
    ensures Do(Up(port), Check(1, Problem("policy-expired"))).machine == heard
    ensures Enabled(heard, Exit(1)) && Do(heard, Exit(1)).machine == gone
    ensures Enabled(gone, Begin) && Do(gone, Begin).machine == again
    ensures Enabled(again, LoadList) && Do(again, LoadList).machine == read
  {
  }

  lemma ExpiryLands(read: Machine, marked: Machine, last: Machine, port: nat)
    requires read.flight == Flight(1, Problem("policy-expired"), Checked) && read.inner.pending.None?
    requires read.launch == Launch(2, Some([]), false, false, true) && read.memory == Some([]) && read.installed == {1}
    requires read.inner.generation == 2 && read.inner.status.Starting?
    requires marked == read.(inner := OnProblem(read.inner, "policy-expired").inner, flight := NoFlight)
    requires last == marked.(inner := Installed(marked.inner, Some(port)), launch := NoLaunch, installed := {1, 3})
    ensures Enabled(read, Apply(true)) && Do(read, Apply(true)).machine == marked
    ensures Enabled(marked, InstallStart(Some(port))) && Do(marked, InstallStart(Some(port))).machine == last
  {
  }
}
