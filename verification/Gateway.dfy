/** The gateway supervisor's locked state and its critical sections
    (src-tauri/src/companion_service.rs). Each function is what one section does while
    it holds the lock of `inner`; class `CompanionManager` performs it in place. */
module Gateway {
  import opened Wrappers
  import opened Devices
  import P = PushStore

  datatype Status = Disabled | Starting | Running(port: nat) | Stopping | Failed(code: string)

  datatype Verdict = Approve | Reject | Cancel

  /** What the pending admin command waits for. */
  datatype Want =
    | Pairing
    | Decision(pairing: string, verdict: Verdict)
    | Change(frame: Frame)

  datatype Pending = Pending(id: nat, want: Want)

  datatype Kind = RevokeKind | UpdateKind | UnlockKind | DecisionKind(verdict: Verdict) | OtherKind

  /** How a pairing ended, by its `state` and `reason`. */
  datatype Ending = Approved | Rejected | Cancelled | Otherwise

  /** What the gateway writes. Of a push request, `granted` says whether the cooldown and the message
      let it pass. `Other` stands for events that change nothing here. */
  datatype Event =
    | Ready(port: nat)
    | Registered(device: Device)
    | Updated(device: Device)
    | Revoked(gone: Option<string>)
    | Deferred(target: string, kind: Kind)
    | PairingCreated
    | PairingState(pairing: string, ending: Ending)
    | Problem(code: string)
    | PushSubscribed(owner: string, reported: P.Subscription, valid: bool)
    | PushDropped(owner: string, endpoint: string)
    | PushAsked(devices: set<string>, granted: bool)
    | Other

  /** A process, with whether the manager still has its kill handle. */
  datatype Process = Process(kill: bool)

  datatype Inner = Inner(
    status: Status,
    generation: nat,
    process: Option<Process>,
    port: Option<nat>,
    ready: bool,
    expired: bool,
    lastError: Option<string>,
    terminal: Option<Status>,
    pending: Option<Pending>)

  const INITIAL := Inner(Disabled, 0, None, None, false, false, None, None, None)

  datatype Reply = Reply(id: nat, answer: Result<Event>)

  /** The new state, whether a kill handle left the manager, and who was answered. */
  datatype Effect = Effect(inner: Inner, kill: bool, reply: Option<Reply>)

  predicate Idle(i: Inner) {
    i.process.None? && (i.status.Disabled? || i.status.Failed?)
  }

  predicate MayStart(i: Inner) {
    i.process.None? && !i.status.Starting? && !i.status.Stopping?
  }

  function Begun(i: Inner): Inner {
    i.(expired := false, status := Starting)
  }

  /** The device list could not be read or the process not be created. */
  function Refused(i: Inner, expected: nat, code: string): Inner {
    if i.generation == expected && i.status.Starting? then i.(status := Failed(code)) else i
  }

  predicate MayInstall(i: Inner, expected: nat) {
    i.generation == expected && i.status.Starting?
  }

  function Installed(i: Inner, port: Option<nat>): Inner {
    i.(generation := i.generation + 1, process := Some(Process(true)), port := port,
       ready := false, lastError := None, terminal := None)
  }

  /** The pending command, if any, is answered and no longer pending. */
  function Answered(i: Inner, answer: Result<Event>): Effect {
    match i.pending
    case None => Effect(i, false, None)
    case Some(p) => Effect(i.(pending := None), false, Some(Reply(p.id, answer)))
  }

  function Halted(i: Inner, code: string): Effect {
    var answered := Answered(i, Err(code));
    var kill := i.process.Some? && i.process.value.kill;
    Effect(
      answered.inner.(
        terminal := Some(Failed(code)),
        status := Failed(code),
        process := if i.process.Some? then Some(Process(false)) else None),
      kill,
      answered.reply)
  }

  /** The watchdog of the process installed as `generation`. */
  function Overdue(i: Inner, generation: nat): Effect {
    if i.generation != generation || i.ready || i.terminal.Some? then Effect(i, false, None)
    else Halted(i, "companion-start-timeout")
  }

  /** The check an event passes before anything it says counts. */
  predicate Heeded(i: Inner, generation: nat) {
    i.generation == generation && !(i.terminal.Some? && i.terminal.value.Failed?)
  }

  predicate Decided(verdict: Verdict, ending: Ending) {
    match verdict
    case Approve => ending.Approved?
    case Reject => ending.Rejected?
    case Cancel => ending.Cancelled?
  }

  function KindOf(frame: Frame): Kind {
    match frame
    case Revoke(_) => RevokeKind
    case Update(_, _, _) => UpdateKind
    case Unlock(_) => UnlockKind
  }

  /** Whether the event is the answer to the command. */
  predicate Answers(event: Event, want: Want) {
    match event
    case Revoked(Some(id)) => want.Change? && want.frame.Revoke? && want.frame.id == id
    case Updated(device) =>
      want.Change? && !want.frame.Revoke? && want.frame.id == device.id && Reflects(want.frame, device)
    case Deferred(target, kind) =>
      (match want
       case Change(frame) => frame.id == target && KindOf(frame) == kind
       case Decision(pairing, verdict) => pairing == target && kind == DecisionKind(verdict)
       case Pairing => false)
    case PairingCreated => want.Pairing?
    case PairingState(pairing, ending) => want.Decision? && want.pairing == pairing && Decided(want.verdict, ending)
    case _ => false
  }

  function Resolved(i: Inner, event: Event): Effect {
    if i.pending.Some? && Answers(event, i.pending.value.want) then Answered(i, Ok(event))
    else Effect(i, false, None)
  }

  function OnReady(i: Inner, port: nat): Effect {
    if i.process.None? || i.terminal.Some? then Effect(i, false, None)
    else if i.port.Some? && i.port.value != port then Halted(i, "companion-port-mismatch")
    else Effect(i.(ready := true, status := Running(port)), false, None)
  }

  function OnProblem(i: Inner, code: string): Effect {
    var marked := if code == "policy-expired" then i.(expired := true) else i;
    var answered := Answered(marked, Err(code));
    answered.(inner := answered.inner.(lastError := Some(code)))
  }

  function Ended(i: Inner): Status {
    if i.terminal.Some? then i.terminal.value
    else if i.expired then Disabled
    else if !i.ready then Failed(if i.lastError.Some? then i.lastError.value else "companion-exited")
    else Failed("companion-crashed")
  }

  function Exited(i: Inner): Effect {
    var answered := Answered(i, Err("companion-exited"));
    answered.(inner := answered.inner.(
                generation := i.generation + 1,
                process := None,
                terminal := None,
                status := Ended(i)))
  }

  /** The exit is handled as the gateway's own doing, not as a requested stop. */
  predicate Unrequested(i: Inner) {
    i.terminal != Some(Disabled)
  }

  function Stopped(i: Inner): Inner {
    if i.process.None? then i.(generation := i.generation + 1, status := Disabled)
    else i.(process := Some(Process(false)), terminal := Some(Disabled), status := Stopping)
  }

  predicate Live(i: Inner) {
    i.process.Some? && (i.status.Starting? || i.status.Running?)
  }

  function FailedFromOutside(i: Inner, code: string): Effect {
    if Live(i) then Halted(i, code) else Effect(i, false, None)
  }

  function Cleared(i: Inner): Inner {
    if i.process.None? && i.status.Failed? then i.(status := Disabled) else i
  }

  predicate MayAsk(i: Inner) {
    i.process.Some? && i.status.Running?
  }

  /** The section after a command's deadline: the command is dropped, and its gateway halted. */
  function GivenUp(i: Inner, generation: nat): Effect {
    var quiet := i.(pending := None);
    if i.generation == generation then Halted(quiet, "companion-timeout") else Effect(quiet, false, None)
  }

  /** `CompanionManager`, one method per critical section of `inner`. */
  class CompanionManager {
    var status: Status
    var generation: nat
    var process: Option<Process>
    var port: Option<nat>
    var ready: bool
    var expired: bool
    var lastError: Option<string>
    var terminal: Option<Status>
    var pending: Option<Pending>

    function Snapshot(): Inner
      reads this
    {
      Inner(status, generation, process, port, ready, expired, lastError, terminal, pending)
    }

    constructor ()
      ensures Snapshot() == INITIAL
    {
      status, generation, process, port := Disabled, 0, None, None;
      ready, expired, lastError, terminal, pending := false, false, None, None, None;
    }

    method Start() returns (expected: Option<nat>)
      modifies this
      ensures expected == if MayStart(old(Snapshot())) then Some(old(generation)) else None
      ensures Snapshot() == if expected.Some? then Begun(old(Snapshot())) else old(Snapshot())
    {
      if process.Some? || status.Starting? || status.Stopping? {
        return None;
      }
      expired := false;
      status := Starting;
      expected := Some(generation);
    }

    method SpawnFailed(expected: nat, code: string)
      modifies this
      ensures Snapshot() == Refused(old(Snapshot()), expected, code)
    {
      if generation == expected && status.Starting? {
        status := Failed(code);
      }
    }

    method Install(expected: nat, fixed: Option<nat>) returns (installed: Option<nat>)
      modifies this
      ensures installed == if MayInstall(old(Snapshot()), expected) then Some(expected + 1) else None
      ensures Snapshot() == if installed.Some? then Installed(old(Snapshot()), fixed) else old(Snapshot())
    {
      if generation != expected || !status.Starting? {
        return None;
      }
      generation := generation + 1;
      process := Some(Process(true));
      port := fixed;
      ready := false;
      lastError := None;
      terminal := None;
      installed := Some(generation);
    }

    method TakePending(answer: Result<Event>) returns (reply: Option<Reply>)
      modifies this`pending
      ensures Effect(Snapshot(), false, reply) == Answered(old(Snapshot()), answer)
    {
      if pending.None? {
        return None;
      }
      reply := Some(Reply(pending.value.id, answer));
      pending := None;
    }

    /** Marks the gateway failed and hands its kill handle to the caller. */
    method Halt(code: string) returns (kill: bool, reply: Option<Reply>)
      modifies this
      ensures Effect(Snapshot(), kill, reply) == Halted(old(Snapshot()), code)
    {
      reply := TakePending(Err(code));
      terminal := Some(Failed(code));
      status := Failed(code);
      kill := false;
      if process.Some? {
        kill := process.value.kill;
        process := Some(Process(false));
      }
    }

    method Watchdog(installed: nat) returns (kill: bool, reply: Option<Reply>)
      modifies this
      ensures Effect(Snapshot(), kill, reply) == Overdue(old(Snapshot()), installed)
    {
      if generation != installed || ready || terminal.Some? {
        return false, None;
      }
      kill, reply := Halt("companion-start-timeout");
    }

    method Resolve(event: Event) returns (reply: Option<Reply>)
      modifies this`pending
      ensures Effect(Snapshot(), false, reply) == Resolved(old(Snapshot()), event)
    {
      reply := None;
      if pending.Some? && Answers(event, pending.value.want) {
        reply := TakePending(Ok(event));
      }
    }

    method HandleReady(reported: nat) returns (kill: bool, reply: Option<Reply>)
      modifies this
      ensures Effect(Snapshot(), kill, reply) == OnReady(old(Snapshot()), reported)
    {
      kill, reply := false, None;
      if process.Some? && terminal.None? {
        if port.Some? && port.value != reported {
          kill, reply := Halt("companion-port-mismatch");
        } else {
          ready := true;
          status := Running(reported);
        }
      }
    }

    method HandleProblem(code: string) returns (reply: Option<Reply>)
      modifies this
      ensures Effect(Snapshot(), false, reply) == OnProblem(old(Snapshot()), code)
    {
      if code == "policy-expired" {
        expired := true;
      }
      reply := TakePending(Err(code));
      lastError := Some(code);
    }

    method OnExit(installed: nat) returns (cleanup: bool, reply: Option<Reply>)
      modifies this
      ensures old(generation) != installed ==> Snapshot() == old(Snapshot()) && !cleanup && reply.None?
      ensures old(generation) == installed ==>
                && Effect(Snapshot(), false, reply) == Exited(old(Snapshot()))
                && cleanup == Unrequested(old(Snapshot()))
    {
      if generation != installed {
        return false, None;
      }
      generation := generation + 1;
      process := None;
      reply := TakePending(Err("companion-exited"));
      var requested := terminal == Some(Disabled);
      var ended: Status;
      if terminal.Some? {
        ended := terminal.value;
        terminal := None;
      } else if expired {
        ended := Disabled;
      } else if !ready {
        ended := Failed(if lastError.Some? then lastError.value else "companion-exited");
      } else {
        ended := Failed("companion-crashed");
      }
      status := ended;
      cleanup := !requested;
    }

    /** The first section of `stop`; true when a process was told to shut down. */
    method Stop() returns (told: bool)
      modifies this
      ensures told == old(process).Some?
      ensures Snapshot() == Stopped(old(Snapshot()))
    {
      if process.None? {
        generation := generation + 1;
        status := Disabled;
        return false;
      }
      process := Some(Process(false));
      terminal := Some(Disabled);
      status := Stopping;
      told := true;
    }

    method Fail(code: string) returns (kill: bool, reply: Option<Reply>)
      modifies this
      ensures Effect(Snapshot(), kill, reply) == FailedFromOutside(old(Snapshot()), code)
    {
      if process.None? || !(status.Starting? || status.Running?) {
        return false, None;
      }
      kill, reply := Halt(code);
    }

    method ClearFailure()
      modifies this
      ensures Snapshot() == Cleared(old(Snapshot()))
    {
      if process.None? && status.Failed? {
        status := Disabled;
      }
    }

    method Request(id: nat, want: Want) returns (sent: bool)
      modifies this
      ensures sent == MayAsk(old(Snapshot()))
      ensures Snapshot() == if sent then old(Snapshot()).(pending := Some(Pending(id, want))) else old(Snapshot())
    {
      if process.None? || !status.Running? {
        return false;
      }
      pending := Some(Pending(id, want));
      sent := true;
    }

    method Timeout(asked: nat) returns (kill: bool, reply: Option<Reply>)
      modifies this
      ensures Effect(Snapshot(), kill, reply) == GivenUp(old(Snapshot()), asked)
    {
      pending := None;
      kill, reply := false, None;
      if generation == asked {
        kill, reply := Halt("companion-timeout");
      }
    }
  }
}
