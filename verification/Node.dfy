/** The node supervisor's locked state and its critical sections
    (src-tauri/src/companion_net.rs). Each function is what one section does while it holds
    the lock of `inner`; class `NetManager` performs it in place. */
module Node {
  import opened Wrappers

  datatype Mode = Login | Enable | Logout

  datatype State = Stopped | Starting | NeedsLogin | NeedsApproval | Running | Failed

  datatype Identity = Identity(dnsName: string, login: string)

  /** What Yuzora writes to the sidecar. A `serve` carries the proxy secret of one enable. */
  datatype Frame = Serve(secret: nat) | Unserve | LogOut | Shutdown

  datatype Backend = BackendNeedsLogin | BackendRunning | BackendNeedsApproval | BackendOther

  /** What the sidecar writes. `Ignored` stands for frames that change nothing here. */
  datatype Event =
    | Backend(backend: Backend)
    | LoginRequired
    | Runs(identity: Identity, https: bool)
    | Cert(ready: bool)
    | Serving
    | Unserved
    | LoggedOut
    | Problem(code: string)
    | Ignored

  datatype Notice = RunningNotice | LoginNotice

  datatype Process = Process(mode: Mode, kill: bool)

  datatype Inner = Inner(
    state: State,
    generation: nat,
    process: Option<Process>,
    identity: Option<Identity>,
    https: Option<bool>,
    certReady: bool,
    serving: bool,
    serveSent: bool,
    error: Option<string>,
    loggedOut: bool,
    requested: bool,
    leaving: bool)

  function Initial(identity: Option<Identity>): Inner {
    Inner(Stopped, 0, None, identity, None, false, false, false, None, false, false, false)
  }

  /** A sidecar that runs stays; an enable takes over one that runs for a login or leaves. */
  function TakenOver(i: Inner, mode: Mode): Inner
    requires i.process.Some?
  {
    if mode == Enable && (i.process.value.mode == Login || i.leaving) then
      i.(process := Some(i.process.value.(mode := Enable)), leaving := false)
    else i
  }

  /** A new run: of all that the last one left, only the identity carries over. */
  function Spawned(i: Inner, mode: Mode): Inner {
    Initial(i.identity).(state := Starting, generation := i.generation + 1, process := Some(Process(mode, true)))
  }

  predicate Listens(i: Inner, generation: nat) {
    i.generation == generation && !i.requested
  }

  function Heard(i: Inner, event: Event): Inner {
    match event
    case Backend(BackendNeedsLogin) => i.(state := NeedsLogin, identity := None)
    case Backend(BackendRunning) => if i.https.None? then i else i.(state := Running)
    case Backend(BackendNeedsApproval) => i.(state := NeedsApproval)
    case Backend(BackendOther) => i.(state := Starting)
    case LoginRequired => i.(state := NeedsLogin, identity := None)
    case Runs(identity, https) => i.(identity := Some(identity), https := Some(https), state := Running)
    case Cert(ready) => i.(certReady := ready)
    case Serving => i.(serving := true)
    case Unserved => i.(serving := false, serveSent := false)
    case LoggedOut => i.(loggedOut := true)
    case Problem(code) => i.(error := Some(ErrorCode(code)))
    case Ignored => i
  }

  /** Events change neither the process nor what was asked of it; only `unserved` revokes. */
  lemma HeardKeeps(i: Inner, event: Event)
    ensures Heard(i, event).process == i.process && Heard(i, event).requested == i.requested
    ensures Heard(i, event).generation == i.generation
    ensures Heard(i, event).serveSent == (i.serveSent && !event.Unserved?)
  {
    hide ErrorCode;
    match event {
      case Backend(_) =>
      case Runs(_, _) =>
      case _ =>
    }
  }

  function NoticeOf(i: Inner, event: Event): Option<Notice> {
    match event
    case Runs(_, _) => Some(RunningNotice)
    case LoginRequired => if i.identity.Some? then Some(LoginNotice) else None
    case Backend(BackendNeedsLogin) => if i.identity.Some? then Some(LoginNotice) else None
    case _ => None
  }

  function ErrorCode(code: string): string {
    if code == "net-not-ready" || code == "net-serve-invalid" || code == "net-listen-failed" then
      "companion-net-serve-failed"
    else if code == "net-logout-failed" then "companion-net-logout-failed"
    else "companion-net-start-failed"
  }

  predicate Requested(i: Inner) {
    i.requested || i.loggedOut
  }

  function Exited(i: Inner): Inner {
    var gone := i.(generation := i.generation + 1, requested := false, process := None, https := None,
                   certReady := false, serving := false);
    if Requested(i) then gone.(state := Stopped, error := None)
    else gone.(state := Failed, error := if i.error.Some? then i.error else Some("companion-net-crashed"))
  }

  function ToldToStop(i: Inner): Inner {
    if i.process.None? then i
    else i.(process := Some(i.process.value.(kill := false)), requested := true)
  }

  function ServeWritten(i: Inner, sent: bool): Inner {
    i.(error := None, serveSent := sent)
  }

  /** `NetManager`, one method per critical section of `inner`. */
  class NetManager {
    var state: State
    var generation: nat
    var process: Option<Process>
    var identity: Option<Identity>
    var https: Option<bool>
    var certReady: bool
    var serving: bool
    var serveSent: bool
    var error: Option<string>
    var loggedOut: bool
    var requested: bool
    var leaving: bool

    function Snapshot(): Inner
      reads this
    {
      Inner(state, generation, process, identity, https, certReady, serving, serveSent, error, loggedOut,
            requested, leaving)
    }

    constructor (known: Option<Identity>)
      ensures Snapshot() == Initial(known)
    {
      state, generation, process, identity := Stopped, 0, None, known;
      new;
      Reset();
    }

    method Reset()
      modifies this
      ensures Snapshot() == Initial(identity).(state := state, generation := generation, process := process)
      ensures unchanged(`state) && unchanged(`generation) && unchanged(`process) && unchanged(`identity)
    {
      https, certReady, serving, serveSent := None, false, false, false;
      error, loggedOut, requested, leaving := None, false, false, false;
    }

    /** `works` is whether the process could be created. */
    method Start(mode: Mode, works: bool) returns (r: Result<()>)
      modifies this
      ensures r.Ok? <==> !old(requested) && (old(process).Some? || works)
      ensures r.Err? ==> Snapshot() == old(Snapshot())
      ensures r.Ok? && old(process).Some? ==> Snapshot() == TakenOver(old(Snapshot()), mode)
      ensures r.Ok? && old(process).None? ==> Snapshot() == Spawned(old(Snapshot()), mode)
    {
      if requested {
        return Err("companion-net-start-failed");
      }
      if process.Some? {
        if mode == Enable && (process.value.mode == Login || leaving) {
          process := Some(process.value.(mode := Enable));
          leaving := false;
        }
        return Ok(());
      }
      if !works {
        return Err("companion-net-start-failed");
      }
      Reset();
      state := Starting;
      generation := generation + 1;
      process := Some(Process(mode, true));
      r := Ok(());
    }

    method OnEvent(from: nat, event: Event) returns (notice: Option<Notice>)
      modifies this
      ensures !Listens(old(Snapshot()), from) ==> Snapshot() == old(Snapshot()) && notice.None?
      ensures Listens(old(Snapshot()), from) ==>
                && Snapshot() == Heard(old(Snapshot()), event)
                && notice == NoticeOf(old(Snapshot()), event)
    {
      notice := None;
      if generation != from || requested {
        return;
      }
      match event {
        case Backend(backend) =>
          match backend {
            case BackendNeedsLogin => notice := MustLogIn();
            case BackendRunning => if https.Some? { state := Running; }
            case BackendNeedsApproval => state := NeedsApproval;
            case BackendOther => state := Starting;
          }
        case LoginRequired => notice := MustLogIn();
        case Runs(who, capable) =>
          identity := Some(who);
          https := Some(capable);
          state := Running;
          notice := Some(RunningNotice);
        case Cert(ready) => certReady := ready;
        case Serving => serving := true;
        case Unserved =>
          serving := false;
          serveSent := false;
        case LoggedOut => loggedOut := true;
        case Problem(code) => error := Some(ErrorCode(code));
        case Ignored =>
      }
    }

    /** Any known identity is dropped, with a notice if there was one. */
    method MustLogIn() returns (notice: Option<Notice>)
      modifies this
      ensures Snapshot() == Heard(old(Snapshot()), LoginRequired)
      ensures notice == NoticeOf(old(Snapshot()), LoginRequired)
    {
      notice := if identity.Some? then Some(LoginNotice) else None;
      state := NeedsLogin;
      identity := None;
    }

    method OnExit(from: nat) returns (crashed: bool)
      modifies this
      ensures old(generation) != from ==> Snapshot() == old(Snapshot()) && !crashed
      ensures old(generation) == from ==>
                Snapshot() == Exited(old(Snapshot())) && crashed == !Requested(old(Snapshot()))
    {
      if generation != from {
        return false;
      }
      generation := generation + 1;
      var asked := requested || loggedOut;
      requested := false;
      process := None;
      https := None;
      certReady := false;
      serving := false;
      if asked {
        state := Stopped;
        error := None;
      } else {
        state := Failed;
        if error.None? {
          error := Some("companion-net-crashed");
        }
      }
      crashed := !asked;
    }

    /** The first section of `stop`; true when a shutdown frame went out. */
    method Stop() returns (told: bool)
      modifies this
      ensures told == old(process).Some? && Snapshot() == ToldToStop(old(Snapshot()))
    {
      if process.None? {
        return false;
      }
      process := Some(process.value.(kill := false));
      requested := true;
      told := true;
    }

    /** The write of `serve`; `sent` is whether the frame could be queued. */
    method Serve(sent: bool)
      requires sent ==> process.Some?
      modifies this
      ensures Snapshot() == ServeWritten(old(Snapshot()), sent)
    {
      error := None;
      serveSent := sent;
    }
  }
}
