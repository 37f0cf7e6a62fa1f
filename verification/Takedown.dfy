/** The Companion's take-down protocol: the gateway supervisor, the node supervisor, the
    sidecar behind its two pipes, and the orchestration between them
    (src-tauri/src/companion_commands.rs, src-tauri/companion-net/main.go and node.go).

    An action is one critical section, one write or one sidecar command; every interleaving
    of them is a run. A wait is left either when its poll decides or, at any time, by its
    deadline, so no bound on time is assumed. */
module Takedown {
  import opened Wrappers
  import G = Gateway
  import GR = GatewayRuns
  import N = Node
  import D = Devices

  // ---------- the state ----------

  /** The sidecar of the current node process: what is in its two pipes, and the proxy
      secret of the gateway it forwards to while its listener is open. */
  datatype Sidecar = Sidecar(alive: bool, commands: seq<N.Frame>, events: seq<N.Event>, service: Option<nat>)

  const NO_SIDECAR := Sidecar(false, [], [], None)

  /** `NetManager::unserve` and the stop that follows one that is not confirmed. */
  datatype Unserving = Asking | Waiting | Doubting | MustStop | Quieted

  /** The task of a gateway that begins to leave: `closing`, then its kill or its shutdown. */
  datatype Stage = New | Queued | Holding(u: Unserving) | Acting
  datatype Closer = Closer(gen: nat, kill: bool, stage: Stage)

  datatype Holder = NoOne | Enabling | Closing(id: nat)

  datatype Settings = Settings(net: Option<N.Identity>, rest: nat)

  /** What the holder of `ops` is about to do. */
  datatype Op =
    | Free
    // bring_up
    | EnableInputs
    | EnableStart(loaded: Settings)
    | EnableNode(loaded: Settings)
    | EnableCert(loaded: Settings, node: N.Identity)
    | EnableSave(loaded: Settings, node: N.Identity)
    | EnableCount
    | EnableLaunch(before: nat)
    | EnableSpawn(before: nat)
    | EnableReady(before: nat, gen: nat)
    | EnableGate(before: nat, gen: nat, port: nat)
    | EnableCheck(before: nat, gen: nat, port: nat)
    | EnableServe(gen: nat)
    | EnableAnswer(gen: nat)
    | EnableConfirm(gen: nat)
    // disable
    | Disable(u: Unserving)
    | DisableGateway(gen: nat, kill: bool)
    | DisableNode
    // the cleanup after an exit nobody asked for
    | Cleanup(u: Unserving)
    // a notice of the node
    | Remember(ran: bool)
    | RememberWrite(ran: bool, seen: Option<N.Identity>)
    | Remembered(ran: bool)
    // login, cancel, logout
    | LoginStart
    | LogoutStop
    | LogoutStart
    | LogoutNode
    | LogoutWait
    | LogoutEnd(done: bool)
    | LogoutRemove
    | LogoutForget
    // a settings command
    | SetWrite(rest: nat)
    // the bounded wait of a last `stop`
    | Stopping

  datatype Job =
    | EnableJob | DisableJob | CleanupJob | RememberJob(ran: bool) | LoginJob | CancelJob | LogoutJob
    | SetJob(rest: nat)

  /** `wanted` (the last value a settings command asked for) and `clean` (no settings write
      has failed) are history. */
  datatype World = World(
    gw: GR.Machine,
    node: N.Inner,
    side: Sidecar,
    ops: Op,
    serving: Holder,
    leaving: nat,
    closers: map<nat, Closer>,
    nextCloser: nat,
    cleanups: nat,
    fails: nat,
    ran: nat,
    mustLogIn: nat,
    settings: Settings,
    wanted: nat,
    clean: bool)

  /** What the environment decides of a step of the holder of `ops`: whether its own call works or
      its wait comes out well, whether the sidecar is found and its process created, how a write
      goes, and the gateway's port. */
  datatype Action =
    | Gateway(a: GR.Action)
    | FailGateway(why: string)
    | SideCommand(works: bool)
    | SideSays(event: N.Event)
    | SideDies
    | NodeHears
    | NodeExits
    | NodeLeaves
    | CloserCounts(id: nat)
    | CloserLocks(id: nat)
    | CloserUnserves(id: nat, sent: bool)
    | CloserReleases(id: nat)
    | CloserActs(id: nat)
    | Take(job: Job)
    | StopKills
    | Advance(works: bool, found: bool, created: bool, write: D.WriteOutcome, port: Option<nat>)

  // ---------- the node's side ----------

  predicate HasServe(commands: seq<N.Frame>) {
    exists k :: 0 <= k < |commands| && commands[k].Serve?
  }

  /** Nothing forwards to a gateway's port, nor will before the node is told otherwise: the
      sidecar is gone, has been told to shut down, or has neither a listener nor a `serve`
      to come. */
  predicate Quiet(side: Sidecar) {
    || !side.alive
    || N.Shutdown in side.commands
    || (side.service.None? && !HasServe(side.commands))
  }

  /** A frame reaches the pipe of a sidecar that lives. */
  function Written(side: Sidecar, frame: N.Frame): Sidecar {
    if side.alive then side.(commands := side.commands + [frame]) else side
  }

  /** Whether a write reports success: it does while the sidecar lives, and may do so for a
      while after. */
  predicate WriteAnswer(w: World, sent: bool) {
    && (sent ==> w.node.process.Some?)
    && (w.node.process.Some? && w.side.alive ==> sent)
  }

  function StopNode(w: World): World {
    if w.node.process.None? then w
    else w.(node := N.ToldToStop(w.node), side := Written(w.side, N.Shutdown))
  }

  function StartNode(w: World, mode: N.Mode): World {
    if w.node.process.Some? then w.(node := N.TakenOver(w.node, mode))
    else w.(node := N.Spawned(w.node, mode), side := Sidecar(true, [], [], None))
  }

  function Gone(side: Sidecar): Sidecar {
    side.(alive := false, commands := [], service := None)
  }

  /** One command of the sidecar's loop. */
  function Commanded(side: Sidecar, works: bool): Sidecar
    requires side.commands != []
  {
    var rest := side.(commands := side.commands[1..]);
    match side.commands[0]
    case Serve(secret) =>
      if side.service.Some? then rest.(events := side.events + [N.Problem("net-serve-invalid")])
      else if !works then rest.(events := side.events + [N.Problem("net-not-ready")])
      else rest.(service := Some(secret), events := side.events + [N.Serving])
    case Unserve => rest.(service := None, events := side.events + [N.Unserved])
    case LogOut =>
      if works then Gone(rest.(events := side.events + [N.LoggedOut]))
      else rest.(events := side.events + [N.Problem("net-logout-failed")])
    case Shutdown => Gone(rest)
  }

  function Noticed(w: World, notice: Option<N.Notice>): World {
    if notice.None? then w
    else if notice.value.RunningNotice? then w.(ran := w.ran + 1)
    else w.(mustLogIn := w.mustLogIn + 1, fails := w.fails + 1)
  }

  function HearFirst(w: World): World
    requires w.side.events != []
  {
    var event := w.side.events[0];
    var read := w.(side := w.side.(events := w.side.events[1..]));
    if w.node.requested then read
    else Noticed(read.(node := N.Heard(w.node, event)), N.NoticeOf(w.node, event))
  }

  function NodeGone(w: World): World {
    w.(node := N.Exited(w.node), side := NO_SIDECAR,
       fails := if N.Requested(w.node) then w.fails else w.fails + 1)
  }

  /** One step of `unserve`, for whoever performs it. */
  function Unserved(w: World, u: Unserving, sent: bool): (World, Unserving) {
    match u
    case Asking =>
      if !w.node.serveSent then (w, Quieted)
      else if sent then (w.(side := Written(w.side, N.Unserve)), Waiting)
      else (w, Doubting)
    case Waiting => (w, if w.node.serveSent then Doubting else Quieted)
    case Doubting => (w, if w.node.process.None? then Quieted else MustStop)
    case MustStop => (StopNode(w), Quieted)
    case Quieted => (w, Quieted)
  }

  // ---------- the gateway's side ----------

  /** Actions of the gateway supervisor nobody here decides. */
  predicate Spontaneous(a: GR.Action) {
    a.Watch? || a.Check? || a.Peek? || a.Write? || a.Apply? || a.Exit? || a.Ask? || a.Elapse? || a.GiveUp? || a.Collect?
    || a.PushAnswer? || a.Rekey?
  }

  function Born(w: World, gen: nat, kill: bool): World {
    w.(closers := w.closers[w.nextCloser := Closer(gen, kill, New)], nextCloser := w.nextCloser + 1)
  }

  function Supervised(w: World, a: GR.Action): World
    requires GR.Enabled(w.gw, a)
  {
    Absorbed(w, GR.Do(w.gw, a))
  }

  /** The new state of the supervisor, with the tasks it has left for others. */
  function Absorbed(w: World, o: GR.Outcome): World {
    var gen := w.gw.inner.generation;
    var speaker := if w.gw.flight.Flight? then w.gw.flight.gen else 0;
    var base := w.(gw := o.machine, cleanups := if o.cleanup then w.cleanups + 1 else w.cleanups);
    var killed := if o.kill then Born(base, gen, true) else base;
    if o.expiring then Born(killed, speaker, false) else killed
  }

  predicate Installed(w: World, gen: nat) {
    w.gw.inner.process.Some? && w.gw.inner.generation == gen
  }

  // ---------- the holder of `ops` ----------

  function Fallen(w: World): World {
    w.(ops := Disable(Asking), serving := if w.serving == Enabling then NoOne else w.serving)
  }

  /** A settings write: it works, or leaves the old or the new file. */
  function Saved(w: World, next: Settings, outcome: D.WriteOutcome): World {
    match outcome
    case Saved => w.(settings := next)
    case FailedOld(_) => w.(clean := false)
    case FailedNew(_) => w.(settings := next, clean := false)
  }

  function Taken(w: World, job: Job): World {
    match job
    case EnableJob => if G.Idle(w.gw.inner) then w.(ops := EnableInputs) else w
    case DisableJob => w.(ops := Disable(Asking))
    case CleanupJob =>
      w.(cleanups := if w.cleanups == 0 then 0 else w.cleanups - 1,
         ops := if G.Idle(w.gw.inner) then Cleanup(Asking) else Free)
    case RememberJob(ran) =>
      if ran then w.(ran := if w.ran == 0 then 0 else w.ran - 1, ops := Remember(true))
      else w.(mustLogIn := if w.mustLogIn == 0 then 0 else w.mustLogIn - 1, ops := Remember(false))
    case LoginJob => if G.Idle(w.gw.inner) then w.(ops := LoginStart) else w
    case CancelJob =>
      if w.node.process.Some? && w.node.process.value.mode == N.Login then StopNode(w).(ops := Stopping) else w
    case LogoutJob => if G.Idle(w.gw.inner) then w.(ops := LogoutStop) else w
    case SetJob(rest) => w.(ops := SetWrite(rest))
  }

  predicate MayTake(w: World, job: Job) {
    && w.ops.Free?
    && match job
       case CleanupJob => w.cleanups > 0
       case RememberJob(ran) => if ran then w.ran > 0 else w.mustLogIn > 0
       case _ => true
  }

  predicate MayAdvance(w: World, a: Action)
    requires a.Advance?
  {
    match w.ops
    case Free => false
    case EnableNode(_) => a.works ==> w.node.state.Running? && w.node.identity.Some? && w.node.https == Some(true)
    case EnableCert(_, _) =>
      a.works ==> !w.node.state.NeedsLogin? && !w.node.state.NeedsApproval? && w.node.certReady
    case EnableSpawn(_) =>
      if !a.works then GR.Enabled(w.gw, GR.RefuseStart("companion-unavailable"))
      else if w.gw.launch.Launch? && w.gw.launch.list.None? then GR.Enabled(w.gw, GR.LoadList)
      else GR.Enabled(w.gw, GR.InstallStart(a.port))
    case EnableReady(_, _) => a.works ==> w.gw.inner.status.Running?
    case EnableGate(_, _, _) => w.serving == NoOne
    case EnableServe(_) => WriteAnswer(w, a.works)
    case EnableAnswer(_) => a.works ==> w.node.serving
    case Disable(Asking) => WriteAnswer(w, a.works)
    case Cleanup(Asking) => WriteAnswer(w, a.works)
    case LogoutWait => a.works ==> w.node.loggedOut
    case LogoutStart => a.works ==> w.node.identity.Some?
    case LogoutNode => a.works ==> w.node.state.Running?
    case _ => true
  }

  /** `net.start` fails while a process that was told to stop has not ended, and when a new
      one cannot be created. */
  predicate Starts(w: World, created: bool) {
    !w.node.requested && (w.node.process.Some? || created)
  }

  function EnableSpawned(w: World, before: nat, a: Action): World
    requires a.Advance? && w.ops == EnableSpawn(before) && MayAdvance(w, a)
  {
    if !a.works then Fallen(Supervised(w, GR.RefuseStart("companion-unavailable")))
    else if w.gw.launch.Launch? && w.gw.launch.list.None? then Supervised(w, GR.LoadList)
    else
      var next := Supervised(w, GR.InstallStart(a.port));
      if next.gw.inner.process.Some? then next.(ops := EnableReady(before, next.gw.inner.generation))
      else Fallen(next)
  }

  function Advanced(w: World, a: Action): World
    requires a.Advance? && MayAdvance(w, a)
  {
    match w.ops
    case EnableInputs =>
      if !a.works then w.(ops := Free)
      else Supervised(w, GR.Clear).(ops := EnableStart(w.settings))
    case EnableStart(loaded) =>
      if Starts(w, a.created) then StartNode(w, N.Enable).(ops := EnableNode(loaded)) else Fallen(w)
    case EnableNode(loaded) =>
      if !a.works then Fallen(w) else w.(ops := EnableCert(loaded, w.node.identity.value))
    case EnableCert(loaded, node) => if !a.works then Fallen(w) else w.(ops := EnableSave(loaded, node))
    case EnableSave(loaded, node) =>
      var saved := Saved(w, loaded.(net := Some(node)), a.write);
      if a.write.Saved? then saved.(ops := EnableCount) else Fallen(saved)
    case EnableCount => w.(ops := EnableLaunch(w.leaving))
    case EnableLaunch(before) =>
      if GR.Enabled(w.gw, GR.Begin) then Supervised(w, GR.Begin).(ops := EnableSpawn(before)) else Fallen(w)
    case EnableSpawn(before) => EnableSpawned(w, before, a)
    case EnableReady(before, gen) =>
      if !a.works then Fallen(w) else w.(ops := EnableGate(before, gen, w.gw.inner.status.port))
    case EnableGate(before, gen, port) => w.(ops := EnableCheck(before, gen, port), serving := Enabling)
    case EnableCheck(before, gen, port) =>
      if w.leaving != before || w.gw.inner.status != G.Running(port) then Fallen(w)
      else w.(ops := EnableServe(gen))
    case EnableServe(gen) =>
      var written := w.(node := N.ServeWritten(w.node, a.works),
                        side := if a.works then Written(w.side, N.Serve(gen)) else w.side);
      if a.works then written.(ops := EnableAnswer(gen)) else Fallen(written)
    case EnableAnswer(gen) => if !a.works then Fallen(w) else w.(ops := EnableConfirm(gen))
    case EnableConfirm(gen) =>
      if w.gw.inner.status.Running? then w.(ops := Free, serving := NoOne) else Fallen(w)
    case Disable(u) =>
      if u.Quieted? then
        var kill := w.gw.inner.process.Some? && w.gw.inner.process.value.kill;
        Supervised(w, GR.Stop).(ops := DisableGateway(w.gw.inner.generation, kill))
      else
        var (next, v) := Unserved(w, u, a.works);
        next.(ops := Disable(v))
    case DisableGateway(_, _) => w.(ops := DisableNode)
    case DisableNode => StopNode(w).(ops := Stopping)
    case Cleanup(u) =>
      if u.Quieted? || u.MustStop? then StopNode(w).(ops := Stopping)
      else
        var (next, v) := Unserved(w, u, a.works);
        next.(ops := Cleanup(v))
    case Remember(ran) => w.(ops := RememberWrite(ran, w.node.identity))
    case RememberWrite(ran, seen) =>
      (if w.settings.net == seen then w else Saved(w, w.settings.(net := seen), a.write)).(ops := Remembered(ran))
    case Remembered(ran) =>
      if ran && w.node.process.Some? && w.node.process.value.mode == N.Login then StopNode(w).(ops := Stopping)
      else w.(ops := Free)
    case LoginStart =>
      var cleared := Supervised(w, GR.Clear);
      (if Starts(w, a.created) then StartNode(cleared, N.Login) else cleared).(ops := Free)
    case LogoutStop => StopNode(w).(ops := LogoutStart)
    case LogoutStart =>
      // Not registered: there is nothing to ask. Else the sidecar may not be found.
      if !a.works then w.(ops := LogoutRemove)
      else if !a.found then w.(ops := Free)
      else if Starts(w, a.created) then StartNode(w, N.Logout).(ops := LogoutNode)
      else w.(ops := LogoutEnd(false))
    case LogoutNode =>
      if !a.works then w.(ops := LogoutEnd(w.node.state.NeedsLogin? || w.node.state.NeedsApproval?))
      else w.(node := w.node.(error := None), side := Written(w.side, N.LogOut), ops := LogoutWait)
    case LogoutWait => w.(ops := LogoutEnd(a.works))
    case LogoutEnd(done) => StopNode(w).(ops := if done then LogoutRemove else Stopping)
    case LogoutRemove =>
      if a.works then w.(node := w.node.(identity := None), ops := LogoutForget) else w.(ops := Free)
    case SetWrite(rest) => Saved(w, w.settings.(rest := rest), a.write).(wanted := rest, ops := Free)
    case LogoutForget => Saved(w, w.settings.(net := None), a.write).(ops := Free)
    case Stopping => w.(ops := Free)
  }

  // ---------- steps ----------

  predicate At(w: World, id: nat, stage: Stage) {
    id in w.closers && w.closers[id].stage == stage
  }

  predicate Enabled(w: World, a: Action) {
    match a
    case Gateway(g) =>
      GR.Enabled(w.gw, g) && (Spontaneous(g) || (g.EditStopped? && w.ops.Free?))
    case FailGateway(_) => w.fails > 0
    case SideCommand(_) => w.side.alive && w.side.commands != []
    case SideSays(event) => w.side.alive && !event.Serving? && !event.Unserved? && !event.LoggedOut?
    case SideDies => w.side.alive
    case NodeHears => w.node.process.Some? && w.side.events != []
    case NodeExits => w.node.process.Some? && !w.side.alive
    case NodeLeaves => w.node.process.Some?
    case CloserCounts(id) => At(w, id, New)
    case CloserLocks(id) => At(w, id, Queued) && w.serving == NoOne
    case CloserUnserves(id, sent) =>
      && id in w.closers && w.closers[id].stage.Holding? && !w.closers[id].stage.u.Quieted?
      && (w.closers[id].stage.u.Asking? ==> WriteAnswer(w, sent))
    case CloserReleases(id) => At(w, id, Holding(Quieted))
    case CloserActs(id) => At(w, id, Acting)
    case Take(job) => MayTake(w, job)
    case StopKills => w.ops.DisableGateway? && w.ops.kill
    case Advance(_, _, _, _, _) => MayAdvance(w, a)
  }

  function Staged(w: World, id: nat, stage: Stage): World
    requires id in w.closers
  {
    w.(closers := w.closers[id := w.closers[id].(stage := stage)])
  }

  function Do(w: World, a: Action): World
    requires Enabled(w, a)
  {
    match a
    case Gateway(g) => Supervised(w, g)
    case FailGateway(why) => Supervised(w.(fails := w.fails - 1), GR.FailNow(why))
    case SideCommand(works) => w.(side := Commanded(w.side, works))
    case SideSays(event) => w.(side := w.side.(events := w.side.events + [event]))
    case SideDies => w.(side := Gone(w.side))
    case NodeHears => HearFirst(w)
    case NodeExits => NodeGone(w)
    case NodeLeaves => w.(node := w.node.(leaving := true))
    case CloserCounts(id) => Staged(w, id, Queued).(leaving := w.leaving + 1)
    case CloserLocks(id) => Staged(w, id, Holding(Asking)).(serving := Closing(id))
    case CloserUnserves(id, sent) =>
      var (next, u) := Unserved(w, w.closers[id].stage.u, sent);
      Staged(next, id, Holding(u))
    case CloserReleases(id) => Staged(w, id, Acting).(serving := NoOne)
    case CloserActs(id) => w.(closers := w.closers - {id})
    case Take(job) => Taken(w, job)
    case StopKills => w.(ops := w.ops.(kill := false))
    case Advance(_, _, _, _, _) => Advanced(w, a)
  }

  /** The action sends the running gateway its shutdown frame or its kill. */
  predicate Signals(w: World, a: Action) {
    match a
    case CloserActs(id) => id in w.closers && Installed(w, w.closers[id].gen)
    case StopKills => w.ops.DisableGateway? && Installed(w, w.ops.gen)
    case Advance(_, _, _, _, _) => w.ops == Disable(Quieted) && w.gw.inner.process.Some?
    case _ => false
  }

  ghost predicate Start(w: World) {
    && GR.Start(w.gw)
    && w.node == N.Initial(w.settings.net) && w.side == NO_SIDECAR
    && w.ops.Free? && w.serving.NoOne? && w.closers == map[]
    && w.cleanups == 0 && w.fails == 0 && w.ran == 0 && w.mustLogIn == 0
    && w.wanted == w.settings.rest && w.clean
  }
}
