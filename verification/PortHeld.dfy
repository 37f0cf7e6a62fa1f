/** From the signal that tells a gateway to go until it is gone nothing forwards to its port. */
module PortHeld {
  import opened Wrappers
  import opened Takedown
  import opened TakedownSafety
  import GR = GatewayRuns
  import N = Node

  /** The holder of `ops` will not tell the node to serve a gateway that is leaving. */
  predicate Barred(w: World) {
    match w.ops
    case EnableReady(before, _) => before < w.leaving
    case EnableGate(before, _, _) => before < w.leaving
    case EnableCheck(before, _, _) => before < w.leaving
    case EnableServe(_) => false
    case EnableAnswer(_) => false
    case EnableConfirm(_) => false
    case _ => true
  }

  /** While it is still there, the node is quiet and stays so. */
  ghost predicate Held(w: World, gen: nat) {
    gen in w.gw.installed && (Installed(w, gen) ==> Settled(w) && Barred(w))
  }

  /** The gateway that a signal is for. */
  function Signalled(w: World, a: Action): nat {
    match a
    case CloserActs(id) => if id in w.closers then w.closers[id].gen else 0
    case StopKills => if w.ops.DisableGateway? then w.ops.gen else 0
    case _ => w.gw.inner.generation
  }

  lemma SignalHolds(w: World, a: Action)
    requires Inv(w) && Enabled(w, a) && Signals(w, a)
    ensures Held(w, Signalled(w, a))
  {
    assert GR.Generations(w.gw);
  }

  /** What others than the holder of `ops` do: the node stays settled, the leaving count only grows. */
  ghost predicate OnlyQuiets(w: World, v: World) {
    && v.gw.installed == w.gw.installed
    && (v.gw.inner.process.Some? ==> w.gw.inner.process.Some? && v.gw.inner.generation == w.gw.inner.generation)
    && (Settled(w) ==> Settled(v)) && v.ops == w.ops && w.leaving <= v.leaving
  }

  lemma QuietsHold(w: World, v: World, gen: nat)
    requires Held(w, gen) && OnlyQuiets(w, v)
    ensures Held(v, gen)
  {
  }

  lemma GatewayHolds(w: World, a: Action)
    requires Inv(w) && Enabled(w, a) && (a.Gateway? || a.FailGateway?)
    ensures OnlyQuiets(w, Do(w, a))
  {
    var from := if a.Gateway? then w else w.(fails := w.fails - 1);
    var g := if a.Gateway? then a.a else GR.FailNow(a.why);
    SupervisedGrows(from, g);
    assert Do(w, a) == Supervised(from, g);
    hide Do, Enabled, Supervised, Inv;
  }

  lemma NodeHolds(w: World, a: Action)
    requires Enabled(w, a) && OfNode(a)
    ensures OnlyQuiets(w, Do(w, a))
  {
    if a.NodeHears? { HearsReads(w); }
  }

  lemma CloserHolds(w: World, a: Action)
    requires Guard(w) && Enabled(w, a) && OfCloser(a)
    ensures OnlyQuiets(w, Do(w, a))
  {
    if a.CloserUnserves? { UnservedMeans(w, w.closers[a.id].stage.u, a.sent); }
  }

  lemma TakeHolds(w: World, job: Job, gen: nat)
    requires Guard(w) && MayTake(w, job) && Held(w, gen)
    ensures Held(Taken(w, job), gen)
  {
    StopKeeps(w);
    hide Guard;
  }

  /** What the holder of `ops` does where it may let the node go, or start it. */
  ghost predicate Turns(w: World, v: World) {
    && v.gw == w.gw && (Settled(w) ==> Settled(v)) && (Barred(w) ==> Barred(v))
  }

  lemma TurnsHold(w: World, v: World, gen: nat)
    requires Held(w, gen) && Turns(w, v)
    ensures Held(v, gen)
  {
  }

  /** Phases of an enable that leave the node alone. */
  lemma EnableTurns(w: World, a: Action)
    requires a.Advance? && MayAdvance(w, a)
    requires w.ops.EnableNode? || w.ops.EnableCert? || w.ops.EnableSave? || w.ops.EnableCount?
             || w.ops.EnableReady? || w.ops.EnableGate? || w.ops.EnableCheck?
    ensures Turns(w, Advanced(w, a))
  {
  }

  lemma StartTurns(w: World, a: Action)
    requires SideState(w) && Handshake(w) && a.Advance? && MayAdvance(w, a) && w.ops.EnableStart?
    ensures Turns(w, Advanced(w, a))
  {
    StartKeeps(w, N.Enable);
    hide StartNode, Handshake;
  }

  /** Past a `serve` no gateway that is installed is held. */
  lemma ServedHolds(w: World, a: Action, gen: nat)
    requires a.Advance? && MayAdvance(w, a) && Held(w, gen)
    requires w.ops.EnableServe? || w.ops.EnableAnswer? || w.ops.EnableConfirm?
    ensures Held(Advanced(w, a), gen)
  {
  }

  /** Phases that act on the gateway supervisor. */
  lemma SupervisorHolds(w: World, a: Action, gen: nat)
    requires Inv(w) && a.Advance? && MayAdvance(w, a) && Held(w, gen)
    requires w.ops.EnableInputs? || w.ops.EnableLaunch? || w.ops == Disable(Quieted)
    ensures Held(Advanced(w, a), gen)
  {
    var g := if w.ops.EnableInputs? then GR.Clear else if w.ops.EnableLaunch? then GR.Begin else GR.Stop;
    if GR.Enabled(w.gw, g) { SupervisedGrows(w, g); }
    hide Guard, GR.Inv, GR.Do;
  }

  lemma SpawnHolds(w: World, a: Action, gen: nat)
    requires Inv(w) && a.Advance? && MayAdvance(w, a) && Held(w, gen) && w.ops.EnableSpawn?
    ensures Held(Advanced(w, a), gen)
  {
    if !a.works || (w.gw.launch.Launch? && w.gw.launch.list.None?) {
      RefuseHolds(w, a, gen);
    } else {
      InstallHolds(w, a, gen);
    }
  }

  lemma RefuseHolds(w: World, a: Action, gen: nat)
    requires Inv(w) && a.Advance? && MayAdvance(w, a) && Held(w, gen) && w.ops.EnableSpawn?
    requires !a.works || (w.gw.launch.Launch? && w.gw.launch.list.None?)
    ensures Held(Advanced(w, a), gen)
  {
    SupervisedGrows(w, if a.works then GR.LoadList else GR.RefuseStart("companion-unavailable"));
    hide Guard, GR.Inv, GR.Do;
  }

  /** What is created is a newer gateway, and the one that was signalled is gone. */
  lemma InstallHolds(w: World, a: Action, gen: nat)
    requires Inv(w) && a.Advance? && MayAdvance(w, a) && Held(w, gen) && w.ops.EnableSpawn?
    requires a.works && !(w.gw.launch.Launch? && w.gw.launch.list.None?)
    ensures Held(Advanced(w, a), gen)
  {
    assert GR.Generations(w.gw);
    hide Guard, GR.Inv;
  }

  lemma LoginHolds(w: World, a: Action, gen: nat)
    requires Inv(w) && a.Advance? && MayAdvance(w, a) && Held(w, gen) && w.ops.LoginStart?
    ensures Held(Advanced(w, a), gen)
  {
    var cleared := Supervised(w, GR.Clear);
    LoginMeans(w, a);
    hide Advanced, MayAdvance;
    SupervisedGrows(w, GR.Clear);
    GrownKeeps(w, cleared);
    StartKeeps(cleared, N.Login);
    hide Guard, GR.Inv, Supervised, StartNode;
    var started := if Starts(w, a.created) then StartNode(cleared, N.Login) else cleared;
    LoggedInHolds(w, cleared, started, Advanced(w, a), gen);
  }

  lemma LoggedInHolds(w: World, cleared: World, started: World, v: World, gen: nat)
    requires Held(w, gen) && Grown(w, cleared) && started.gw == cleared.gw && started.leaving == cleared.leaving
    requires (Settled(cleared) ==> Settled(started)) && v == started.(ops := Free)
    ensures Held(v, gen)
  {
  }

  lemma UnservingHolds(w: World, a: Action, gen: nat)
    requires Guard(w) && a.Advance? && MayAdvance(w, a) && Held(w, gen)
    requires (w.ops.Disable? || w.ops.Cleanup?) && !w.ops.u.Quieted? && !(w.ops.Cleanup? && w.ops.u.MustStop?)
    ensures Held(Advanced(w, a), gen)
  {
    UnservedMeans(w, w.ops.u, a.works);
    hide Guard;
  }

  /** Phases that stop the node, or may. */
  predicate Stoppers(op: Op) {
    || op.DisableNode? || op.Remembered? || op.LogoutStop? || op.LogoutEnd?
    || (op.Cleanup? && (op.u.Quieted? || op.u.MustStop?))
  }

  lemma StopperMeans(w: World, a: Action)
    requires a.Advance? && MayAdvance(w, a) && Stoppers(w.ops)
    ensures var v := Advanced(w, a);
            && v.gw == w.gw && Barred(v)
            && (v.node == StopNode(w).node || v.node == w.node)
  {
  }

  lemma StopperTurns(w: World, a: Action)
    requires SideState(w) && Handshake(w) && a.Advance? && MayAdvance(w, a) && Stoppers(w.ops)
    ensures Turns(w, Advanced(w, a))
  {
    StopperMeans(w, a);
    StopKeeps(w);
    hide Advanced, MayAdvance, StopNode, SideState, Handshake;
  }

  /** Phases in which the node is neither started nor stopped, and not told to serve. */
  predicate Bystanders(op: Op) {
    || op.DisableGateway? || op.Remember? || op.RememberWrite? || op.SetWrite? || op.Stopping?
    || op.LogoutWait? || op.LogoutRemove? || op.LogoutForget?
  }

  lemma BystanderTurns(w: World, a: Action)
    requires a.Advance? && MayAdvance(w, a) && Bystanders(w.ops)
    ensures Turns(w, Advanced(w, a))
  {
    if Writes(w.ops) { WriterTurns(w, a); }
  }

  lemma WriterTurns(w: World, a: Action)
    requires a.Advance? && MayAdvance(w, a) && Writes(w.ops)
    ensures Turns(w, Advanced(w, a))
  {
  }

  lemma LogoutTurns(w: World, a: Action)
    requires SideState(w) && Handshake(w) && a.Advance? && MayAdvance(w, a) && (w.ops.LogoutStart? || w.ops.LogoutNode?)
    ensures Turns(w, Advanced(w, a))
  {
    StartKeeps(w, N.Logout);
    hide StartNode, Handshake, SideState;
  }

  lemma AdvanceHolds(w: World, a: Action, gen: nat)
    requires Inv(w) && a.Advance? && MayAdvance(w, a) && Held(w, gen)
    ensures Held(Advanced(w, a), gen)
  {
    assert !w.ops.Free? && SideState(w) && Handshake(w);
    hide Advanced, MayAdvance, Guard, GR.Inv, Held, Turns, SideState, Handshake;
    if w.ops.EnableInputs? || w.ops.EnableLaunch? || w.ops == Disable(Quieted) { SupervisorHolds(w, a, gen); }
    else if w.ops.EnableSpawn? { SpawnHolds(w, a, gen); }
    else if w.ops.LoginStart? { LoginHolds(w, a, gen); }
    else if w.ops.EnableServe? || w.ops.EnableAnswer? || w.ops.EnableConfirm? { ServedHolds(w, a, gen); }
    else if (w.ops.Disable? || w.ops.Cleanup?) && !Stoppers(w.ops) { UnservingHolds(w, a, gen); }
    else {
      if w.ops.EnableStart? { StartTurns(w, a); }
      else if w.ops.LogoutStart? || w.ops.LogoutNode? { LogoutTurns(w, a); }
      else if Stoppers(w.ops) { StopperTurns(w, a); }
      else if Bystanders(w.ops) { BystanderTurns(w, a); }
      else { EnableTurns(w, a); }
      TurnsHold(w, Advanced(w, a), gen);
    }
  }

  lemma StopKillsHolds(w: World, a: Action, gen: nat)
    requires Enabled(w, a) && a.StopKills? && Held(w, gen)
    ensures Held(Do(w, a), gen)
  {
  }

  lemma HeldStep(w: World, a: Action, gen: nat)
    requires Inv(w) && Enabled(w, a) && Held(w, gen)
    ensures Held(Do(w, a), gen)
  {
    assert a.Advance? ==> Do(w, a) == Advanced(w, a);
    assert a.Take? ==> Do(w, a) == Taken(w, a.job);
    hide Do, Guard, GR.Inv, Held, Taken, Advanced, OnlyQuiets;
    if a.Gateway? || a.FailGateway? { GatewayHolds(w, a); QuietsHold(w, Do(w, a), gen); }
    else if OfNode(a) { NodeHolds(w, a); QuietsHold(w, Do(w, a), gen); }
    else if OfCloser(a) { CloserHolds(w, a); QuietsHold(w, Do(w, a), gen); }
    else if a.Take? { TakeHolds(w, a.job, gen); }
    else if a.Advance? { AdvanceHolds(w, a, gen); }
    else { StopKillsHolds(w, a, gen); }
  }

  lemma {:induction false} HeldOn(ws: seq<World>, acts: seq<Action>, i: nat, k: nat, gen: nat)
    requires Run(ws, acts) && i <= k < |ws| && Held(ws[i], gen)
    ensures Held(ws[k], gen)
  {
    hide Do, Enabled, Inv, Held;
    if i < k {
      HeldOn(ws, acts, i, k - 1, gen);
      RunKeeps(ws, acts, k - 1);
      HeldStep(ws[k - 1], acts[k - 1], gen);
    }
  }

  /** A gateway that was told to shut down, or killed, holds its port until it is gone; all that time
      nothing forwards to it, nor will before it is gone: in every run of enable, disable, login,
      logout, expiry, halts, deadlines, crashes and late frames. */
  lemma QuietUntilGone(ws: seq<World>, acts: seq<Action>, i: nat, k: nat)
    requires Run(ws, acts) && i < |acts| && i <= k < |ws| && Signals(ws[i], acts[i])
    requires Installed(ws[k], Signalled(ws[i], acts[i]))
    ensures Quiet(ws[k].side)
  {
    RunKeeps(ws, acts, i);
    SignalHolds(ws[i], acts[i]);
    HeldOn(ws, acts, i, k, Signalled(ws[i], acts[i]));
    RunKeeps(ws, acts, k);
    SettledIsQuiet(ws[k]);
  }
}
