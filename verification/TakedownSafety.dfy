/** Why the take-down protocol is safe, and why settings follow the node. */
module TakedownSafety {
  import opened Wrappers
  import opened Takedown
  import GR = GatewayRuns
  import N = Node

  // ---------- what is still to be answered ----------

  function Unserves(commands: seq<N.Frame>): nat {
    if commands == [] then 0 else (if commands[0].Unserve? then 1 else 0) + Unserves(commands[1..])
  }

  function Unserveds(events: seq<N.Event>): nat {
    if events == [] then 0 else (if events[0].Unserved? then 1 else 0) + Unserveds(events[1..])
  }

  function Unanswered(side: Sidecar): nat {
    Unserves(side.commands) + Unserveds(side.events)
  }

  lemma {:induction false} UnservesMore(commands: seq<N.Frame>, frame: N.Frame)
    ensures Unserves(commands + [frame]) == Unserves(commands) + (if frame.Unserve? then 1 else 0)
  {
    if commands == [] {
      assert commands + [frame] == [frame];
    } else {
      UnservesMore(commands[1..], frame);
      assert (commands + [frame])[1..] == commands[1..] + [frame];
    }
  }

  lemma {:induction false} UnservedsMore(events: seq<N.Event>, event: N.Event)
    ensures Unserveds(events + [event]) == Unserveds(events) + (if event.Unserved? then 1 else 0)
  {
    if events == [] {
      assert events + [event] == [event];
    } else {
      UnservedsMore(events[1..], event);
      assert (events + [event])[1..] == events[1..] + [event];
    }
  }

  lemma {:induction false} NoUnserves(commands: seq<N.Frame>)
    requires Unserves(commands) == 0
    ensures forall k :: 0 <= k < |commands| ==> !commands[k].Unserve?
  {
    if commands != [] { NoUnserves(commands[1..]); }
  }

  // ---------- the invariant ----------

  predicate NoService(side: Sidecar) {
    side.service.None? && !HasServe(side.commands)
  }

  /** The node's process, and that it has not been asked to stop. */
  predicate Heeding(w: World) {
    w.node.process.Some? && !w.node.requested
  }

  ghost predicate SideState(w: World) {
    && (w.node.process.None? ==> w.side == NO_SIDECAR && !w.node.requested)
    && (!w.side.alive ==> w.side.commands == [] && w.side.service.None?)
    && (w.node.requested ==> !w.side.alive || N.Shutdown in w.side.commands)
  }

  /** The handshake over the two pipes. */
  ghost predicate Handshake(w: World) {
    Heeding(w) ==>
      && (!w.node.serveSent ==> NoService(w.side))
      && (Unserveds(w.side.events) > 0 ==> NoService(w.side))
      && (forall i, j :: 0 <= i < j < |w.side.commands| ==>
            w.side.commands[i].Unserve? ==> !w.side.commands[j].Serve?)
  }

  /** Whoever holds `ops` will stop the node before letting go of it. */
  predicate Committed(op: Op) {
    op.Disable? || op.DisableGateway? || op.DisableNode? || op.Cleanup?
  }

  predicate AwaitsAnswer(w: World) {
    && w.serving.Closing? && w.serving.id in w.closers
    && (w.closers[w.serving.id].stage == Holding(Waiting)
        || w.closers[w.serving.id].stage == Holding(Doubting)
        || w.closers[w.serving.id].stage == Holding(MustStop))
  }

  ghost predicate Outstanding(w: World) {
    Heeding(w) && !Committed(w.ops) ==>
      Unanswered(w.side) == 0 || (Unanswered(w.side) == 1 && w.node.serveSent && AwaitsAnswer(w))
  }

  predicate HoldsServing(op: Op) {
    op.EnableCheck? || op.EnableServe? || op.EnableAnswer? || op.EnableConfirm?
  }

  ghost predicate Locks(w: World) {
    && (w.serving == Enabling <==> HoldsServing(w.ops))
    && (w.serving.Closing? ==> w.serving.id in w.closers && w.closers[w.serving.id].stage.Holding?)
    && (forall id :: id in w.closers ==>
          && id < w.nextCloser
          && w.closers[id].gen in w.gw.installed
          && (w.closers[id].stage.Holding? ==> w.serving == Closing(id)))
  }

  /** The gateway an enable has started, and the leaving count it compares with. */
  ghost predicate Launched(w: World, before: nat, gen: nat) {
    && Own(w, gen)
    && before <= w.leaving
    && forall id :: id in w.closers && w.closers[id].gen == gen && !w.closers[id].stage.New? ==> before < w.leaving
  }

  ghost predicate Own(w: World, gen: nat) {
    && gen in w.gw.installed
    && (w.gw.inner.process.Some? ==> w.gw.inner.generation == gen)
  }

  ghost predicate Unhurried(w: World, gen: nat) {
    && Own(w, gen)
    && forall id :: id in w.closers && w.closers[id].gen == gen ==>
         w.closers[id].stage.New? || w.closers[id].stage.Queued?
  }

  ghost predicate Enables(w: World) {
    match w.ops
    case EnableLaunch(before) => before <= w.leaving
    case EnableSpawn(before) => before <= w.leaving
    case EnableReady(before, gen) => Launched(w, before, gen)
    case EnableGate(before, gen, _) => Launched(w, before, gen)
    case EnableCheck(before, gen, _) => Launched(w, before, gen)
    case EnableServe(gen) => Unhurried(w, gen)
    case EnableAnswer(gen) => Unhurried(w, gen)
    case EnableConfirm(gen) => Unhurried(w, gen)
    case _ => true
  }

  /** The supervisor knows that nothing forwards: no `serve` is unrevoked, or the node is
      gone or told to stop. */
  predicate Settled(w: World) {
    w.node.process.None? || w.node.requested || !w.node.serveSent
  }

  ghost predicate Leavers(w: World) {
    && (forall id :: id in w.closers && Installed(w, w.closers[id].gen)
          && (w.closers[id].stage.Acting? || w.closers[id].stage == Holding(Quieted))
          ==> Settled(w))
    && (w.ops == Disable(Quieted) || w.ops.DisableGateway? || w.ops.DisableNode? ==> Settled(w))
  }

  ghost predicate Inv(w: World) {
    GR.Inv(w.gw) && Guard(w)
  }

  ghost predicate Guard(w: World) {
    && SideState(w) && Handshake(w) && Outstanding(w) && Locks(w) && Enables(w) && Leavers(w)
  }

  lemma InvStart(w: World)
    requires Start(w)
    ensures Inv(w)
  {
    GR.InvStart(w.gw);
  }

  /** What the supervisor knows is so. */
  lemma SettledIsQuiet(w: World)
    requires SideState(w) && Handshake(w) && Settled(w)
    ensures Quiet(w.side)
  {
  }

  // ---------- the gateway supervisor's actions ----------

  /** What the other parts see of them: at most the process ends, and closers are born. */
  ghost predicate Grown(w: World, v: World) {
    && v == w.(gw := v.gw, cleanups := v.cleanups, closers := v.closers, nextCloser := v.nextCloser)
    && v.gw.installed == w.gw.installed
    && (v.gw.inner.process.Some? ==> w.gw.inner.process.Some? && v.gw.inner.generation == w.gw.inner.generation)
    && (forall id :: id in w.closers ==> id in v.closers && v.closers[id] == w.closers[id])
    && w.nextCloser <= v.nextCloser
    && (forall id :: id in v.closers && id !in w.closers ==>
          && w.nextCloser <= id < v.nextCloser
          && v.closers[id].stage.New? && v.closers[id].gen in w.gw.installed)
  }

  lemma SupervisedGrows(w: World, a: GR.Action)
    requires GR.Inv(w.gw) && GR.Enabled(w.gw, a)
    requires Spontaneous(a) || a.FailNow? || a.Clear? || a.EditStopped?
             || a.Begin? || a.LoadList? || a.RefuseStart? || a.Stop?
    requires forall id :: id in w.closers ==> id < w.nextCloser
    ensures Grown(w, Supervised(w, a)) && GR.Inv(Supervised(w, a).gw)
  {
    GR.InvStep(w.gw, a);
    GR.OnlyInstallAdds(w.gw, a);
    hide GR.Do, GR.Inv, GR.Enabled, Grown, GR.OnlyEnds;
    AbsorbedGrows(w, GR.Do(w.gw, a));
  }

  lemma AbsorbedGrows(w: World, o: GR.Outcome)
    requires GR.OnlyEnds(w.gw, o) && forall id :: id in w.closers ==> id < w.nextCloser
    ensures Grown(w, Absorbed(w, o)) && Absorbed(w, o).gw == o.machine
  {
  }

  lemma GrownKeeps(w: World, v: World)
    requires Guard(w) && Grown(w, v)
    ensures Guard(v)
  {
  }

  // ---------- the sidecar and its reader ----------

  /** A command leaves the pipe; what it answers is counted from then on in the other. */
  ghost predicate Handled(s: Sidecar, v: Sidecar) {
    && s.alive && s.commands != []
    && v.commands == (if v.alive then s.commands[1..] else [])
    && (!v.alive ==> v.service.None?)
    && (s.commands[0] == N.Shutdown ==> !v.alive)
    && (v.service.Some? ==> v.service == s.service || s.commands[0].Serve?)
    && (v.service.Some? ==> !s.commands[0].Unserve?)
    && Unserveds(v.events) == Unserveds(s.events) + (if s.commands[0].Unserve? then 1 else 0)
  }

  lemma CommandedHandles(s: Sidecar, works: bool)
    requires s.alive && s.commands != []
    ensures Handled(s, Commanded(s, works))
  {
    var v := Commanded(s, works);
    if v.events != s.events {
      UnservedsMore(s.events, v.events[|s.events|]);
      assert v.events == s.events + [v.events[|s.events|]];
    }
  }

  lemma CommandKeeps(w: World, works: bool)
    requires Guard(w) && w.side.alive && w.side.commands != []
    ensures Guard(w.(side := Commanded(w.side, works)))
  {
    CommandedHandles(w.side, works);
    HandledKeeps(w, w.(side := Commanded(w.side, works)));
  }

  lemma HandledKeeps(w: World, v: World)
    requires Guard(w) && Handled(w.side, v.side) && v == w.(side := v.side)
    ensures Guard(v)
  {
    var rest := w.side.commands[1..];
    assert w.side.commands == [w.side.commands[0]] + rest;
    assert HasServe(rest) ==> HasServe(w.side.commands);
    assert w.side.commands[0].Serve? ==> HasServe(w.side.commands);
    assert w.node.process.Some?;
    assert N.Shutdown in w.side.commands ==> w.side.commands[0].Shutdown? || N.Shutdown in rest;
    assert Unserves(w.side.commands) == (if w.side.commands[0].Unserve? then 1 else 0) + Unserves(rest);
    assert Unanswered(v.side) <= Unanswered(w.side);
    HandledHandshake(w, v);
    NodeOnly(w, v);
  }

  lemma HandledHandshake(w: World, v: World)
    requires Handshake(w) && Handled(w.side, v.side) && v == w.(side := v.side)
    requires HasServe(w.side.commands[1..]) ==> HasServe(w.side.commands)
    requires w.side.commands[0].Serve? ==> HasServe(w.side.commands)
    ensures Handshake(v)
  {
    var rest := w.side.commands[1..];
    assert forall j :: 0 <= j < |rest| ==> rest[j] == w.side.commands[j + 1];
  }

  /** A change of the node or its sidecar alone. */
  lemma NodeOnly(w: World, v: World)
    requires Guard(w) && SideState(v) && Handshake(v) && Outstanding(v) && (Settled(w) ==> Settled(v))
    requires v == w.(node := v.node, side := v.side, fails := v.fails, ran := v.ran, mustLogIn := v.mustLogIn)
    ensures Guard(v)
  {
  }

  lemma SaysKeeps(w: World, event: N.Event)
    requires Guard(w) && Enabled(w, SideSays(event))
    ensures Guard(Do(w, SideSays(event)))
  {
    UnservedsMore(w.side.events, event);
    NodeOnly(w, Do(w, SideSays(event)));
  }

  lemma EndsKeep(w: World, a: Action)
    requires Guard(w) && Enabled(w, a) && (a.SideDies? || a.NodeLeaves? || a.NodeExits?)
    ensures Guard(Do(w, a))
  {
    NodeOnly(w, Do(w, a));
  }

  /** Reading an event takes it out of the pipe; only `unserved` revokes a `serve`. */
  ghost predicate Reads(w: World, v: World) {
    && w.side.events != []
    && v == w.(node := v.node, side := w.side.(events := w.side.events[1..]),
               fails := v.fails, ran := v.ran, mustLogIn := v.mustLogIn)
    && v.node.process == w.node.process && v.node.requested == w.node.requested
    && v.node.serveSent == (w.node.serveSent && (w.node.requested || !w.side.events[0].Unserved?))
  }

  lemma HearsReads(w: World)
    requires w.side.events != []
    ensures Reads(w, HearFirst(w))
  {
    N.HeardKeeps(w.node, w.side.events[0]);
    var notice := N.NoticeOf(w.node, w.side.events[0]);
  }

  lemma ReadsKeep(w: World, v: World)
    requires Guard(w) && Reads(w, v)
    ensures Guard(v)
  {
    assert Unserveds(w.side.events) ==
           (if w.side.events[0].Unserved? then 1 else 0) + Unserveds(v.side.events);
    NodeOnly(w, v);
  }

  // ---------- unserve, by whoever performs it ----------

  lemma StopKeeps(w: World)
    requires SideState(w) && Handshake(w)
    ensures SideState(StopNode(w)) && Handshake(StopNode(w)) && Settled(StopNode(w)) && !Heeding(StopNode(w))
  {
    if w.side.alive {
      assert (w.side.commands + [N.Shutdown])[|w.side.commands|] == N.Shutdown;
    }
  }

  lemma StartKeeps(w: World, mode: N.Mode)
    requires SideState(w) && Handshake(w)
    ensures SideState(StartNode(w, mode)) && Handshake(StartNode(w, mode))
    ensures w.node.process.None? ==> Settled(StartNode(w, mode)) && Unanswered(StartNode(w, mode).side) == 0
    ensures Settled(w) ==> Settled(StartNode(w, mode))
  {
  }

  /** One step of `unserve`: what it leaves in the pipes, and when it says all is quiet. */
  ghost predicate Unserving1(w: World, u: Unserving, v: World, next: Unserving) {
    && v == w.(node := v.node, side := v.side)
    && SideState(v) && Handshake(v)
    && (Heeding(v) ==> Heeding(w) && v.node.serveSent == w.node.serveSent)
    && (Settled(w) || next.Quieted? ==> Settled(v))
    && (next.Waiting? ==> u.Asking?)
    && (Heeding(v) ==>
          && Unanswered(v.side) <= Unanswered(w.side) + (if next.Waiting? then 1 else 0)
          && (next.Waiting? || next.Doubting? || next.MustStop? || !w.node.serveSent))
    && (next.Waiting? ==> w.node.serveSent)
    && (next.Asking? ==> false)
  }

  lemma UnservedMeans(w: World, u: Unserving, sent: bool)
    requires SideState(w) && Handshake(w) && !u.Quieted? && (u.Asking? ==> WriteAnswer(w, sent))
    ensures Unserving1(w, u, Unserved(w, u, sent).0, Unserved(w, u, sent).1)
  {
    UnservesMore(w.side.commands, N.Unserve);
    StopKeeps(w);
    if w.side.alive {
      var longer := w.side.commands + [N.Unserve];
      assert longer[|w.side.commands|] == N.Unserve;
      assert N.Shutdown in w.side.commands ==> N.Shutdown in longer;
      assert HasServe(longer) ==> HasServe(w.side.commands);
    }
  }

  // ---------- the closers ----------

  lemma CountsKeep(w: World, a: Action)
    requires Guard(w) && Enabled(w, a) && a.CloserCounts?
    ensures Guard(Do(w, a))
  {
  }

  lemma ActsKeep(w: World, a: Action)
    requires Guard(w) && Enabled(w, a) && a.CloserActs?
    ensures Guard(Do(w, a))
  {
  }

  lemma LocksKeep(w: World, a: Action)
    requires Guard(w) && Enabled(w, a) && a.CloserLocks?
    ensures Guard(Do(w, a))
  {
  }

  lemma ReleasesKeep(w: World, a: Action)
    requires Guard(w) && Enabled(w, a) && a.CloserReleases?
    ensures Guard(Do(w, a))
  {
  }

  lemma CloserUnservesKeeps(w: World, id: nat, sent: bool)
    requires Guard(w) && Enabled(w, CloserUnserves(id, sent))
    ensures Guard(Do(w, CloserUnserves(id, sent)))
  {
    var u := w.closers[id].stage.u;
    var (v, next) := Unserved(w, u, sent);
    UnservedMeans(w, u, sent);
    CloserMovesOn(w, id, u, v, next);
  }

  lemma CloserMovesOn(w: World, id: nat, u: Unserving, v: World, next: Unserving)
    requires Guard(w) && At(w, id, Holding(u)) && !u.Quieted? && Unserving1(w, u, v, next)
    ensures Guard(Staged(v, id, Holding(next)))
  {
    assert w.serving == Closing(id);
  }

  // ---------- the holder of `ops` ----------

  lemma FallenKeeps(w: World)
    requires Guard(w)
    ensures Guard(Fallen(w))
  {
  }

  /** The holder moves on, and nothing else that the invariant looks at changes. */
  lemma MovesOn(w: World, v: World)
    requires Guard(w) && Enables(v) && HoldsServing(v.ops) == HoldsServing(w.ops)
    requires v == w.(ops := v.ops, settings := v.settings, wanted := v.wanted, clean := v.clean)
    requires Committed(w.ops) ==> Committed(v.ops) || !Heeding(v)
    requires v.ops == Disable(Quieted) || v.ops.DisableGateway? || v.ops.DisableNode? ==> Settled(v)
    ensures Guard(v)
  {
  }

  /** The node is stopped, and with that the holder may let go. */
  lemma StopsAndMovesOn(w: World, v: World)
    requires Guard(w) && Enables(v) && !HoldsServing(v.ops) && !HoldsServing(w.ops)
    requires v == StopNode(w).(ops := v.ops)
    ensures Guard(v)
  {
    StopKeeps(w);
  }

  lemma StartsAndMovesOn(w: World, mode: N.Mode, v: World)
    requires Guard(w) && Enables(v) && !HoldsServing(v.ops) && !HoldsServing(w.ops)
    requires !Committed(w.ops) && !Committed(v.ops)
    requires v == StartNode(w, mode).(ops := v.ops)
    ensures Guard(v)
  {
    StartKeeps(w, mode);
  }

  lemma CountsApart(w: World, cleanups: nat, ran: nat, mustLogIn: nat)
    requires Guard(w)
    ensures Guard(w.(cleanups := cleanups, ran := ran, mustLogIn := mustLogIn))
  {
  }

  lemma TakeKeeps(w: World, job: Job)
    requires Guard(w) && MayTake(w, job)
    ensures Guard(Taken(w, job))
  {
    var v := Taken(w, job);
    CountsApart(w, v.cleanups, v.ran, v.mustLogIn);
    hide Guard;
    if job.CancelJob? && v.ops.Stopping? {
      StopsAndMovesOn(w, v);
    } else {
      MovesOn(w.(cleanups := v.cleanups, ran := v.ran, mustLogIn := v.mustLogIn), v);
    }
  }

  lemma TakeActionKeeps(w: World, a: Action)
    requires Guard(w) && Enabled(w, a) && a.Take?
    ensures Guard(Do(w, a))
  {
    hide Guard;
    TakeKeeps(w, a.job);
  }

  /** Phases in which only the holder moves. */
  predicate Plain(op: Op) {
    || op.EnableNode? || op.EnableCert? || op.EnableCount? || op.EnableReady? || op.EnableAnswer?
    || op.DisableGateway? || op.Remember? || op.LogoutWait? || op.Stopping?
  }

  predicate Writes(op: Op) {
    op.RememberWrite? || op.LogoutForget? || op.SetWrite?
  }

  lemma WritesKeep(w: World, a: Action)
    requires Guard(w) && a.Advance? && MayAdvance(w, a) && Writes(w.ops)
    ensures Guard(Advanced(w, a))
  {
    MovesOn(w, Advanced(w, a));
  }

  lemma PlainMeans(w: World, a: Action)
    requires Enables(w) && a.Advance? && MayAdvance(w, a) && Plain(w.ops)
    ensures var v := Advanced(w, a);
            && (v == Fallen(w) || v == w.(ops := v.ops)) && Enables(v)
            && (v != Fallen(w) ==>
                  HoldsServing(v.ops) == HoldsServing(w.ops) && (Committed(v.ops) <==> Committed(w.ops)))
            && (v.ops.Disable? ==> v == Fallen(w))
            && (v.ops.DisableNode? ==> w.ops.DisableGateway?) && !v.ops.DisableGateway?
  {
  }

  lemma PlainKeeps(w: World, a: Action)
    requires Guard(w) && a.Advance? && MayAdvance(w, a) && Plain(w.ops)
    ensures Guard(Advanced(w, a))
  {
    var v := Advanced(w, a);
    PlainMeans(w, a);
    assert w.ops.DisableGateway? ==> Settled(w);
    hide Advanced, MayAdvance;
    if v.ops.Disable? {
      assert v == Fallen(w);
      hide Guard;
      FallenKeeps(w);
    } else {
      assert v == w.(ops := v.ops) && Enables(v);
      hide Guard;
      MovesOn(w, v);
    }
  }

  lemma SaveKeeps(w: World, a: Action)
    requires Guard(w) && a.Advance? && MayAdvance(w, a) && w.ops.EnableSave?
    ensures Guard(Advanced(w, a))
  {
    var saved := Saved(w, w.ops.loaded.(net := Some(w.ops.node)), a.write);
    MovesOn(w, saved);
    if a.write.Saved? { MovesOn(w, Advanced(w, a)); } else { FallenKeeps(saved); }
  }

  /** No closer of this gateway has begun to leave, so none can get past the `serving` lock. */
  lemma CheckKeeps(w: World, a: Action)
    requires Guard(w) && a.Advance? && MayAdvance(w, a) && w.ops.EnableCheck?
    ensures Guard(Advanced(w, a))
  {
    var v := Advanced(w, a);
    if v.ops.EnableServe? {
      assert forall id :: id in w.closers && w.closers[id].gen == w.ops.gen ==> w.closers[id].stage.New?;
      MovesOn(w, v);
    } else {
      FallenKeeps(w);
    }
  }

  lemma ConfirmKeeps(w: World, a: Action)
    requires Guard(w) && a.Advance? && MayAdvance(w, a) && w.ops.EnableConfirm?
    ensures Guard(Advanced(w, a))
  {
    FallenKeeps(w);
  }

  lemma GateKeeps(w: World, a: Action)
    requires Guard(w) && a.Advance? && MayAdvance(w, a) && w.ops.EnableGate?
    ensures Guard(Advanced(w, a))
  {
  }

  lemma ServeFailsKeeps(w: World, a: Action)
    requires Guard(w) && a.Advance? && MayAdvance(w, a) && w.ops.EnableServe? && !a.works
    ensures Guard(Advanced(w, a))
  {
    var v := w.(node := N.ServeWritten(w.node, false));
    NodeOnly(w, v);
    hide Guard;
    FallenKeeps(v);
  }

  /** `serve` goes out only when nothing is unanswered and nobody is about to signal. */
  lemma ServeKeeps(w: World, a: Action)
    requires Guard(w) && a.Advance? && MayAdvance(w, a) && w.ops.EnableServe? && a.works
    ensures Guard(Advanced(w, a))
  {
    var v := Advanced(w, a);
    ServePipes(w, v);
    assert Locks(v) && Enables(v);
    assert Leavers(v);
  }

  lemma ServePipes(w: World, v: World)
    requires Guard(w) && w.ops.EnableServe? && v.ops.EnableAnswer?
    requires v == w.(node := N.ServeWritten(w.node, true), side := Written(w.side, N.Serve(w.ops.gen)), ops := v.ops)
    ensures SideState(v) && Handshake(v) && Outstanding(v)
  {
    UnservesMore(w.side.commands, N.Serve(w.ops.gen));
    assert Heeding(w) ==> Unanswered(w.side) == 0;
    if Heeding(w) { NoUnserves(w.side.commands); }
    if w.side.alive {
      assert N.Shutdown in w.side.commands ==> N.Shutdown in v.side.commands;
    }
  }

  lemma UnserveByHolderKeeps(w: World, a: Action)
    requires Guard(w) && a.Advance? && MayAdvance(w, a)
    requires (w.ops.Disable? || w.ops.Cleanup?) && !w.ops.u.Quieted? && !(w.ops.Cleanup? && w.ops.u.MustStop?)
    ensures Guard(Advanced(w, a))
  {
    var u := w.ops.u;
    var (v, next) := Unserved(w, u, a.works);
    UnservedMeans(w, u, a.works);
    HolderMovesOn(w, u, v, next, if w.ops.Disable? then Disable(next) else Cleanup(next));
  }

  lemma HolderMovesOn(w: World, u: Unserving, v: World, next: Unserving, op: Op)
    requires Guard(w) && Committed(w.ops) && !u.Quieted? && Unserving1(w, u, v, next)
    requires op == Disable(next) || op == Cleanup(next)
    ensures Guard(v.(ops := op))
  {
  }

  lemma EnableStartKeeps(w: World, a: Action)
    requires Guard(w) && a.Advance? && MayAdvance(w, a) && w.ops.EnableStart?
    ensures Guard(Advanced(w, a))
  {
    var v := Advanced(w, a);
    hide Guard;
    if v.ops.Disable? { FallenKeeps(w); } else { StartsAndMovesOn(w, N.Enable, v); }
  }

  lemma LogoutStartKeeps(w: World, a: Action)
    requires Guard(w) && a.Advance? && MayAdvance(w, a) && w.ops.LogoutStart?
    ensures Guard(Advanced(w, a))
  {
    var v := Advanced(w, a);
    hide Guard;
    if v.ops.LogoutNode? { StartsAndMovesOn(w, N.Logout, v); } else { MovesOn(w, v); }
  }

  lemma NodeStopsKeep(w: World, a: Action)
    requires Guard(w) && a.Advance? && MayAdvance(w, a)
    requires w.ops.DisableNode? || w.ops.Remembered? || w.ops.LogoutStop? || w.ops.LogoutEnd?
             || (w.ops.Cleanup? && (w.ops.u.Quieted? || w.ops.u.MustStop?))
    ensures Guard(Advanced(w, a))
  {
    var v := Advanced(w, a);
    hide Guard;
    if v.ops.Free? { MovesOn(w, v); } else { StopsAndMovesOn(w, v); }
  }

  lemma LogoutWritten(w: World)
    requires SideState(w) && Handshake(w) && Outstanding(w)
    ensures var v := w.(node := w.node.(error := None), side := Written(w.side, N.LogOut));
            SideState(v) && Handshake(v) && Outstanding(v)
  {
    UnservesMore(w.side.commands, N.LogOut);
    var longer := w.side.commands + [N.LogOut];
    assert N.Shutdown in w.side.commands ==> N.Shutdown in longer;
    assert HasServe(longer) ==> HasServe(w.side.commands);
  }

  lemma LogoutNodeKeeps(w: World, a: Action)
    requires Guard(w) && a.Advance? && MayAdvance(w, a) && w.ops.LogoutNode?
    ensures Guard(Advanced(w, a))
  {
    var v := Advanced(w, a);
    if a.works {
      LogoutWritten(w);
      var mid := w.(node := w.node.(error := None), side := Written(w.side, N.LogOut));
      NodeOnly(w, mid);
      MovesOn(mid, v);
    } else {
      MovesOn(w, v);
    }
  }

  lemma LogoutRemoveKeeps(w: World, a: Action)
    requires Guard(w) && a.Advance? && MayAdvance(w, a) && w.ops.LogoutRemove?
    ensures Guard(Advanced(w, a))
  {
    var mid := w.(node := Advanced(w, a).node);
    NodeOnly(w, mid);
    hide Guard;
    MovesOn(mid, Advanced(w, a));
  }

  lemma InputsKeep(w: World, a: Action)
    requires Inv(w) && a.Advance? && MayAdvance(w, a) && w.ops.EnableInputs?
    ensures Inv(Advanced(w, a))
  {
    if a.works {
      SupervisedGrows(w, GR.Clear);
      GrownKeeps(w, Supervised(w, GR.Clear));
      MovesOn(Supervised(w, GR.Clear), Advanced(w, a));
    } else {
      MovesOn(w, Advanced(w, a));
    }
  }

  lemma LoginMeans(w: World, a: Action)
    requires a.Advance? && MayAdvance(w, a) && w.ops.LoginStart?
    ensures var cleared := Supervised(w, GR.Clear);
            && cleared.ops.LoginStart? && Starts(w, a.created) == Starts(cleared, a.created)
            && Advanced(w, a) == (if Starts(w, a.created) then StartNode(cleared, N.Login) else cleared).(ops := Free)
  {
  }

  lemma ClearGrows(w: World)
    requires Inv(w)
    ensures Inv(Supervised(w, GR.Clear))
  {
    SupervisedGrows(w, GR.Clear);
    hide GR.Inv;
    GrownKeeps(w, Supervised(w, GR.Clear));
  }

  lemma LoginKeeps(w: World, a: Action)
    requires Inv(w) && a.Advance? && MayAdvance(w, a) && w.ops.LoginStart?
    ensures Inv(Advanced(w, a))
  {
    LoginMeans(w, a);
    var cleared := Supervised(w, GR.Clear);
    hide Supervised, Guard, GR.Inv, Advanced, MayAdvance;
    ClearGrows(w);
    ClearedKeeps(cleared, a.created);
  }

  lemma ClearedKeeps(w: World, works: bool)
    requires Guard(w) && w.ops.LoginStart?
    ensures var v := (if Starts(w, works) then StartNode(w, N.Login) else w).(ops := Free);
            Guard(v) && v.gw == w.gw
  {
    hide Guard;
    if Starts(w, works) {
      StartsAndMovesOn(w, N.Login, StartNode(w, N.Login).(ops := Free));
    } else {
      MovesOn(w, w.(ops := Free));
    }
  }

  lemma LaunchKeeps(w: World, a: Action)
    requires Inv(w) && a.Advance? && MayAdvance(w, a) && w.ops.EnableLaunch?
    ensures Inv(Advanced(w, a))
  {
    if GR.Enabled(w.gw, GR.Begin) {
      SupervisedGrows(w, GR.Begin);
      GrownKeeps(w, Supervised(w, GR.Begin));
      MovesOn(Supervised(w, GR.Begin), Advanced(w, a));
    } else {
      FallenKeeps(w);
    }
  }

  /** The new process's generation is newer than every closer's. */
  lemma InstallKeeps(w: World, port: Option<nat>)
    requires Inv(w) && w.ops.EnableSpawn? && GR.Enabled(w.gw, GR.InstallStart(port))
    ensures var v := Supervised(w, GR.InstallStart(port));
      GR.Inv(v.gw) && Guard(if v.gw.inner.process.Some?
                            then v.(ops := EnableReady(w.ops.before, v.gw.inner.generation)) else Fallen(v))
  {
    var v := Supervised(w, GR.InstallStart(port));
    GR.InvStep(w.gw, GR.InstallStart(port));
    assert v == w.(gw := v.gw);
    InstalledKeeps(w, v);
  }

  lemma InstalledKeeps(w: World, v: World)
    requires Guard(w) && w.ops.EnableSpawn? && v == w.(gw := v.gw)
    requires forall g :: g in w.gw.installed ==> g in v.gw.installed && g <= w.gw.inner.generation
    requires v.gw.inner.process.Some? ==>
               v.gw.inner.generation == w.gw.inner.generation + 1 && v.gw.inner.generation in v.gw.installed
    ensures Guard(if v.gw.inner.process.Some?
                  then v.(ops := EnableReady(w.ops.before, v.gw.inner.generation)) else Fallen(v))
  {
  }

  lemma SpawnKeeps(w: World, a: Action)
    requires Inv(w) && a.Advance? && MayAdvance(w, a) && w.ops.EnableSpawn?
    ensures Inv(Advanced(w, a))
  {
    var refuse := GR.RefuseStart("companion-unavailable");
    if !a.works {
      SupervisedGrows(w, refuse);
      GrownKeeps(w, Supervised(w, refuse));
      FallenKeeps(Supervised(w, refuse));
    } else if w.gw.launch.Launch? && w.gw.launch.list.None? {
      SupervisedGrows(w, GR.LoadList);
      GrownKeeps(w, Supervised(w, GR.LoadList));
    } else {
      InstallKeeps(w, a.port);
    }
  }

  lemma DisableGatewayKeeps(w: World, a: Action)
    requires Inv(w) && a.Advance? && MayAdvance(w, a) && w.ops == Disable(Quieted)
    ensures Inv(Advanced(w, a))
  {
    var stopped := Supervised(w, GR.Stop);
    var v := Advanced(w, a);
    assert v == stopped.(ops := v.ops) && v.ops.DisableGateway?;
    assert Settled(w);
    SupervisedGrows(w, GR.Stop);
    hide Supervised, Advanced, MayAdvance, GR.Inv, Guard;
    GrownKeeps(w, stopped);
    MovesOn(stopped, v);
  }

  lemma AdvanceKeeps(w: World, a: Action)
    requires Inv(w) && a.Advance? && MayAdvance(w, a)
    ensures Inv(Advanced(w, a))
  {
    assert !w.ops.Free?;
    hide Advanced, MayAdvance, Guard, GR.Inv;
    if w.ops.EnableInputs? { InputsKeep(w, a); }
    else if w.ops.LoginStart? { LoginKeeps(w, a); }
    else if w.ops.EnableLaunch? { LaunchKeeps(w, a); }
    else if w.ops.EnableSpawn? { SpawnKeeps(w, a); }
    else if w.ops == Disable(Quieted) { DisableGatewayKeeps(w, a); }
    else {
      NoGatewayStep(w, a);
      if Plain(w.ops) { PlainKeeps(w, a); }
      else if Writes(w.ops) { WritesKeep(w, a); }
      else if w.ops.EnableSave? { SaveKeeps(w, a); }
      else if w.ops.EnableGate? { GateKeeps(w, a); }
      else if w.ops.EnableCheck? { CheckKeeps(w, a); }
      else if w.ops.EnableConfirm? { ConfirmKeeps(w, a); }
      else if w.ops.EnableServe? && a.works { ServeKeeps(w, a); }
      else if w.ops.EnableServe? { ServeFailsKeeps(w, a); }
      else if w.ops.EnableStart? { EnableStartKeeps(w, a); }
      else if w.ops.LogoutStart? { LogoutStartKeeps(w, a); }
      else if w.ops.LogoutNode? { LogoutNodeKeeps(w, a); }
      else if w.ops.LogoutRemove? { LogoutRemoveKeeps(w, a); }
      else if w.ops.Disable? || (w.ops.Cleanup? && !w.ops.u.Quieted? && !w.ops.u.MustStop?) {
        UnserveByHolderKeeps(w, a);
      }
      else { NodeStopsKeep(w, a); }
    }
  }

  lemma NoGatewayStep(w: World, a: Action)
    requires a.Advance? && MayAdvance(w, a)
    requires !w.ops.EnableInputs? && !w.ops.LoginStart? && !w.ops.EnableLaunch? && !w.ops.EnableSpawn?
    requires w.ops != Disable(Quieted)
    ensures Advanced(w, a).gw == w.gw
  {
  }

  predicate OfNode(a: Action) {
    a.SideCommand? || a.SideSays? || a.SideDies? || a.NodeHears? || a.NodeExits? || a.NodeLeaves?
  }

  lemma NodeActionKeeps(w: World, a: Action)
    requires Guard(w) && Enabled(w, a) && OfNode(a)
    ensures Guard(Do(w, a))
  {
    if a.SideCommand? { CommandKeeps(w, a.works); }
    else if a.SideSays? { SaysKeeps(w, a.event); }
    else if a.NodeHears? { HearsReads(w); ReadsKeep(w, Do(w, a)); }
    else { EndsKeep(w, a); }
  }

  predicate OfCloser(a: Action) {
    a.CloserCounts? || a.CloserLocks? || a.CloserUnserves? || a.CloserReleases? || a.CloserActs?
  }

  lemma CloserActionKeeps(w: World, a: Action)
    requires Guard(w) && Enabled(w, a) && OfCloser(a)
    ensures Guard(Do(w, a))
  {
    if a.CloserLocks? { LocksKeep(w, a); }
    else if a.CloserUnserves? { CloserUnservesKeeps(w, a.id, a.sent); }
    else if a.CloserReleases? { ReleasesKeep(w, a); }
    else if a.CloserCounts? { CountsKeep(w, a); }
    else { ActsKeep(w, a); }
  }

  lemma GatewayActionKeeps(w: World, a: Action)
    requires Inv(w) && Enabled(w, a) && a.Gateway?
    ensures Inv(Do(w, a))
  {
    SupervisedGrows(w, a.a);
    hide Guard, GR.Inv;
    GrownKeeps(w, Do(w, a));
  }

  lemma FailActionKeeps(w: World, a: Action)
    requires Inv(w) && Enabled(w, a) && a.FailGateway?
    ensures Inv(Do(w, a))
  {
    var fewer := w.(fails := w.fails - 1);
    NodeOnly(w, fewer);
    SupervisedGrows(fewer, GR.FailNow(a.why));
    hide Guard, GR.Inv;
    GrownKeeps(fewer, Do(w, a));
  }

  lemma StopKillsKeeps(w: World, a: Action)
    requires Guard(w) && Enabled(w, a) && a.StopKills?
    ensures Guard(Do(w, a))
  {
    MovesOn(w, Do(w, a));
  }

  lemma OthersLeaveGateway(w: World, a: Action)
    requires Enabled(w, a) && !a.Gateway? && !a.FailGateway? && !a.Advance?
    ensures Do(w, a).gw == w.gw
  {
  }

  lemma InvStep(w: World, a: Action)
    requires Inv(w) && Enabled(w, a)
    ensures Inv(Do(w, a))
  {
    assert a.Advance? ==> Do(w, a) == Advanced(w, a);
    hide Do, Guard, GR.Inv;
    if a.Gateway? {
      GatewayActionKeeps(w, a);
    } else if a.FailGateway? {
      FailActionKeeps(w, a);
    } else if a.Advance? {
      AdvanceKeeps(w, a);
    } else {
      OthersLeaveGateway(w, a);
      if OfNode(a) { NodeActionKeeps(w, a); }
      else if OfCloser(a) { CloserActionKeeps(w, a); }
      else if a.Take? { TakeActionKeeps(w, a); }
      else { StopKillsKeeps(w, a); }
    }
  }

  // ---------- every run ----------

  ghost predicate Run(ws: seq<World>, acts: seq<Action>) {
    && |ws| == |acts| + 1 && Start(ws[0])
    && forall k :: 0 <= k < |acts| ==> Enabled(ws[k], acts[k]) && ws[k + 1] == Do(ws[k], acts[k])
  }

  lemma {:induction false} RunKeeps(ws: seq<World>, acts: seq<Action>, k: nat)
    requires Run(ws, acts) && k < |ws|
    ensures Inv(ws[k])
  {
    if k == 0 {
      InvStart(ws[0]);
    } else {
      RunKeeps(ws, acts, k - 1);
      InvStep(ws[k - 1], acts[k - 1]);
    }
  }

  /** A gateway is told to shut down, or killed, only when nothing forwards to its port: the
      sidecar is gone or has its shutdown frame, or it has no listener and no `serve` to come.
      In every run of enable, disable, login, logout, expiry, halts, deadlines, crashes and
      late frames. */
  lemma SignalsAreQuiet(ws: seq<World>, acts: seq<Action>, k: nat)
    requires Run(ws, acts) && k < |acts| && Signals(ws[k], acts[k])
    ensures Quiet(ws[k].side)
  {
    RunKeeps(ws, acts, k);
    SettledIsQuiet(ws[k]);
  }

  /** The handshake: while the node is not asked to stop, a supervisor that has no `serve`
      outstanding is right about the sidecar; and no confirmation that is still to be read
      can be taken for that of a later `serve`. */
  lemma HandshakeHolds(ws: seq<World>, acts: seq<Action>, k: nat)
    requires Run(ws, acts) && k < |ws| && Heeding(ws[k])
    ensures !ws[k].node.serveSent ==> NoService(ws[k].side)
    ensures ws[k].ops.EnableServe? ==> Unserves(ws[k].side.commands) == 0 && Unserveds(ws[k].side.events) == 0
  {
    RunKeeps(ws, acts, k);
  }
}
