/** What the answer of an enable means: whose listener the node has open when `serve` comes back
    (src-tauri/src/companion_commands.rs:500-528, src-tauri/src/companion_net.rs:619-654,
    src-tauri/companion-net/node.go:292-325). */
module ServedGateway {
  import opened Wrappers
  import opened Takedown
  import opened TakedownSafety
  import GR = GatewayRuns
  import N = Node

  // ---------- what the pipes still hold ----------

  function Serves(commands: seq<N.Frame>): nat {
    if commands == [] then 0 else (if commands[0].Serve? then 1 else 0) + Serves(commands[1..])
  }

  function Servings(events: seq<N.Event>): nat {
    if events == [] then 0 else (if events[0].Serving? then 1 else 0) + Servings(events[1..])
  }

  lemma {:induction false} ServesMore(commands: seq<N.Frame>, frame: N.Frame)
    ensures Serves(commands + [frame]) == Serves(commands) + (if frame.Serve? then 1 else 0)
  {
    if commands == [] {
      assert commands + [frame] == [frame];
    } else {
      ServesMore(commands[1..], frame);
      assert (commands + [frame])[1..] == commands[1..] + [frame];
    }
  }

  lemma {:induction false} ServingsMore(events: seq<N.Event>, event: N.Event)
    ensures Servings(events + [event]) == Servings(events) + (if event.Serving? then 1 else 0)
  {
    if events == [] {
      assert events + [event] == [event];
    } else {
      ServingsMore(events[1..], event);
      assert (events + [event])[1..] == events[1..] + [event];
    }
  }

  lemma {:induction false} ServesMeans(commands: seq<N.Frame>)
    ensures Serves(commands) == 0 <==> !HasServe(commands)
  {
    if commands != [] {
      ServesMeans(commands[1..]);
      assert commands == [commands[0]] + commands[1..];
    }
  }

  // ---------- the invariant ----------

  /** The gateway the enable in hand has started but not told the node of. */
  function Untold(op: Op): Option<nat> {
    match op
    case EnableReady(_, gen) => Some(gen)
    case EnableGate(_, gen, _) => Some(gen)
    case EnableCheck(_, gen, _) => Some(gen)
    case EnableServe(gen) => Some(gen)
    case _ => None
  }

  /** The node only ever hears of gateways that ran, and of the newest one last. */
  ghost predicate Secrets(w: World) {
    && (w.side.service.Some? ==>
          w.side.service.value in w.gw.installed && Untold(w.ops) != w.side.service)
    && (forall k :: 0 <= k < |w.side.commands| && w.side.commands[k].Serve? ==>
          w.side.commands[k].secret in w.gw.installed && Untold(w.ops) != Some(w.side.commands[k].secret))
  }

  /** Between enables: what the supervisor last heard is what the sidecar has, unless an
      `unserve` is being answered. */
  predicate Known(w: World) {
    && Servings(w.side.events) == 0
    && (if w.node.serving then
          w.side.service.Some? || (Serves(w.side.commands) == 0 && Unanswered(w.side) > 0)
        else w.side.service.None? && Serves(w.side.commands) == 0)
  }

  /** The `serve` of `gen` was written while the node was not serving. */
  predicate Opening(w: World, gen: nat) {
    && Unanswered(w.side) == 0
    && (forall k :: 0 <= k < |w.side.commands| && w.side.commands[k].Serve? ==> w.side.commands[k].secret == gen)
    && (if w.side.service.None? then
          !w.node.serving && Serves(w.side.commands) <= 1 && Servings(w.side.events) == 0
        else
          w.side.service == Some(gen) && Serves(w.side.commands) == 0
          && Servings(w.side.events) == if w.node.serving then 0 else 1)
  }

  /** It was written while the node still served another gateway. */
  predicate Stale(w: World, gen: nat) {
    && Unanswered(w.side) == 0 && w.node.serving
    && Servings(w.side.events) == 0
    && w.side.service.Some? && w.side.service != Some(gen)
  }

  ghost predicate Aware(w: World) {
    && Secrets(w)
    && (Heeding(w) && !Committed(w.ops) && w.side.alive ==>
          if w.ops.EnableAnswer? then Opening(w, w.ops.gen) || Stale(w, w.ops.gen) else Known(w))
  }

  lemma AwareStart(w: World)
    requires Start(w)
    ensures Aware(w)
  {
  }

  // ---------- the sidecar and its reader ----------

  /** What a command of the sidecar's loop does, as far as it matters here. */
  predicate Did(s: Sidecar, v: Sidecar, opens: bool)
    requires s.commands != []
  {
    var head := s.commands[0];
    && (opens ==> head.Serve? && s.service.None?)
    && Servings(v.events) == Servings(s.events) + (if opens then 1 else 0)
    && (v.alive ==>
          && v.commands == s.commands[1..]
          && v.service == if opens then Some(head.secret) else if head.Unserve? then None else s.service)
    && (!v.alive ==> v.commands == [] && v.service.None?)
    && (head.Shutdown? ==> !v.alive)
  }

  lemma CommandedDid(s: Sidecar, works: bool) returns (opens: bool)
    requires s.alive && s.commands != []
    ensures Did(s, Commanded(s, works), opens)
  {
    opens := s.commands[0].Serve? && s.service.None? && works;
    var v := Commanded(s, works);
    if v.events != s.events {
      ServingsMore(s.events, v.events[|s.events|]);
      assert v.events == s.events + [v.events[|s.events|]];
    }
  }

  /** A step of the sidecar alone that keeps whatever was promised of it. */
  ghost predicate Keeps(w: World, v: World) {
    && (Secrets(w) ==> Secrets(v))
    && (Heeding(v) && v.side.alive ==>
          && Heeding(w) && w.side.alive
          && (Known(w) ==> Known(v))
          && (forall gen :: Opening(w, gen) ==> Opening(v, gen))
          && (forall gen :: Stale(w, gen) ==> Stale(v, gen)))
  }

  lemma DidSecrets(w: World, v: World, opens: bool)
    requires w.side.commands != [] && Did(w.side, v.side, opens) && v == w.(side := v.side)
    requires Secrets(w)
    ensures Secrets(v)
  {
    assert w.side.commands[0].Serve? ==> w.side.commands[0].secret in w.gw.installed;
  }

  lemma DidKnown(w: World, v: World, opens: bool)
    requires Handshake(w) && Handled(w.side, v.side)
    requires w.side.commands != [] && Did(w.side, v.side, opens) && v == w.(side := v.side)
    requires Heeding(w) && v.side.alive && Known(w)
    ensures Known(v)
  {
    var rest := w.side.commands[1..];
    assert w.side.commands == [w.side.commands[0]] + rest;
    if w.side.commands[0].Unserve? {
      assert forall k :: 0 <= k < |rest| ==> rest[k] == w.side.commands[k + 1];
      ServesMeans(rest);
    }
  }

  lemma DidOpening(w: World, v: World, opens: bool, gen: nat)
    requires Handled(w.side, v.side)
    requires w.side.commands != [] && Did(w.side, v.side, opens) && v == w.(side := v.side)
    requires v.side.alive && Opening(w, gen)
    ensures Opening(v, gen)
  {
    assert Unserves(w.side.commands) == (if w.side.commands[0].Unserve? then 1 else 0) + Unserves(w.side.commands[1..]);
  }

  lemma DidStale(w: World, v: World, opens: bool, gen: nat)
    requires Handled(w.side, v.side)
    requires w.side.commands != [] && Did(w.side, v.side, opens) && v == w.(side := v.side)
    requires v.side.alive && Stale(w, gen)
    ensures Stale(v, gen)
  {
    assert Unserves(w.side.commands) == (if w.side.commands[0].Unserve? then 1 else 0) + Unserves(w.side.commands[1..]);
  }

  lemma CommandKept(w: World, works: bool)
    requires Guard(w) && w.side.alive && w.side.commands != []
    ensures Keeps(w, w.(side := Commanded(w.side, works)))
  {
    var v := w.(side := Commanded(w.side, works));
    CommandedHandles(w.side, works);
    var opens := CommandedDid(w.side, works);
    hide Commanded, Known, Opening, Stale, Secrets, Handled, Did, Unanswered;
    if Secrets(w) { DidSecrets(w, v, opens); }
    if Heeding(w) && v.side.alive {
      if Known(w) { DidKnown(w, v, opens); }
      forall gen | Opening(w, gen) ensures Opening(v, gen) { DidOpening(w, v, opens, gen); }
      forall gen | Stale(w, gen) ensures Stale(v, gen) { DidStale(w, v, opens, gen); }
    }
  }

  lemma SaysKept(w: World, event: N.Event)
    requires Enabled(w, SideSays(event))
    ensures Keeps(w, Do(w, SideSays(event)))
  {
    ServingsMore(w.side.events, event);
    UnservedsMore(w.side.events, event);
  }

  lemma EndsKept(w: World, a: Action)
    requires Enabled(w, a) && (a.SideDies? || a.NodeLeaves? || a.NodeExits?)
    ensures Keeps(w, Do(w, a))
  {
  }

  predicate Hears(w: World, v: World) {
    && w.side.events != []
    && v == w.(node := v.node, side := w.side.(events := w.side.events[1..]),
               fails := v.fails, ran := v.ran, mustLogIn := v.mustLogIn)
    && v.node.process == w.node.process && v.node.requested == w.node.requested
    && v.node.serving == if w.node.requested then w.node.serving
                         else if w.side.events[0].Serving? then true
                         else if w.side.events[0].Unserved? then false
                         else w.node.serving
  }

  lemma HearsServing(w: World)
    requires w.side.events != []
    ensures Hears(w, HearFirst(w))
  {
    N.HeardKeeps(w.node, w.side.events[0]);
    HeardServing(w.node, w.side.events[0]);
    var notice := N.NoticeOf(w.node, w.side.events[0]);
  }

  lemma HeardServing(i: N.Inner, event: N.Event)
    ensures N.Heard(i, event).serving == (event.Serving? || (i.serving && !event.Unserved?))
  {
    hide N.ErrorCode;
  }

  lemma HearsKept(w: World, v: World)
    requires SideState(w) && Handshake(w) && Hears(w, v)
    ensures Keeps(w, v)
  {
    var first := w.side.events[0];
    assert Servings(w.side.events) == (if first.Serving? then 1 else 0) + Servings(v.side.events);
    assert Unserveds(w.side.events) == (if first.Unserved? then 1 else 0) + Unserveds(v.side.events);
    ServesMeans(w.side.commands);
  }

  // ---------- unserve, stop and start ----------

  /** What matters of the node and the sidecar stays, and `ops` moves on within bounds. */
  predicate SameNode(w: World, v: World) {
    v.side == w.side && v.node.process.Some? == w.node.process.Some?
    && v.node.requested == w.node.requested && v.node.serving == w.node.serving
  }

  ghost predicate MaySay(w: World, v: World) {
    && w.gw.installed <= v.gw.installed
    && (Untold(v.ops).Some? ==> Untold(v.ops) == Untold(w.ops) || Untold(v.ops).value !in w.gw.installed)
  }

  lemma SecretsStay(w: World, v: World)
    requires Secrets(w) && v.side == w.side && MaySay(w, v)
    ensures Secrets(v)
  {
  }

  /** Only the holder moves on. */
  lemma Shifts(w: World, v: World)
    requires Aware(w) && SameNode(w, v) && MaySay(w, v)
    requires Committed(w.ops) && Heeding(w) ==> Committed(v.ops)
    requires v.ops.EnableAnswer? ==> v.ops == w.ops
    requires w.ops.EnableAnswer? && !v.ops.EnableAnswer? ==> Committed(v.ops) || w.node.serving
    ensures Aware(v)
  {
    SecretsStay(w, v);
  }

  lemma FrameSecrets(w: World, frame: N.Frame, v: World)
    requires Secrets(w) && v.side == Written(w.side, frame) && v.gw.installed == w.gw.installed
    requires Untold(v.ops) == Untold(w.ops) || Untold(v.ops).None?
    requires frame.Serve? ==> frame.secret in w.gw.installed && Untold(v.ops) != Some(frame.secret)
    ensures Secrets(v)
  {
  }

  lemma FrameKnown(w: World, frame: N.Frame, v: World)
    requires Known(w) && !frame.Serve? && v.side == Written(w.side, frame) && v.node.serving == w.node.serving
    ensures Known(v)
  {
    ServesMore(w.side.commands, frame);
    UnservesMore(w.side.commands, frame);
  }

  lemma UnservingKept(w: World, u: Unserving, sent: bool)
    requires !u.Quieted?
    ensures var v := Takedown.Unserved(w, u, sent).0;
            && (Secrets(w) ==> Secrets(v)) && v.ops == w.ops
            && (Heeding(v) && v.side.alive ==> Heeding(w) && w.side.alive && (Known(w) ==> Known(v)))
  {
    var v := Takedown.Unserved(w, u, sent).0;
    hide Known, Secrets;
    if v.side == Written(w.side, N.Unserve) {
      if Secrets(w) { FrameSecrets(w, N.Unserve, v); }
      if Known(w) { FrameKnown(w, N.Unserve, v); }
    } else if v == StopNode(w) {
      if Secrets(w) && w.node.process.Some? { FrameSecrets(w, N.Shutdown, v); }
    }
  }

  lemma StopIsAware(w: World, v: World)
    requires Aware(w) && v.node == StopNode(w).node && v.side == StopNode(w).side && v.gw == w.gw && Untold(v.ops).None?
    requires SideState(w)
    ensures Aware(v)
  {
    hide Known, Opening, Stale, Secrets;
    if w.node.process.Some? { FrameSecrets(w, N.Shutdown, v); } else { SecretsStay(w, v); }
  }

  lemma StartIsAware(w: World, mode: N.Mode, v: World)
    requires Aware(w) && v.node == StartNode(w, mode).node && v.side == StartNode(w, mode).side
    requires v.gw.installed == w.gw.installed
    requires Untold(v.ops).None? && !v.ops.EnableAnswer? && !w.ops.EnableAnswer? && !Committed(w.ops)
    ensures Aware(v)
  {
    if w.node.process.Some? { SecretsStay(w, v); }
  }

  // ---------- every step ----------

  lemma NodeActionKept(w: World, a: Action)
    requires Guard(w) && Enabled(w, a) && OfNode(a)
    ensures Keeps(w, Do(w, a)) && Do(w, a).ops == w.ops
  {
    if a.SideCommand? { CommandKept(w, a.works); }
    else if a.SideSays? { SaysKept(w, a.event); }
    else if a.NodeHears? { HearsServing(w); HearsKept(w, Do(w, a)); }
    else { EndsKept(w, a); }
  }

  lemma NodeActionAware(w: World, a: Action)
    requires Guard(w) && Aware(w) && Enabled(w, a) && OfNode(a)
    ensures Aware(Do(w, a))
  {
    NodeActionKept(w, a);
    hide Do, Enabled, Guard, Known, Opening, Stale, Secrets;
  }

  /** The ones that hold `serving` keep the enable out meanwhile. */
  lemma CloserActionAware(w: World, a: Action)
    requires Guard(w) && Aware(w) && Enabled(w, a) && OfCloser(a)
    ensures Aware(Do(w, a)) && (w.ops.EnableAnswer? ==> Do(w, a).side == w.side && Do(w, a).node == w.node)
    ensures Do(w, a).ops == w.ops
  {
    var v := Do(w, a);
    if a.CloserUnserves? {
      assert w.serving == Closing(a.id) && !w.ops.EnableAnswer?;
      UnservingKept(w, w.closers[a.id].stage.u, a.sent);
      UnservedIsAware(w, Takedown.Unserved(w, w.closers[a.id].stage.u, a.sent).0, v);
    } else {
      Shifts(w, v);
    }
  }

  lemma UnservedIsAware(w: World, mid: World, v: World)
    requires Aware(w) && !w.ops.EnableAnswer? && mid.ops == w.ops && Secrets(mid) && mid.gw == w.gw
    requires Heeding(mid) && mid.side.alive ==> Heeding(w) && w.side.alive && (Known(w) ==> Known(mid))
    requires v.node == mid.node && v.side == mid.side && v.gw == mid.gw
    requires v.ops == w.ops || (Committed(w.ops) && Committed(v.ops) && Untold(v.ops).None?)
    ensures Aware(v)
  {
    SecretsStay(mid, v);
    assert Known(mid) ==> Known(v);
    hide Secrets;
  }

  lemma GatewayActionAware(w: World, a: Action)
    requires Inv(w) && Aware(w) && Enabled(w, a) && (a.Gateway? || a.FailGateway?)
    ensures Aware(Do(w, a)) && Do(w, a).side == w.side && Do(w, a).node == w.node && Do(w, a).ops == w.ops
  {
    var from := if a.Gateway? then w else w.(fails := w.fails - 1);
    var g := if a.Gateway? then a.a else GR.FailNow(a.why);
    SupervisedGrows(from, g);
    assert Do(w, a) == Supervised(from, g);
    hide Do, Enabled, Supervised, Inv, Secrets, Known, Opening, Stale;
    Shifts(w, Supervised(from, g));
  }

  lemma TakeAware(w: World, job: Job)
    requires Guard(w) && Aware(w) && MayTake(w, job)
    ensures Aware(Taken(w, job))
  {
    var v := Taken(w, job);
    TakenMeans(w, job);
    assert SideState(w);
    hide Guard, Secrets, Known, Opening, Stale, Taken, StopNode;
    if v.ops.Stopping? { StopIsAware(w, v); } else { Shifts(w, v); }
  }

  lemma TakenMeans(w: World, job: Job)
    requires MayTake(w, job)
    ensures var v := Taken(w, job);
            && v.gw == w.gw && Untold(v.ops).None? && !v.ops.EnableAnswer? && !w.ops.EnableAnswer? && !Committed(w.ops)
            && if v.ops.Stopping? then v.node == StopNode(w).node && v.side == StopNode(w).side
               else v.node == w.node && v.side == w.side
  {
  }

  /** The newest gateway's `serve` is written: nothing else is in the pipes. */
  lemma ServeIsAware(w: World, a: Action)
    requires Inv(w) && Aware(w) && a.Advance? && MayAdvance(w, a) && w.ops.EnableServe? && a.works
    ensures var v := Advanced(w, a);
            && Aware(v) && v.ops == EnableAnswer(w.ops.gen)
            && (w.node.serving ==> Stales(v, w.ops.gen)) && (!w.node.serving ==> Opens(v, w.ops.gen))
  {
    var gen := w.ops.gen;
    var v := Advanced(w, a);
    FrameSecrets(w, N.Serve(gen), v);
    ServesMore(w.side.commands, N.Serve(gen));
    UnservesMore(w.side.commands, N.Serve(gen));
    if Heeding(w) && w.side.alive {
      assert Unanswered(w.side) == 0;
      ServesMeans(w.side.commands);
      if w.node.serving { assert Stale(v, gen); } else { assert Opening(v, gen); }
    } else if w.side.alive {
      var k :| 0 <= k < |w.side.commands| && w.side.commands[k].Shutdown?;
      assert Ends(v.side.commands, gen, k);
    }
  }

  predicate Ends(commands: seq<N.Frame>, gen: nat, k: nat) {
    && k < |commands| && commands[k].Shutdown?
    && forall t :: 0 <= t < k ==> commands[t] != N.Serve(gen)
  }

  /** From the write of such a `serve` on, until its answer. */
  ghost predicate Opens(w: World, gen: nat) {
    && w.ops == EnableAnswer(gen)
    && (w.node.serving ==> Heeding(w))
    && (Heeding(w) && w.side.alive ==> Opening(w, gen))
  }

  ghost predicate Stales(w: World, gen: nat) {
    && w.ops == EnableAnswer(gen)
    && (w.side.alive ==>
          && w.side.service != Some(gen)
          && (Heeding(w) ==> Stale(w, gen))
          && (!Heeding(w) ==> exists k :: Ends(w.side.commands, gen, k)))
  }

  lemma AnswerAware(w: World, a: Action)
    requires Guard(w) && Aware(w) && a.Advance? && MayAdvance(w, a) && w.ops.EnableAnswer?
    ensures Aware(Advanced(w, a))
  {
    Shifts(w, Advanced(w, a));
  }

  /** What a step has to show for `Shifts`. */
  ghost predicate Shifted(w: World, v: World) {
    && SameNode(w, v) && MaySay(w, v)
    && (Committed(w.ops) && Heeding(w) ==> Committed(v.ops))
    && (v.ops.EnableAnswer? ==> v.ops == w.ops)
    && (w.ops.EnableAnswer? && !v.ops.EnableAnswer? ==> Committed(v.ops) || w.node.serving)
  }

  /** Phases of an enable in which the node is neither started nor written to. */
  predicate Bringing(op: Op) {
    || op.EnableNode? || op.EnableCert? || op.EnableSave? || op.EnableCount? || op.EnableReady?
    || op.EnableGate? || op.EnableCheck? || op.EnableConfirm?
  }

  lemma BringingShifts(w: World, a: Action)
    requires a.Advance? && MayAdvance(w, a) && Bringing(w.ops)
    ensures Shifted(w, Advanced(w, a))
  {
  }

  /** Others in which it is left alone. */
  predicate Still(op: Op) {
    || op.Remember? || op.RememberWrite? || op.LogoutWait? || op.LogoutRemove? || op.LogoutForget? || op.SetWrite?
    || op.DisableGateway? || op.Stopping?
  }

  lemma StillShifts(w: World, a: Action)
    requires a.Advance? && MayAdvance(w, a) && Still(w.ops)
    ensures Shifted(w, Advanced(w, a))
  {
    if Writes(w.ops) { WritesShift(w, a); }
  }

  lemma WritesShift(w: World, a: Action)
    requires a.Advance? && MayAdvance(w, a) && Writes(w.ops)
    ensures Shifted(w, Advanced(w, a))
  {
    match w.ops {
      case RememberWrite(_, _) =>
      case LogoutForget =>
      case _ =>
    }
  }

  lemma StillAware(w: World, a: Action)
    requires Aware(w) && a.Advance? && MayAdvance(w, a) && (Bringing(w.ops) || Still(w.ops))
    ensures Aware(Advanced(w, a))
  {
    if Bringing(w.ops) { BringingShifts(w, a); } else { StillShifts(w, a); }
    hide Advanced, MayAdvance, Secrets, Known, Opening, Stale;
    Shifts(w, Advanced(w, a));
  }

  lemma EnableStartAware(w: World, a: Action)
    requires Aware(w) && a.Advance? && MayAdvance(w, a) && w.ops.EnableStart?
    ensures Aware(Advanced(w, a))
  {
    var v := Advanced(w, a);
    hide Secrets, Known, Opening, Stale;
    if v.ops.EnableNode? { StartIsAware(w, N.Enable, v); } else { Shifts(w, v); }
  }

  lemma LogoutStartAware(w: World, a: Action)
    requires Aware(w) && a.Advance? && MayAdvance(w, a) && w.ops.LogoutStart?
    ensures Aware(Advanced(w, a))
  {
    var v := Advanced(w, a);
    hide Secrets, Known, Opening, Stale;
    if v.ops.LogoutNode? { StartIsAware(w, N.Logout, v); } else { MovesOnAware(w, v); }
  }

  /** Phases that may stop it. */
  predicate Halting(op: Op) {
    || op.DisableNode? || op.Remembered? || op.LogoutStop? || op.LogoutEnd?
    || (op.Cleanup? && (op.u.Quieted? || op.u.MustStop?))
  }

  lemma HaltingMeans(w: World, a: Action)
    requires a.Advance? && MayAdvance(w, a) && Halting(w.ops)
    ensures var v := Advanced(w, a);
            && v.gw == w.gw && Untold(v.ops).None? && !v.ops.EnableAnswer?
            && ((v.node == StopNode(w).node && v.side == StopNode(w).side)
                || (w.ops.Remembered? && v == w.(ops := v.ops)))
  {
  }

  lemma HaltingAware(w: World, a: Action)
    requires SideState(w) && Aware(w) && a.Advance? && MayAdvance(w, a) && Halting(w.ops)
    ensures Aware(Advanced(w, a))
  {
    var v := Advanced(w, a);
    HaltingMeans(w, a);
    hide Advanced, MayAdvance, StopNode, Secrets, Known, Opening, Stale;
    if v.node == StopNode(w).node && v.side == StopNode(w).side { StopIsAware(w, v); } else { MovesOnAware(w, v); }
  }

  lemma MovesOnAware(w: World, v: World)
    requires Aware(w) && v == w.(ops := v.ops) && Untold(v.ops).None? && !w.ops.EnableAnswer? && !v.ops.EnableAnswer?
    requires Committed(w.ops) && Heeding(w) ==> Committed(v.ops)
    ensures Aware(v)
  {
    Shifts(w, v);
  }

  lemma UnservingAware(w: World, a: Action)
    requires Guard(w) && Aware(w) && a.Advance? && MayAdvance(w, a)
    requires (w.ops.Disable? || w.ops.Cleanup?) && !w.ops.u.Quieted? && !(w.ops.Cleanup? && w.ops.u.MustStop?)
    ensures Aware(Advanced(w, a))
  {
    var mid := Takedown.Unserved(w, w.ops.u, a.works).0;
    UnservingKept(w, w.ops.u, a.works);
    UnservedIsAware(w, mid, Advanced(w, a));
  }

  lemma LogoutNodeAware(w: World, a: Action)
    requires Guard(w) && Aware(w) && a.Advance? && MayAdvance(w, a) && w.ops.LogoutNode?
    ensures Aware(Advanced(w, a))
  {
    var v := Advanced(w, a);
    if a.works {
      FrameSecrets(w, N.LogOut, v);
      if Known(w) { FrameKnown(w, N.LogOut, v); }
    } else {
      Shifts(w, v);
    }
  }

  lemma ServeFailsAware(w: World, a: Action)
    requires Guard(w) && Aware(w) && a.Advance? && MayAdvance(w, a) && w.ops.EnableServe? && !a.works
    ensures Aware(Advanced(w, a))
  {
    Shifts(w, Advanced(w, a));
  }

  /** Phases that act on the gateway alone. */
  lemma InputsShift(w: World, a: Action)
    requires Inv(w) && a.Advance? && MayAdvance(w, a) && w.ops.EnableInputs?
    ensures Shifted(w, Advanced(w, a))
  {
    SupervisedGrows(w, GR.Clear);
    hide Guard, GR.Inv, GR.Do;
  }

  lemma LaunchShifts(w: World, a: Action)
    requires Inv(w) && a.Advance? && MayAdvance(w, a) && w.ops.EnableLaunch?
    ensures Shifted(w, Advanced(w, a))
  {
    if GR.Enabled(w.gw, GR.Begin) { SupervisedGrows(w, GR.Begin); }
    hide Guard, GR.Inv, GR.Do;
  }

  lemma StopShifts(w: World, a: Action)
    requires Inv(w) && a.Advance? && MayAdvance(w, a) && w.ops == Disable(Quieted)
    ensures Shifted(w, Advanced(w, a))
  {
    SupervisedGrows(w, GR.Stop);
    hide Guard, GR.Inv, GR.Do;
  }

  lemma SpawnShifts(w: World, a: Action)
    requires Inv(w) && a.Advance? && MayAdvance(w, a) && w.ops.EnableSpawn?
    requires !a.works || (w.gw.launch.Launch? && w.gw.launch.list.None?)
    ensures Shifted(w, Advanced(w, a))
  {
    SupervisedGrows(w, if a.works then GR.LoadList else GR.RefuseStart("companion-unavailable"));
    hide Guard, GR.Inv;
  }

  /** A new process has a generation that none had before. */
  lemma InstallShifts(w: World, a: Action)
    requires Inv(w) && a.Advance? && MayAdvance(w, a) && w.ops.EnableSpawn?
    requires a.works && !(w.gw.launch.Launch? && w.gw.launch.list.None?)
    ensures Shifted(w, Advanced(w, a))
  {
    assert forall g :: g in w.gw.installed ==> g <= w.gw.inner.generation;
    hide Guard, GR.Inv;
  }

  lemma GatewayPhasesAware(w: World, a: Action)
    requires Inv(w) && Aware(w) && a.Advance? && MayAdvance(w, a)
    requires w.ops.EnableInputs? || w.ops.EnableLaunch? || w.ops == Disable(Quieted) || w.ops.EnableSpawn?
    ensures Aware(Advanced(w, a))
  {
    if w.ops.EnableInputs? { InputsShift(w, a); }
    else if w.ops.EnableLaunch? { LaunchShifts(w, a); }
    else if !w.ops.EnableSpawn? { StopShifts(w, a); }
    else if !a.works || (w.gw.launch.Launch? && w.gw.launch.list.None?) { SpawnShifts(w, a); }
    else { InstallShifts(w, a); }
    hide Advanced, MayAdvance, Inv, Secrets, Known, Opening, Stale;
    Shifts(w, Advanced(w, a));
  }

  lemma LoginAware(w: World, a: Action)
    requires Inv(w) && Aware(w) && a.Advance? && MayAdvance(w, a) && w.ops.LoginStart?
    ensures Aware(Advanced(w, a))
  {
    var v := Advanced(w, a);
    SupervisedGrows(w, GR.Clear);
    hide Guard, Secrets, Known, Opening, Stale, GR.Inv;
    if Starts(w, a.created) { StartIsAware(w, N.Login, v); } else { Shifts(w, v); }
  }

  lemma AdvanceAware(w: World, a: Action)
    requires Inv(w) && Aware(w) && a.Advance? && MayAdvance(w, a)
    ensures Aware(Advanced(w, a))
  {
    assert !w.ops.Free? && SideState(w);
    hide Advanced, MayAdvance, Guard, GR.Inv, Aware;
    if Bringing(w.ops) || Still(w.ops) { StillAware(w, a); }
    else if Halting(w.ops) { HaltingAware(w, a); }
    else if w.ops.EnableStart? { EnableStartAware(w, a); }
    else if w.ops.LogoutStart? { LogoutStartAware(w, a); }
    else if w.ops.EnableServe? && a.works { ServeIsAware(w, a); }
    else if w.ops.EnableServe? { ServeFailsAware(w, a); }
    else if w.ops.EnableAnswer? { AnswerAware(w, a); }
    else if w.ops.LoginStart? { LoginAware(w, a); }
    else if w.ops.LogoutNode? { LogoutNodeAware(w, a); }
    else if w.ops.EnableInputs? || w.ops.EnableLaunch? || w.ops.EnableSpawn? || w.ops == Disable(Quieted) {
      GatewayPhasesAware(w, a);
    }
    else { UnservingAware(w, a); }
  }

  lemma StopKillsAware(w: World, a: Action)
    requires Aware(w) && Enabled(w, a) && a.StopKills?
    ensures Aware(Do(w, a))
  {
    Shifts(w, Do(w, a));
  }

  lemma AwareStep(w: World, a: Action)
    requires Inv(w) && Aware(w) && Enabled(w, a)
    ensures Aware(Do(w, a))
  {
    assert a.Advance? ==> Do(w, a) == Advanced(w, a);
    assert a.Take? ==> Do(w, a) == Taken(w, a.job);
    hide Do, Guard, GR.Inv, Aware, Taken, Advanced;
    if OfNode(a) { NodeActionAware(w, a); }
    else if OfCloser(a) { CloserActionAware(w, a); }
    else if a.Gateway? || a.FailGateway? { GatewayActionAware(w, a); }
    else if a.Take? { TakeAware(w, a.job); }
    else if a.Advance? { AdvanceAware(w, a); }
    else { StopKillsAware(w, a); }
  }

  lemma {:induction false} RunIsAware(ws: seq<World>, acts: seq<Action>, k: nat)
    requires Run(ws, acts) && k < |ws|
    ensures Aware(ws[k])
  {
    hide Do, Enabled, Inv, Aware;
    if k == 0 {
      AwareStart(ws[0]);
    } else {
      RunIsAware(ws, acts, k - 1);
      RunKeeps(ws, acts, k - 1);
      AwareStep(ws[k - 1], acts[k - 1]);
    }
  }

  // ---------- from a `serve` to its answer ----------

  lemma EndsStays(s: Sidecar, v: Sidecar, gen: nat, k: nat) returns (l: nat)
    requires Handled(s, v) && v.alive && Ends(s.commands, gen, k)
    ensures Ends(v.commands, gen, l)
  {
    assert s.commands[0] != N.Shutdown;
    l := k - 1;
  }

  /** The listener stays as it is until the answer: only the sidecar's own steps touch it. */
  lemma OpensStays(w: World, a: Action, gen: nat)
    requires Inv(w) && Aware(w) && Enabled(w, a) && Opens(w, gen) && Do(w, a).ops == EnableAnswer(gen)
    ensures Opens(Do(w, a), gen)
  {
    var v := Do(w, a);
    if OfNode(a) {
      NodeActionKept(w, a);
      NodeActionServing(w, a);
      hide Do, Enabled, Inv, Aware, Known, Opening, Stale, Secrets;
    } else {
      OthersLeaveNode(w, a);
      assert Opening(w, gen) ==> Opening(v, gen);
    }
  }

  lemma NodeActionServing(w: World, a: Action)
    requires Guard(w) && Enabled(w, a) && OfNode(a)
    ensures Do(w, a).node.serving ==> (w.node.serving || Heeding(w)) && (Heeding(w) ==> Heeding(Do(w, a)))
  {
    if a.NodeHears? { HearsServing(w); }
  }

  lemma OthersLeaveNode(w: World, a: Action)
    requires Inv(w) && Aware(w) && Enabled(w, a) && !OfNode(a)
    requires w.ops.EnableAnswer? && Do(w, a).ops == w.ops
    ensures Do(w, a).node == w.node && Do(w, a).side == w.side
  {
    if OfCloser(a) { CloserActionAware(w, a); }
    else if a.Gateway? || a.FailGateway? { GatewayActionAware(w, a); }
  }

  lemma StalesStays(w: World, a: Action, gen: nat)
    requires Inv(w) && Aware(w) && Enabled(w, a) && Stales(w, gen) && Do(w, a).ops == EnableAnswer(gen)
    ensures Stales(Do(w, a), gen)
  {
    var v := Do(w, a);
    if a.SideCommand? {
      CommandKept(w, a.works);
      CommandedHandles(w.side, a.works);
      StaleCommanded(w, v, gen, a.works);
    } else if OfNode(a) {
      NodeActionKept(w, a);
      OtherNodeSteps(w, a, gen);
    } else {
      OthersLeaveNode(w, a);
      assert Stale(w, gen) ==> Stale(v, gen);
    }
  }

  lemma StaleCommanded(w: World, v: World, gen: nat, works: bool)
    requires w.side.alive && w.side.commands != [] && v == w.(side := Commanded(w.side, works))
    requires Handled(w.side, v.side) && Keeps(w, v) && Stales(w, gen)
    ensures Stales(v, gen)
  {
    if v.side.alive && !Heeding(w) {
      var k :| Ends(w.side.commands, gen, k);
      assert w.side.commands[0] != N.Serve(gen);
      var l := EndsStays(w.side, v.side, gen, k);
    }
  }

  lemma OtherNodeSteps(w: World, a: Action, gen: nat)
    requires Enabled(w, a) && OfNode(a) && !a.SideCommand? && Keeps(w, Do(w, a)) && Stales(w, gen)
    requires SideState(w)
    ensures Stales(Do(w, a), gen)
  {
    var v := Do(w, a);
    if a.NodeHears? { HearsServing(w); }
    assert v.side.alive ==> v.side.service == w.side.service && v.side.commands == w.side.commands;
    assert v.side.alive ==> (Heeding(v) <==> Heeding(w));
  }

  lemma AnswerBegins(w: World, a: Action)
    requires Inv(w) && Aware(w) && Enabled(w, a) && a.Advance? && a.works && w.ops.EnableServe?
    ensures w.node.serving ==> Stales(Do(w, a), w.ops.gen)
    ensures !w.node.serving ==> Opens(Do(w, a), w.ops.gen)
  {
    ServeIsAware(w, a);
  }

  lemma {:induction false} UntilAnswer(ws: seq<World>, acts: seq<Action>, i: nat, k: nat)
    requires Run(ws, acts) && i < k < |ws| && WritesServe(ws, acts, i)
    requires forall t :: i < t <= k ==> ws[t].ops == EnableAnswer(ws[i].ops.gen)
    ensures ws[i].node.serving ==> Stales(ws[k], ws[i].ops.gen)
    ensures !ws[i].node.serving ==> Opens(ws[k], ws[i].ops.gen)
  {
    hide Do, Enabled, Inv, Aware, Opens, Stales, Start;
    RunKeeps(ws, acts, k - 1);
    RunIsAware(ws, acts, k - 1);
    assert ws[k] == Do(ws[k - 1], acts[k - 1]);
    if k == i + 1 {
      AnswerBegins(ws[i], acts[i]);
    } else {
      UntilAnswer(ws, acts, i, k - 1);
      if ws[i].node.serving {
        StalesStays(ws[k - 1], acts[k - 1], ws[i].ops.gen);
      } else {
        OpensStays(ws[k - 1], acts[k - 1], ws[i].ops.gen);
      }
    }
  }

  /** The step writes the `serve` of the gateway that the enable has started. */
  ghost predicate WritesServe(ws: seq<World>, acts: seq<Action>, i: nat)
    requires Run(ws, acts)
  {
    i < |acts| && acts[i].Advance? && acts[i].works && ws[i].ops.EnableServe?
  }

  /** When `serve` comes back with success, the listener of a sidecar that lives is the one for
      this gateway if and only if the node was not serving as the command was written. If it was,
      for a gateway that crashed and has not been cleaned up after, `serve` is content
      with that: the listener goes on with the proxy secret and the login of the earlier `serve`,
      which are not what the new gateway was given, though its port may be the same. */
  lemma ServedExactly(ws: seq<World>, acts: seq<Action>, i: nat, k: nat)
    requires Run(ws, acts) && i < k < |acts| && WritesServe(ws, acts, i)
    requires forall t :: i < t <= k ==> ws[t].ops == EnableAnswer(ws[i].ops.gen)
    requires acts[k].Advance? && acts[k].works
    requires ws[k].side.alive
    ensures ws[k].side.service == Some(ws[i].ops.gen) <==> !ws[i].node.serving
  {
    UntilAnswer(ws, acts, i, k);
    assert MayAdvance(ws[k], acts[k]);
  }
}
