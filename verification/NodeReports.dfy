/** What the node supervisor knows is what its sidecar has said since it was started, and an enable goes
    on only with what was said (src-tauri/src/companion_net.rs, `bring_up` in
    src-tauri/src/companion_commands.rs). */
module NodeReports {
  import opened Wrappers
  import opened Takedown
  import opened TakedownSafety
  import N = Node
  import GR = GatewayRuns

  // ---------- a list of events, read from its end ----------

  /** What the last `cert` event said. */
  predicate CertIn(events: seq<N.Event>) {
    if events == [] then false
    else
      var last := events[|events| - 1];
      if last.Cert? then last.ready else CertIn(events[..|events| - 1])
  }

  /** What the last `running` event said of HTTPS. */
  function HttpsIn(events: seq<N.Event>): Option<bool> {
    if events == [] then None
    else
      var last := events[|events| - 1];
      if last.Runs? then Some(last.https) else HttpsIn(events[..|events| - 1])
  }

  /** Whether the listener was last said to be open. */
  predicate ServingIn(events: seq<N.Event>) {
    if events == [] then false
    else
      var last := events[|events| - 1];
      if last.Serving? || last.Unserved? then last.Serving? else ServingIn(events[..|events| - 1])
  }

  /** The state that was told last; that the node runs counts once it has said as whom. */
  function StateIn(events: seq<N.Event>): N.State {
    if events == [] then N.Starting
    else
      var front := events[..|events| - 1];
      match events[|events| - 1]
      case LoginRequired => N.NeedsLogin
      case Runs(_, _) => N.Running
      case Backend(BackendNeedsLogin) => N.NeedsLogin
      case Backend(BackendNeedsApproval) => N.NeedsApproval
      case Backend(BackendOther) => N.Starting
      case Backend(BackendRunning) => if HttpsIn(front).Some? then N.Running else StateIn(front)
      case _ => StateIn(front)
  }

  /** The supervisor knows exactly what these events say. */
  ghost predicate Knows(i: N.Inner, events: seq<N.Event>) {
    && i.state == StateIn(events) && i.https == HttpsIn(events) && i.certReady == CertIn(events)
    && i.serving == ServingIn(events)
    && (i.loggedOut <==> N.LoggedOut in events)
  }

  lemma StateMore(events: seq<N.Event>, event: N.Event)
    ensures StateIn(events + [event])
            == match event
               case LoginRequired => N.NeedsLogin
               case Runs(_, _) => N.Running
               case Backend(BackendNeedsLogin) => N.NeedsLogin
               case Backend(BackendNeedsApproval) => N.NeedsApproval
               case Backend(BackendOther) => N.Starting
               case Backend(BackendRunning) => if HttpsIn(events).Some? then N.Running else StateIn(events)
               case _ => StateIn(events)
  {
    hide HttpsIn;
    var longer := events + [event];
    assert longer[..|longer| - 1] == events && longer[|longer| - 1] == event;
  }

  lemma HeardState(i: N.Inner, events: seq<N.Event>, event: N.Event)
    requires i.state == StateIn(events) && i.https == HttpsIn(events)
    ensures N.Heard(i, event).state == StateIn(events + [event])
  {
    hide N.ErrorCode, HttpsIn, StateIn;
    StateMore(events, event);
  }

  lemma HeardHttps(i: N.Inner, events: seq<N.Event>, event: N.Event)
    requires i.https == HttpsIn(events)
    ensures N.Heard(i, event).https == HttpsIn(events + [event])
  {
    hide N.ErrorCode;
    assert (events + [event])[..|events|] == events;
  }

  lemma FlagsMore(events: seq<N.Event>, event: N.Event)
    ensures CertIn(events + [event]) == if event.Cert? then event.ready else CertIn(events)
    ensures ServingIn(events + [event])
            == if event.Serving? || event.Unserved? then event.Serving? else ServingIn(events)
  {
    var longer := events + [event];
    assert longer[..|longer| - 1] == events && longer[|longer| - 1] == event;
  }

  lemma HeardFlags(i: N.Inner, events: seq<N.Event>, event: N.Event)
    requires i.certReady == CertIn(events) && i.serving == ServingIn(events)
    ensures N.Heard(i, event).certReady == CertIn(events + [event])
    ensures N.Heard(i, event).serving == ServingIn(events + [event])
  {
    hide N.ErrorCode, CertIn, ServingIn;
    FlagsMore(events, event);
  }

  lemma HeardLogout(i: N.Inner, events: seq<N.Event>, event: N.Event)
    requires i.loggedOut <==> N.LoggedOut in events
    ensures N.Heard(i, event).loggedOut <==> N.LoggedOut in events + [event]
  {
    hide N.ErrorCode;
  }

  lemma HeardKnows(i: N.Inner, events: seq<N.Event>, event: N.Event)
    requires Knows(i, events)
    ensures Knows(N.Heard(i, event), events + [event])
  {
    HeardState(i, events, event);
    HeardHttps(i, events, event);
    HeardFlags(i, events, event);
    HeardLogout(i, events, event);
    hide N.Heard, StateIn, HttpsIn, CertIn, ServingIn;
  }

  // ---------- over a run ----------

  /** What the supervisor heeds of this step. */
  function Heeds(w: World, a: Action): seq<N.Event> {
    if a.NodeHears? && w.side.events != [] && !w.node.requested then [w.side.events[0]] else []
  }

  function HeardSince(ws: seq<World>, acts: seq<Action>, i: nat, k: nat): seq<N.Event>
    requires i <= k <= |acts| <= |ws|
  {
    if k == i then [] else HeardSince(ws, acts, i, k - 1) + Heeds(ws[k - 1], acts[k - 1])
  }

  ghost predicate SameReports(i: N.Inner, j: N.Inner) {
    && i.state == j.state && i.https == j.https && i.certReady == j.certReady && i.serving == j.serving
    && i.loggedOut == j.loggedOut && KeepsMode(i, j)
  }

  /** A sidecar that does not run for a login only is not made one. */
  predicate KeepsMode(i: N.Inner, j: N.Inner) {
    i.process.Some? && j.process.Some? && j.process.value.mode != N.Login ==> i.process.value.mode != N.Login
  }

  lemma StopsQuietly(w: World)
    ensures SameReports(StopNode(w).node, w.node) && StopNode(w).node.generation == w.node.generation
  {
  }

  lemma UnservesQuietly(w: World, u: Unserving, sent: bool)
    ensures SameReports(Unserved(w, u, sent).0.node, w.node)
    ensures Unserved(w, u, sent).0.node.generation == w.node.generation
  {
  }

  /** The step starts a sidecar. */
  predicate StartsNode(w: World, v: World) {
    w.node.process.None? && v.node.process.Some?
  }

  lemma StartReports(w: World, mode: N.Mode)
    ensures var v := StartNode(w, mode);
            if w.node.process.None? then Knows(v.node, []) && v.node.generation == w.node.generation + 1
            else SameReports(v.node, w.node) && v.node.generation == w.node.generation
  {
  }

  /** What a step of the holder of `ops` does to the reports. */
  ghost predicate Moves(w: World, v: World) {
    if StartsNode(w, v) then Knows(v.node, []) && v.node.generation == w.node.generation + 1
    else SameReports(v.node, w.node) && v.node.generation == w.node.generation
  }

  lemma AdvanceReports(w: World, a: Action)
    requires a.Advance? && MayAdvance(w, a)
    ensures Moves(w, Advanced(w, a))
  {
    StopsQuietly(w);
    hide Knows, StopNode, Unserved, StartNode, SameReports;
    if w.ops.EnableStart? || w.ops.LogoutStart? || w.ops.LoginStart? { StarterReports(w, a); }
    else if (w.ops.Disable? || w.ops.Cleanup?) { UnserverReports(w, a); }
    else if Enables(w.ops) { EnableReports(w, a); }
    else if MayStop(w.ops) { StopperReports(w, a); }
    else if Writes(w.ops) { WriterReports(w, a); }
    else if Bystands(w.ops) { BystanderReports(w, a); }
    else { OtherReports(w, a); }
  }

  lemma StarterReports(w: World, a: Action)
    requires a.Advance? && MayAdvance(w, a) && (w.ops.EnableStart? || w.ops.LogoutStart? || w.ops.LoginStart?)
    ensures Moves(w, Advanced(w, a))
  {
    if w.ops.LoginStart? {
      LoginReports(w, a);
    } else {
      StartReports(w, if w.ops.EnableStart? then N.Enable else N.Logout);
      hide Knows, StartNode, GR.Do, GR.Enabled;
    }
  }

  lemma LoginReports(w: World, a: Action)
    requires a.Advance? && MayAdvance(w, a) && w.ops.LoginStart?
    ensures Moves(w, Advanced(w, a))
  {
    var cleared := Supervised(w, GR.Clear);
    StartReports(cleared, N.Login);
    LoginMeans(w, a);
    assert cleared.node == w.node;
    assert Advanced(w, a).node == (if Starts(w, a.created) then StartNode(cleared, N.Login) else cleared).node;
    SameAsItself(w);
    hide Advanced, MayAdvance, Supervised, Knows, StartNode, SameReports, GR.Do, GR.Enabled;
  }

  lemma UnserverReports(w: World, a: Action)
    requires a.Advance? && MayAdvance(w, a) && (w.ops.Disable? || w.ops.Cleanup?)
    ensures Moves(w, Advanced(w, a))
  {
    if w.ops.u.Quieted? { QuietedReports(w, a); } else { AskerReports(w, a); }
  }

  lemma QuietedReports(w: World, a: Action)
    requires a.Advance? && MayAdvance(w, a) && (w.ops.Disable? || w.ops.Cleanup?) && w.ops.u.Quieted?
    ensures Moves(w, Advanced(w, a))
  {
    StopsQuietly(w);
    hide Knows, GR.Do, GR.Enabled;
  }

  lemma AskerReports(w: World, a: Action)
    requires a.Advance? && MayAdvance(w, a) && (w.ops.Disable? || w.ops.Cleanup?) && !w.ops.u.Quieted?
    ensures Moves(w, Advanced(w, a))
  {
    UnservesQuietly(w, w.ops.u, a.works);
    StopsQuietly(w);
    hide Knows, GR.Do, GR.Enabled;
  }

  predicate Enables(op: Op) {
    || op.EnableInputs? || op.EnableNode? || op.EnableCert? || op.EnableSave? || op.EnableCount? || op.EnableLaunch?
    || op.EnableSpawn? || op.EnableReady? || op.EnableGate? || op.EnableCheck? || op.EnableServe? || op.EnableAnswer?
    || op.EnableConfirm?
  }

  lemma EnableReports(w: World, a: Action)
    requires a.Advance? && MayAdvance(w, a) && Enables(w.ops)
    ensures Moves(w, Advanced(w, a))
  {
    hide Knows, GR.Do, GR.Enabled;
  }

  predicate MayStop(op: Op) {
    op.DisableNode? || op.Remembered? || op.LogoutStop? || op.LogoutEnd?
  }

  lemma StopperReports(w: World, a: Action)
    requires a.Advance? && MayAdvance(w, a) && MayStop(w.ops)
    ensures Moves(w, Advanced(w, a))
  {
    StopsQuietly(w);
    hide Knows, GR.Do, GR.Enabled;
  }

  lemma WriterReports(w: World, a: Action)
    requires a.Advance? && MayAdvance(w, a) && Writes(w.ops)
    ensures Moves(w, Advanced(w, a))
  {
    hide Knows, GR.Do, GR.Enabled;
  }

  /** Phases that leave the node as it is. */
  predicate Bystands(op: Op) {
    || op.DisableGateway? || op.Remember? || op.Stopping? || op.LogoutWait?
  }

  lemma BystanderReports(w: World, a: Action)
    requires a.Advance? && MayAdvance(w, a) && Bystands(w.ops)
    ensures Moves(w, Advanced(w, a))
  {
  }

  lemma OtherReports(w: World, a: Action)
    requires a.Advance? && MayAdvance(w, a) && (w.ops.LogoutNode? || w.ops.LogoutRemove?)
    ensures Moves(w, Advanced(w, a))
  {
    hide Knows, GR.Do, GR.Enabled;
  }

  lemma TakeReports(w: World, job: Job)
    requires MayTake(w, job)
    ensures SameReports(Taken(w, job).node, w.node) && Taken(w, job).node.generation == w.node.generation
    ensures !StartsNode(w, Taken(w, job))
  {
    StopsQuietly(w);
  }

  lemma NodeReports(w: World, a: Action)
    requires Enabled(w, a) && OfNode(a) && Do(w, a).node.process.Some?
    ensures w.node.process.Some? && Do(w, a).node.generation == w.node.generation
    ensures if Heeds(w, a) != [] then Do(w, a).node == N.Heard(w.node, Heeds(w, a)[0])
            else SameReports(Do(w, a).node, w.node)
  {
    hide N.Heard;
    if a.NodeHears? { N.HeardKeeps(w.node, w.side.events[0]); }
  }

  /** What any step does to what is known of a sidecar that is there after it. */
  ghost predicate Learns(w: World, a: Action, v: World) {
    if StartsNode(w, v) then Knows(v.node, []) && v.node.generation == w.node.generation + 1
    else
      && w.node.process.Some? && v.node.generation == w.node.generation
      && (if Heeds(w, a) != [] then v.node == N.Heard(w.node, Heeds(w, a)[0]) else SameReports(v.node, w.node))
  }

  lemma OthersLeaveNode(w: World, a: Action)
    requires Enabled(w, a) && (a.Gateway? || a.FailGateway? || a.StopKills?)
    ensures Do(w, a).node == w.node
  {
    hide GR.Do, GR.Enabled;
  }

  lemma CloserReports(w: World, a: Action)
    requires Enabled(w, a) && OfCloser(a)
    ensures SameReports(Do(w, a).node, w.node) && Do(w, a).node.generation == w.node.generation
    ensures w.node.process.None? ==> Do(w, a).node.process.None?
  {
    if a.CloserUnserves? { UnservesQuietly(w, w.closers[a.id].stage.u, a.sent); }
  }

  lemma StepReports(w: World, a: Action)
    requires Enabled(w, a) && Do(w, a).node.process.Some?
    ensures Learns(w, a, Do(w, a))
  {
    assert a.Advance? ==> Do(w, a) == Advanced(w, a);
    assert a.Take? ==> Do(w, a) == Taken(w, a.job);
    hide Do, Knows, SameReports, Advanced, Taken;
    if a.Advance? { AdvanceReports(w, a); SameAsItself(w); }
    else if a.Take? { TakeReports(w, a.job); }
    else if OfNode(a) { NodeReports(w, a); }
    else if OfCloser(a) { CloserReports(w, a); }
    else { OthersLeaveNode(w, a); SameAsItself(w); }
  }

  lemma SameAsItself(w: World)
    ensures SameReports(w.node, w.node)
  {
  }

  /** The sidecar of step k is the one that step i has started. */
  ghost predicate Since(ws: seq<World>, acts: seq<Action>, i: nat, k: nat) {
    && Run(ws, acts) && i < k < |ws| && StartsNode(ws[i], ws[i + 1])
    && forall t :: i < t <= k ==> ws[t].node.process.Some? && ws[t].node.generation == ws[i].node.generation + 1
  }

  lemma Kept(i: N.Inner, j: N.Inner, events: seq<N.Event>)
    requires Knows(i, events) && SameReports(j, i)
    ensures Knows(j, events + [])
  {
    assert events + [] == events;
  }

  /** What the supervisor knows of a sidecar (its state, HTTPS, the certificate, whether it serves and has
      logged out) is what that sidecar has said since it was started, as the last event of each kind has
      it; what it says after it was told to stop does not count. */
  lemma {:induction false} KnowsWhatItHeard(ws: seq<World>, acts: seq<Action>, k: nat) returns (i: nat)
    requires Run(ws, acts) && k < |ws| && ws[k].node.process.Some?
    ensures Since(ws, acts, i, k) && Knows(ws[k].node, HeardSince(ws, acts, i + 1, k))
  {
    if k > 0 {
      var w, a := ws[k - 1], acts[k - 1];
      assert Enabled(w, a) && ws[k] == Do(w, a);
      hide Do, Enabled, Knows, SameReports;
      StepReports(w, a);
      if StartsNode(w, ws[k]) {
        i := k - 1;
      } else {
        i := KnowsWhatItHeard(ws, acts, k - 1);
        var before := HeardSince(ws, acts, i + 1, k - 1);
        if Heeds(w, a) != [] {
          HeardKnows(w.node, before, Heeds(w, a)[0]);
        } else {
          Kept(w.node, ws[k].node, before);
        }
      }
    }
  }

  // ---------- a sidecar that an enable has taken over ----------

  lemma EnableTakes(w: World, a: Action)
    requires a.Advance? && MayAdvance(w, a) && w.ops.EnableStart? && Advanced(w, a).ops.EnableNode?
    ensures var v := Advanced(w, a).node; v.process.Some? && v.process.value.mode != N.Login && !v.requested
  {
  }

  lemma ModeStep(w: World, a: Action)
    requires Enabled(w, a) && w.node.process.Some? && Do(w, a).node.process.Some?
    ensures KeepsMode(Do(w, a).node, w.node)
  {
    hide Do, Enabled, Knows, N.Heard;
    StepReports(w, a);
    if Heeds(w, a) != [] { N.HeardKeeps(w.node, Heeds(w, a)[0]); }
  }

  /** Once an enable has started or taken over a sidecar it is never again one that runs for a login only,
      which is stopped as soon as the login is there. */
  lemma {:induction false} TakenOverForGood(ws: seq<World>, acts: seq<Action>, i: nat, k: nat)
    requires Run(ws, acts) && i < k < |ws| && acts[i].Advance? && ws[i].ops.EnableStart? && ws[i + 1].ops.EnableNode?
    requires forall t :: i < t <= k ==> ws[t].node.process.Some?
    ensures ws[k].node.process.value.mode != N.Login
  {
    hide Do, Enabled, Advanced, MayAdvance;
    if k == i + 1 {
      TakesOver(ws[i], acts[i]);
    } else {
      TakenOverForGood(ws, acts, i, k - 1);
      assert Enabled(ws[k - 1], acts[k - 1]) && ws[k] == Do(ws[k - 1], acts[k - 1]);
      ModeStep(ws[k - 1], acts[k - 1]);
    }
  }

  lemma TakesOver(w: World, a: Action)
    requires Enabled(w, a) && a.Advance? && w.ops.EnableStart? && Do(w, a).ops.EnableNode?
    ensures var v := Do(w, a).node; v.process.Some? && v.process.value.mode != N.Login
  {
    assert MayAdvance(w, a) && Do(w, a) == Advanced(w, a);
    hide Do, Enabled, Advanced, MayAdvance;
    EnableTakes(w, a);
  }
}
