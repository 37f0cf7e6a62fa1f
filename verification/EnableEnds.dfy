/** How an enable ends: with its gateway running, or with everything it started told to go
    (`enable` and `bring_up` in src-tauri/src/companion_commands.rs). */
module EnableEnds {
  import opened Wrappers
  import opened Takedown
  import opened TakedownSafety
  import G = Gateway
  import GR = GatewayRuns
  import N = Node

  /** The gateway `gen` runs: it said it is ready, and nobody has halted or stopped it. */
  predicate Runs(w: World, gen: nat) {
    && Installed(w, gen)
    && w.gw.inner.status.Running? && w.gw.inner.ready && w.gw.inner.terminal.None?
  }

  /** No gateway is left, or the one that is has been halted or told to stop: none runs, and none
      will without another start. */
  predicate Down(w: World) {
    w.gw.inner.process.None? || w.gw.inner.terminal.Some?
  }

  /** The node is gone or told to stop. */
  predicate NodeDown(w: World) {
    w.node.process.None? || w.node.requested
  }

  /** The enable has begun to start something, and has not told the node to serve. */
  predicate Rises(op: Op) {
    || op.EnableStart? || op.EnableNode? || op.EnableCert? || op.EnableSave? || op.EnableCount? || op.EnableLaunch?
    || op.EnableSpawn? || op.EnableReady? || op.EnableGate? || op.EnableCheck? || op.EnableServe?
  }

  /** It has told the node to serve `gen`. */
  predicate Serves(op: Op, gen: nat) {
    op == EnableAnswer(gen) || op == EnableConfirm(gen)
  }

  /** How far an enable, or the tear-down after it or by a disable, has got. */
  ghost predicate Underway(w: World) {
    match w.ops
    case Disable(_) => true
    case DisableGateway(_, _) => Down(w)
    case DisableNode => Down(w)
    case Stopping => Down(w) && NodeDown(w)
    case _ => Rises(w.ops) || exists gen :: Serves(w.ops, gen)
  }

  // ---------- the steps ----------

  lemma DownStays(m: GR.Machine, a: GR.Action)
    requires GR.Enabled(m, a) && !a.InstallStart? && (m.inner.process.None? || m.inner.terminal.Some?)
    ensures GR.Do(m, a).machine.inner.process.None? || GR.Do(m, a).machine.inner.terminal.Some?
  {
    if a.Apply? { DownHandled(m); }
  }

  lemma DownHandled(m: GR.Machine)
    requires GR.Applicable(m) && (m.inner.process.None? || m.inner.terminal.Some?)
    ensures GR.Handled(m).machine.inner.process.None? || GR.Handled(m).machine.inner.terminal.Some?
  {
  }

  /** What others than the holder of `ops` leave of it. */
  ghost predicate Leaves(w: World, v: World) {
    v.ops == w.ops && (Down(w) ==> Down(v)) && (NodeDown(w) ==> NodeDown(v))
  }

  lemma GatewayLeaves(w: World, a: Action)
    requires Enabled(w, a) && (a.Gateway? || a.FailGateway?)
    ensures Leaves(w, Do(w, a))
  {
    var from := if a.Gateway? then w else w.(fails := w.fails - 1);
    var g := if a.Gateway? then a.a else GR.FailNow(a.why);
    assert Do(w, a) == Supervised(from, g);
    if Down(w) { DownStays(w.gw, g); }
    hide GR.Do, GR.Enabled;
  }

  lemma OthersLeave(w: World, a: Action)
    requires Enabled(w, a) && (OfNode(a) || OfCloser(a))
    ensures Leaves(w, Do(w, a))
  {
    if a.NodeHears? { HearsReads(w); }
  }

  lemma LeavesUnderway(w: World, v: World)
    requires Underway(w) && Leaves(w, v)
    ensures Underway(v)
  {
  }

  /** Everything the enable has started is being told to go. */
  predicate Falls(op: Op) {
    op.Disable? || op.DisableGateway? || op.DisableNode? || op.Stopping?
  }

  /** The tear-down: first the gateway is told, then the node. */
  lemma Falling(w: World, a: Action)
    requires a.Advance? && MayAdvance(w, a) && Falls(w.ops) && Underway(w)
    ensures var v := Advanced(w, a);
            if v.ops.Free? then w.ops.Stopping? && Down(v) && NodeDown(v) else Falls(v.ops) && Underway(v)
  {
    if w.ops.Disable? && !w.ops.u.Quieted? { AsksOn(w, a); }
  }

  lemma AsksOn(w: World, a: Action)
    requires a.Advance? && MayAdvance(w, a) && w.ops.Disable? && !w.ops.u.Quieted?
    ensures Advanced(w, a).ops.Disable?
  {
  }

  lemma RisesOn(w: World, a: Action)
    requires a.Advance? && MayAdvance(w, a) && Rises(w.ops)
    ensures var v := Advanced(w, a);
            Rises(v.ops) || v.ops == Disable(Asking) || (w.ops.EnableServe? && v.ops == EnableAnswer(w.ops.gen))
  {
  }

  lemma ServesOn(w: World, a: Action, gen: nat)
    requires a.Advance? && MayAdvance(w, a) && Serves(w.ops, gen)
    ensures var v := Advanced(w, a);
            && (v.ops == EnableConfirm(gen) || v.ops == Disable(Asking) || v.ops.Free?)
            && (v.ops.Free? ==> w.ops == EnableConfirm(gen))
  {
  }

  /** The last check of an enable: it succeeds exactly if its gateway runs. */
  lemma ConfirmedExactly(w: World, a: Action, gen: nat)
    requires Inv(w) && a.Advance? && MayAdvance(w, a) && w.ops == EnableConfirm(gen)
    ensures Advanced(w, a).ops.Free? <==> Runs(w, gen)
    ensures Advanced(w, a).gw == w.gw && (Advanced(w, a).ops.Free? || Advanced(w, a).ops == Disable(Asking))
  {
  }

  /** What is left when the holder lets go. */
  predicate Ended(w: World, v: World) {
    if w.ops.EnableConfirm? then Runs(v, w.ops.gen) else w.ops.Stopping? && Down(v) && NodeDown(v)
  }

  lemma AdvanceUnderway(w: World, a: Action)
    requires Inv(w) && a.Advance? && MayAdvance(w, a) && Underway(w)
    ensures var v := Advanced(w, a); if v.ops.Free? then Ended(w, v) else Underway(v)
    ensures var v := Advanced(w, a); Falls(w.ops) && !v.ops.Free? ==> Falls(v.ops)
  {
    hide Advanced, MayAdvance, Inv;
    if Falls(w.ops) {
      Falling(w, a);
    } else if Rises(w.ops) {
      RisesOn(w, a);
      if w.ops.EnableServe? { assert Serves(EnableAnswer(w.ops.gen), w.ops.gen); }
    } else {
      var gen :| Serves(w.ops, gen);
      ServesOn(w, a, gen);
      if w.ops.EnableConfirm? { ConfirmedExactly(w, a, gen); }
      assert Advanced(w, a).ops == EnableConfirm(gen) ==> Serves(Advanced(w, a).ops, gen);
    }
  }

  lemma KillUnderway(w: World, a: Action)
    requires Enabled(w, a) && a.StopKills? && Underway(w)
    ensures Underway(Do(w, a)) && Falls(Do(w, a).ops)
  {
  }

  lemma UnderwayStep(w: World, a: Action)
    requires Inv(w) && Enabled(w, a) && Underway(w)
    ensures var v := Do(w, a);
            && (if v.ops.Free? then Ended(w, v) else Underway(v))
            && (Falls(w.ops) && !v.ops.Free? ==> Falls(v.ops))
            && (!a.Advance? && !Falls(w.ops) ==> v.ops == w.ops)
  {
    assert !w.ops.Free? && !a.Take?;
    assert a.Advance? ==> MayAdvance(w, a) && Do(w, a) == Advanced(w, a);
    hide Do, Advanced, MayAdvance, Inv;
    if a.Gateway? || a.FailGateway? {
      GatewayLeaves(w, a);
      LeavesUnderway(w, Do(w, a));
    } else if OfNode(a) || OfCloser(a) {
      OthersLeave(w, a);
      LeavesUnderway(w, Do(w, a));
    } else if a.Advance? {
      AdvanceUnderway(w, a);
    } else {
      KillUnderway(w, a);
    }
  }

  // ---------- every run ----------

  ghost predicate Holds(ws: seq<World>, i: nat, j: nat)
    requires j < |ws|
  {
    forall t :: i <= t <= j ==> !ws[t].ops.Free?
  }

  lemma {:induction false} StaysUnderway(ws: seq<World>, acts: seq<Action>, i: nat, j: nat)
    requires Run(ws, acts) && i <= j < |ws| && Underway(ws[i]) && Holds(ws, i, j)
    ensures Underway(ws[j]) && (Falls(ws[i].ops) ==> Falls(ws[j].ops))
  {
    hide Do, Enabled, Inv, Underway, Ended;
    if i < j {
      StaysUnderway(ws, acts, i, j - 1);
      RunKeeps(ws, acts, j - 1);
      UnderwayStep(ws[j - 1], acts[j - 1]);
    }
  }

  /** However an enable that has begun to start things ends: with its gateway running, or with the
      gateway and the node gone or told to go. */
  lemma EnableEnds(ws: seq<World>, acts: seq<Action>, i: nat, j: nat)
    requires Run(ws, acts) && i <= j < |acts| && Underway(ws[i]) && Holds(ws, i, j) && ws[j + 1].ops.Free?
    ensures Ended(ws[j], ws[j + 1]) && (Falls(ws[i].ops) ==> ws[j].ops.Stopping?)
  {
    StaysUnderway(ws, acts, i, j);
    RunKeeps(ws, acts, j);
    hide Do, Enabled, Inv, Underway;
    UnderwayStep(ws[j], acts[j]);
  }

  lemma {:induction false} StaysServing(ws: seq<World>, acts: seq<Action>, i: nat, j: nat, gen: nat)
    requires Run(ws, acts) && i <= j < |ws| && Serves(ws[i].ops, gen) && Holds(ws, i, j)
    requires forall t :: i < t <= j ==> !ws[t].ops.Disable?
    ensures Serves(ws[j].ops, gen)
  {
    hide Do, Enabled, Inv, Serves;
    if i < j {
      StaysServing(ws, acts, i, j - 1, gen);
      RunKeeps(ws, acts, j - 1);
      ServingStep(ws[j - 1], acts[j - 1], gen);
    }
  }

  lemma ServingStep(w: World, a: Action, gen: nat)
    requires Inv(w) && Enabled(w, a) && Serves(w.ops, gen)
    ensures var v := Do(w, a); Serves(v.ops, gen) || v.ops.Disable? || v.ops.Free?
  {
    assert Underway(w);
    assert a.Advance? ==> MayAdvance(w, a) && Do(w, a) == Advanced(w, a);
    hide Do, Advanced, MayAdvance, Inv, Enabled, Underway, Ended;
    if a.Advance? { ServesOn(w, a, gen); } else { UnderwayStep(w, a); }
  }

  /** From the `serve` for a gateway until `ops` is free again: the enable was not torn down exactly if
      that gateway runs. If it was, the gateway and the node are gone or told to go. */
  lemma EnabledExactly(ws: seq<World>, acts: seq<Action>, i: nat, j: nat, gen: nat)
    requires Run(ws, acts) && i < j < |acts| && ws[i].ops == EnableServe(gen) && ws[i + 1].ops == EnableAnswer(gen)
    requires Holds(ws, i, j) && ws[j + 1].ops.Free?
    ensures Runs(ws[j + 1], gen) <==> forall t :: i < t <= j ==> !ws[t].ops.Disable?
    ensures !Runs(ws[j + 1], gen) ==> Down(ws[j + 1]) && NodeDown(ws[j + 1])
  {
    assert Underway(ws[i]) && Serves(ws[i + 1].ops, gen);
    hide Do, Enabled, Inv, Underway, Runs, Down, NodeDown, Ended, Serves;
    if t :| i < t <= j && ws[t].ops.Disable? {
      assert Falls(ws[t].ops);
      hide Falls;
      StaysUnderway(ws, acts, i, t);
      EnableEnds(ws, acts, t, j);
      StoppedEnds(ws[j], ws[j + 1], gen);
    } else {
      StaysServing(ws, acts, i + 1, j, gen);
      RunKeeps(ws, acts, j);
      LetsGo(ws[j], acts[j], gen);
    }
  }

  lemma StoppedEnds(w: World, v: World, gen: nat)
    requires Ended(w, v) && w.ops.Stopping?
    ensures !Runs(v, gen) && Down(v) && NodeDown(v)
  {
  }

  lemma ServesIsUnderway(w: World, gen: nat)
    requires Serves(w.ops, gen)
    ensures Underway(w) && !Falls(w.ops)
  {
  }

  lemma LetsGo(w: World, a: Action, gen: nat)
    requires Inv(w) && Enabled(w, a) && Serves(w.ops, gen) && Do(w, a).ops.Free?
    ensures Runs(Do(w, a), gen)
  {
    assert a.Advance? ==> MayAdvance(w, a) && Do(w, a) == Advanced(w, a);
    hide Do, Advanced, MayAdvance, Inv, Enabled, Underway, Falls, Runs, Down, NodeDown, Serves, Ended;
    ServesIsUnderway(w, gen);
    UnderwayStep(w, a);
    if a.Advance? { ServesOn(w, a, gen); }
    ConfirmedEnds(w, Do(w, a), gen);
  }

  lemma ConfirmedEnds(w: World, v: World, gen: nat)
    requires Ended(w, v) && w.ops == EnableConfirm(gen)
    ensures Runs(v, gen)
  {
  }
}
