/** How the jobs end that take the node away: the cleanup after an exit nobody asked for, the end of a
    login, and the logout (src-tauri/src/companion_commands.rs). */
module NodeEnds {
  import opened Wrappers
  import opened Takedown
  import opened TakedownSafety
  import opened EnableEnds
  import G = Gateway
  import GR = GatewayRuns
  import N = Node

  // ---------- one step ----------

  /** The holder is about to stop the node, or has and waits for that. */
  predicate Cleans(w: World) {
    w.ops.Cleanup? || (w.ops.Stopping? && NodeDown(w))
  }

  lemma StopsNode(w: World)
    ensures NodeDown(StopNode(w)) && StopNode(w).ops == w.ops
  {
  }

  lemma CleanupAdvances(w: World, a: Action)
    requires a.Advance? && MayAdvance(w, a) && Cleans(w)
    ensures Cleans(Advanced(w, a)) || (w.ops.Stopping? && Advanced(w, a).ops.Free? && NodeDown(Advanced(w, a)))
  {
    StopsNode(w);
    if w.ops.Cleanup? { UnservedLeaves(w, w.ops.u, a.works); }
    hide StopNode, Unserved, NodeDown;
  }

  lemma UnservedLeaves(w: World, u: Unserving, sent: bool)
    ensures Unserved(w, u, sent).0.ops == w.ops
  {
  }

  /** A login whose node has come up is over: the node is told to stop. */
  lemma RememberedAdvances(w: World, a: Action)
    requires a.Advance? && MayAdvance(w, a) && w.ops == Remembered(true)
    ensures Advanced(w, a).ops.Stopping? <==> w.node.process.Some? && w.node.process.value.mode == N.Login
    ensures Advanced(w, a).ops.Stopping? ==> NodeDown(Advanced(w, a))
    ensures !Advanced(w, a).ops.Stopping? ==> Advanced(w, a) == w.(ops := Free)
  {
    StopsNode(w);
  }

  /** Others leave the holder where it is, and a node that is going. */
  lemma OthersWait(w: World, a: Action)
    requires Enabled(w, a) && !a.Advance? && !w.ops.Free? && !a.StopKills?
    ensures Do(w, a).ops == w.ops && (NodeDown(w) ==> NodeDown(Do(w, a)))
  {
    if a.Gateway? || a.FailGateway? { GatewayLeaves(w, a); }
    else if OfNode(a) || OfCloser(a) { OthersLeave(w, a); }
    hide Do, GR.Do;
  }

  lemma CleansStep(w: World, a: Action)
    requires Enabled(w, a) && Cleans(w)
    ensures var v := Do(w, a); Cleans(v) || (w.ops.Stopping? && v.ops.Free? && NodeDown(v))
  {
    assert a.Advance? ==> MayAdvance(w, a) && Do(w, a) == Advanced(w, a);
    assert !a.StopKills?;
    hide Do, Enabled, Advanced, MayAdvance, NodeDown;
    if a.Advance? { CleanupAdvances(w, a); } else { OthersWait(w, a); }
  }

  // ---------- every run ----------

  lemma {:induction false} StaysCleaning(ws: seq<World>, acts: seq<Action>, i: nat, j: nat)
    requires Run(ws, acts) && i <= j < |ws| && Cleans(ws[i]) && Holds(ws, i, j)
    ensures Cleans(ws[j])
  {
    hide Do, Enabled, Cleans;
    if i < j {
      StaysCleaning(ws, acts, i, j - 1);
      CleansStep(ws[j - 1], acts[j - 1]);
    }
  }

  /** A cleanup lets go of `ops` only when the node is gone or told to stop. */
  lemma CleanupEnds(ws: seq<World>, acts: seq<Action>, i: nat, j: nat)
    requires Run(ws, acts) && i <= j < |acts| && ws[i].ops.Cleanup? && Holds(ws, i, j) && ws[j + 1].ops.Free?
    ensures NodeDown(ws[j + 1])
  {
    StaysCleaning(ws, acts, i, j);
    hide Do, Enabled, NodeDown;
    CleansStep(ws[j], acts[j]);
  }

  // ---------- the logout ----------

  /** There is nothing to log out, or the node says that it is, or that nobody is logged in. */
  predicate Confirms(w: World, a: Action) {
    && a.Advance?
    && match w.ops
       case LogoutStart => !a.works
       case LogoutNode => !a.works && (w.node.state.NeedsLogin? || w.node.state.NeedsApproval?)
       case LogoutWait => a.works && w.node.loggedOut
       case _ => false
  }

  /** The logout has been confirmed, and what is stored of the node may go. */
  predicate Removes(op: Op) {
    op == LogoutEnd(true) || op.LogoutRemove? || op.LogoutForget?
  }

  predicate LogsOut(op: Op) {
    || op.LogoutStop? || op.LogoutStart? || op.LogoutNode? || op.LogoutWait? || op.LogoutEnd? || op.LogoutRemove?
    || op.LogoutForget?
  }

  lemma LogoutAdvances(w: World, a: Action)
    requires a.Advance? && MayAdvance(w, a) && LogsOut(w.ops) && Removes(Advanced(w, a).ops)
    ensures Removes(w.ops) || Confirms(w, a)
  {
    hide StopNode, StartNode, Saved;
  }

  lemma OtherAdvances(w: World, a: Action)
    requires a.Advance? && MayAdvance(w, a) && !LogsOut(w.ops)
    ensures !Removes(Advanced(w, a).ops)
  {
    if Rises(w.ops) {
      RisesOn(w, a);
      hide Advanced, MayAdvance;
    } else if w.ops.EnableAnswer? || w.ops.EnableConfirm? {
      ServesOn(w, a, w.ops.gen);
      hide Advanced, MayAdvance;
    } else {
      hide StopNode, StartNode, Unserved, Saved, Supervised;
    }
  }

  lemma RemovesAfter(w: World, a: Action)
    requires a.Advance? && MayAdvance(w, a) && Removes(Advanced(w, a).ops)
    ensures Removes(w.ops) || Confirms(w, a)
  {
    hide Advanced, MayAdvance, Confirms;
    if LogsOut(w.ops) { LogoutAdvances(w, a); } else { OtherAdvances(w, a); }
  }

  lemma RemovesStep(w: World, a: Action)
    requires Enabled(w, a) && Removes(Do(w, a).ops)
    ensures Removes(w.ops) || Confirms(w, a)
  {
    assert a.Advance? ==> MayAdvance(w, a) && Do(w, a) == Advanced(w, a);
    assert a.Take? ==> MayTake(w, a.job) && Do(w, a) == Taken(w, a.job);
    hide Do, Enabled, Advanced, MayAdvance, Confirms, Taken, MayTake;
    if a.Advance? { RemovesAfter(w, a); }
    else if a.StopKills? { KillsElse(w, a); }
    else if a.Take? { TakesElse(w, a.job); }
    else if w.ops.Free? { FreeStays(w, a); }
    else { OthersWait(w, a); }
  }

  lemma KillsElse(w: World, a: Action)
    requires Enabled(w, a) && a.StopKills?
    ensures !Removes(Do(w, a).ops)
  {
  }

  lemma TakesElse(w: World, job: Job)
    requires MayTake(w, job)
    ensures !Removes(Taken(w, job).ops)
  {
    hide StopNode;
  }

  lemma FreeStays(w: World, a: Action)
    requires Enabled(w, a) && !a.Advance? && !a.Take? && w.ops.Free?
    ensures Do(w, a).ops.Free?
  {
    if a.Gateway? || a.FailGateway? { GatewayLeaves(w, a); }
    else if OfNode(a) || OfCloser(a) { OthersLeave(w, a); }
    hide Do, GR.Do;
  }

  /** What is stored of the node is removed only after its logout was confirmed. */
  lemma {:induction false} LogoutIsConfirmed(ws: seq<World>, acts: seq<Action>, k: nat) returns (i: nat)
    requires Run(ws, acts) && k < |ws| && Removes(ws[k].ops)
    ensures i < k && Confirms(ws[i], acts[i]) && forall t :: i < t <= k ==> Removes(ws[t].ops)
  {
    hide Do, Enabled, Confirms;
    if k > 0 {
      RemovesStep(ws[k - 1], acts[k - 1]);
      if Removes(ws[k - 1].ops) {
        i := LogoutIsConfirmed(ws, acts, k - 1);
      } else {
        i := k - 1;
      }
    }
  }

  // ---------- what is cleared first ----------

  /** An enable and a login take away the failure that an earlier gateway left behind. */
  lemma FailureIsCleared(w: World, a: Action)
    requires a.Advance? && MayAdvance(w, a) && ((w.ops.EnableInputs? && a.works) || w.ops.LoginStart?)
    ensures var v := Advanced(w, a); v.gw.inner.process.None? ==> !v.gw.inner.status.Failed?
  {
    hide StartNode;
    if w.ops.LoginStart? { StartLeavesGateway(Supervised(w, GR.Clear)); }
  }

  lemma StartLeavesGateway(w: World)
    ensures StartNode(w, N.Login).gw == w.gw
  {
  }
}
