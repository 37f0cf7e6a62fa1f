/** Settings follow the node: `settings.net` is its latest identity, or somebody has still to
    write that (src-tauri/src/companion_commands.rs:163-187, 375-379, 488-490, 840-847). */
module SettingsFollow {
  import opened Wrappers
  import opened Takedown
  import opened TakedownSafety
  import GR = GatewayRuns
  import N = Node

  /** A notice task that has not taken its turn yet. */
  predicate Due(w: World) {
    w.ran + w.mustLogIn > 0
  }

  predicate Current(w: World, seen: Option<N.Identity>) {
    seen == w.node.identity || Due(w)
  }

  /** What the holder of `ops` knows of the settings and the node. */
  ghost predicate HolderKnows(w: World) {
    match w.ops
    case EnableStart(loaded) => loaded == w.settings
    case EnableNode(loaded) => loaded == w.settings
    case EnableCert(loaded, node) => loaded == w.settings && Current(w, Some(node))
    case EnableSave(loaded, node) => loaded == w.settings && Current(w, Some(node))
    case RememberWrite(_, seen) => Current(w, seen)
    case LogoutForget => Current(w, None)
    case _ => true
  }

  ghost predicate Follows(w: World) {
    w.clean ==>
      && w.settings.rest == w.wanted
      && HolderKnows(w)
      && (Current(w, w.settings.net) || w.ops.Remember? || w.ops.RememberWrite? || w.ops.LogoutForget?)
  }

  /** What matters here stays as it is. */
  ghost predicate Apart(w: World, v: World) {
    && v.settings == w.settings && v.wanted == w.wanted && v.clean == w.clean
    && v.node.identity == w.node.identity && v.ran == w.ran && v.mustLogIn == w.mustLogIn
  }

  lemma SupervisedApart(w: World, a: GR.Action)
    requires GR.Enabled(w.gw, a)
    ensures Apart(w, Supervised(w, a)) && Supervised(w, a).ops == w.ops
  {
  }

  lemma ClosersApart(w: World, a: Action)
    requires Enabled(w, a) && !a.Take? && !a.Advance? && !a.NodeHears? && !a.StopKills?
    ensures Apart(w, Do(w, a)) && Do(w, a).ops == w.ops
  {
    if a.Gateway? { SupervisedApart(w, a.a); }
    if a.FailGateway? { SupervisedApart(w.(fails := w.fails - 1), GR.FailNow(a.why)); }
  }

  /** The node's identity changes only with a notice that has then to be handled. */
  lemma HearsFollows(w: World)
    requires Follows(w) && w.side.events != []
    ensures Follows(HearFirst(w))
  {
    var v := HearFirst(w);
    assert v.node.identity == w.node.identity || Due(v);
    assert Due(w) ==> Due(v);
  }

  lemma TakeFollows(w: World, job: Job)
    requires Follows(w) && MayTake(w, job)
    ensures Follows(Taken(w, job))
  {
  }

  lemma EnableFollows(w: World, a: Action)
    requires Follows(w) && a.Advance? && MayAdvance(w, a)
    requires w.ops.EnableInputs? || w.ops.EnableStart? || w.ops.EnableNode? || w.ops.EnableCert? || w.ops.EnableSave?
    ensures Follows(Advanced(w, a))
  {
    if w.ops.EnableInputs? { SupervisedApart(w, GR.Clear); }
  }

  lemma NoticesFollow(w: World, a: Action)
    requires Follows(w) && a.Advance? && MayAdvance(w, a) && (w.ops.Remember? || w.ops.RememberWrite?)
    ensures Follows(Advanced(w, a))
  {
  }

  lemma WritersFollow(w: World, a: Action)
    requires Follows(w) && a.Advance? && MayAdvance(w, a)
    requires w.ops.Remember? || w.ops.RememberWrite? || w.ops.LogoutRemove? || w.ops.LogoutForget? || w.ops.SetWrite?
    ensures Follows(Advanced(w, a))
  {
    if w.ops.Remember? || w.ops.RememberWrite? { NoticesFollow(w, a); }
  }

  lemma GatewayPhasesApart(w: World, a: Action)
    requires a.Advance? && MayAdvance(w, a)
    requires w.ops.EnableLaunch? || w.ops.EnableSpawn? || w.ops == Disable(Quieted) || w.ops.LoginStart?
    ensures Apart(w, Advanced(w, a))
    ensures Advanced(w, a).ops.EnableSpawn? || Advanced(w, a).ops.EnableReady? || Advanced(w, a).ops.Disable?
            || Advanced(w, a).ops.DisableGateway? || Advanced(w, a).ops.Free?
  {
    if w.ops.EnableSpawn? {
      if !a.works { SupervisedApart(w, GR.RefuseStart("companion-unavailable")); }
      else if w.gw.launch.Launch? && w.gw.launch.list.None? { SupervisedApart(w, GR.LoadList); }
      else { SupervisedApart(w, GR.InstallStart(a.port)); }
    }
    if w.ops.EnableLaunch? && GR.Enabled(w.gw, GR.Begin) { SupervisedApart(w, GR.Begin); }
    if w.ops.Disable? { SupervisedApart(w, GR.Stop); }
    if w.ops.LoginStart? { SupervisedApart(w, GR.Clear); }
  }

  predicate Knowing(op: Op) {
    || op.EnableInputs? || op.EnableStart? || op.EnableNode? || op.EnableCert? || op.EnableSave?
    || op.Remember? || op.RememberWrite? || op.LogoutRemove? || op.LogoutForget? || op.SetWrite?
  }

  predicate OfGateway(op: Op) {
    op.EnableLaunch? || op.EnableSpawn? || op == Disable(Quieted) || op.LoginStart?
  }

  predicate StopsNode(op: Op) {
    op.Disable? || op.DisableGateway? || op.DisableNode? || op.Cleanup? || op.Remembered? || op.LogoutEnd?
    || op.LogoutStop? || op.LogoutStart? || op.LogoutNode? || op.LogoutWait? || op.Stopping?
  }

  lemma StopsApart(w: World, a: Action)
    requires a.Advance? && MayAdvance(w, a) && StopsNode(w.ops) && !OfGateway(w.ops)
    ensures Apart(w, Advanced(w, a))
    ensures !Knowing(Advanced(w, a).ops) || Advanced(w, a).ops.LogoutRemove?
  {
    if w.ops.Disable? || w.ops.Cleanup? {
      UnservingApart(w, a);
    } else if w.ops.LogoutStart? || w.ops.LogoutNode? || w.ops.LogoutEnd? {
      LogoutApart(w, a);
    }
  }

  lemma LogoutApart(w: World, a: Action)
    requires a.Advance? && MayAdvance(w, a)
    requires w.ops.LogoutStart? || w.ops.LogoutNode? || w.ops.LogoutEnd?
    ensures Apart(w, Advanced(w, a))
    ensures !Knowing(Advanced(w, a).ops) || Advanced(w, a).ops.LogoutRemove?
  {
  }

  lemma UnservingApart(w: World, a: Action)
    requires a.Advance? && MayAdvance(w, a) && (w.ops.Disable? || w.ops.Cleanup?) && !OfGateway(w.ops)
    ensures Apart(w, Advanced(w, a)) && !Knowing(Advanced(w, a).ops)
  {
  }

  lemma OtherPhasesApart(w: World, a: Action)
    requires a.Advance? && MayAdvance(w, a) && !Knowing(w.ops) && !OfGateway(w.ops)
    ensures Apart(w, Advanced(w, a))
    ensures !Knowing(Advanced(w, a).ops) || Advanced(w, a).ops.LogoutRemove?
  {
    if StopsNode(w.ops) { StopsApart(w, a); }
  }

  lemma FollowsStep(w: World, a: Action)
    requires Follows(w) && Enabled(w, a)
    ensures Follows(Do(w, a))
  {
    if a.Take? {
      TakeFollows(w, a.job);
    } else if a.NodeHears? {
      HearsFollows(w);
    } else if a.Advance? {
      if OfGateway(w.ops) { GatewayPhasesApart(w, a); }
      else if !Knowing(w.ops) { OtherPhasesApart(w, a); }
      else if w.ops.EnableInputs? || w.ops.EnableStart? || w.ops.EnableNode? || w.ops.EnableCert? || w.ops.EnableSave? {
        EnableFollows(w, a);
      } else {
        WritersFollow(w, a);
      }
    } else if !a.StopKills? {
      ClosersApart(w, a);
    }
  }

  lemma {:induction false} RunFollows(ws: seq<World>, acts: seq<Action>, k: nat)
    requires Run(ws, acts) && k < |ws|
    ensures Follows(ws[k])
  {
    if k > 0 {
      RunFollows(ws, acts, k - 1);
      FollowsStep(ws[k - 1], acts[k - 1]);
    }
  }

  /** As long as no settings write fails: in every reachable state settings hold the node's
      identity, or a notice task or the operation that holds `ops` has still to write it. When
      no task is left they are equal, and no settings command has been lost to another's write. */
  lemma SettingsFollowTheNode(ws: seq<World>, acts: seq<Action>, k: nat)
    requires Run(ws, acts) && k < |ws| && ws[k].clean
    ensures || ws[k].settings.net == ws[k].node.identity
            || Due(ws[k])
            || ws[k].ops.Remember? || ws[k].ops.RememberWrite? || ws[k].ops.LogoutForget?
    ensures ws[k].settings.rest == ws[k].wanted
    ensures ws[k].ops.Free? && !Due(ws[k]) ==> ws[k].settings == Settings(ws[k].node.identity, ws[k].wanted)
  {
    RunFollows(ws, acts, k);
  }
}
