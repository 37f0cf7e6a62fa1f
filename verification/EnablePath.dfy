/** What an enable has gone through by the time it tells the node to serve
    (`bring_up` in src-tauri/src/companion_commands.rs). */
module EnablePath {
  import opened Wrappers
  import opened Takedown
  import opened TakedownSafety
  import opened EnableEnds
  import G = Gateway
  import GR = GatewayRuns
  import N = Node

  // ---------- one step ----------

  /** The node runs under this identity and can do HTTPS. */
  predicate NodeUp(w: World, node: N.Identity) {
    w.node.state.Running? && w.node.identity == Some(node) && w.node.https == Some(true)
  }

  predicate CertUp(w: World) {
    w.node.certReady && !w.node.state.NeedsLogin? && !w.node.state.NeedsApproval?
  }

  /** The settings are written, with this identity. */
  predicate Stores(w: World, a: Action, v: World) {
    && a.Advance? && w.ops.EnableSave? && a.write.Saved?
    && v.settings == w.ops.loaded.(net := Some(w.ops.node))
  }

  predicate PastSave(op: Op) {
    || op.EnableCount? || op.EnableLaunch? || op.EnableSpawn? || op.EnableReady? || op.EnableGate? || op.EnableCheck?
    || op.EnableServe?
  }

  /** The count is taken before the gateway is started. */
  predicate Counts(w: World, a: Action, before: nat) {
    a.Advance? && w.ops.EnableCount? && w.leaving == before
  }

  predicate Starts(w: World, a: Action, before: nat, gen: nat) {
    a.Advance? && w.ops == EnableSpawn(before) && w.gw.inner.generation + 1 == gen
  }

  predicate SeesReady(w: World, a: Action, before: nat, gen: nat, port: nat) {
    a.Advance? && w.ops == EnableReady(before, gen) && w.gw.inner.status == G.Running(port)
  }

  /** No gateway has begun to leave since the count, and this one runs on the port it was ready on. */
  predicate Checks(w: World, a: Action, before: nat, gen: nat, port: nat) {
    a.Advance? && w.ops == EnableCheck(before, gen, port) && w.leaving == before && w.gw.inner.status == G.Running(port)
  }

  // Only the holder's own steps take it on, and nobody gets in between.

  lemma OthersStay(w: World, a: Action)
    requires Enabled(w, a) && !a.Advance? && Rises(Do(w, a).ops)
    ensures Do(w, a).ops == w.ops
  {
    hide GR.Do, GR.Enabled, Unserved;
    if a.Take? { TakesElsewhere(w, a.job); }
    else if a.CloserUnserves? { UnservedLeavesOps(w, w.closers[a.id].stage.u, a.sent); }
  }

  lemma TakesElsewhere(w: World, job: Job)
    requires MayTake(w, job)
    ensures !Rises(Taken(w, job).ops)
  {
    hide StopNode;
  }

  lemma UnservedLeavesOps(w: World, u: Unserving, sent: bool)
    ensures Unserved(w, u, sent).0.ops == w.ops
  {
  }

  lemma NoWayIn(w: World, a: Action)
    requires a.Advance? && MayAdvance(w, a) && !Rises(w.ops)
    ensures !Rises(Advanced(w, a).ops) || Advanced(w, a).ops.EnableStart?
  {
    hide GR.Do, GR.Enabled, Unserved, StartNode, StopNode;
  }

  /** A step before the gateway is started. */
  lemma NodeAdvances(w: World, a: Action)
    requires a.Advance? && MayAdvance(w, a) && Rises(w.ops)
    ensures var v := Advanced(w, a);
            && (v.ops.EnableCert? ==> w.ops == EnableNode(v.ops.loaded) && NodeUp(w, v.ops.node))
            && (v.ops.EnableSave? ==> w.ops == EnableCert(v.ops.loaded, v.ops.node) && CertUp(w))
            && (PastSave(v.ops) ==> PastSave(w.ops) || Stores(w, a, v))
  {
    hide GR.Do, GR.Enabled, StartNode;
  }

  /** A step from then on. */
  ghost predicate GoesOn(w: World, a: Action, v: World) {
    match v.ops
    case EnableLaunch(before) => Counts(w, a, before)
    case EnableSpawn(before) => w.ops == v.ops || w.ops == EnableLaunch(before)
    case EnableReady(before, gen) => Starts(w, a, before, gen) && Installed(v, gen)
    case EnableGate(before, gen, port) => SeesReady(w, a, before, gen, port)
    case EnableCheck(before, gen, port) => w.ops == EnableGate(before, gen, port)
    case EnableServe(gen) => w.ops.EnableCheck? && Checks(w, a, w.ops.before, gen, w.ops.port)
    case _ => true
  }

  lemma SpawnAdvances(w: World, a: Action)
    requires GR.Generations(w.gw) && a.Advance? && MayAdvance(w, a) && w.ops.EnableSpawn?
    ensures GoesOn(w, a, Advanced(w, a))
  {
  }

  lemma GatewayAdvances(w: World, a: Action)
    requires GR.Generations(w.gw) && a.Advance? && MayAdvance(w, a) && Rises(w.ops)
    ensures GoesOn(w, a, Advanced(w, a))
  {
    if w.ops.EnableSpawn? {
      SpawnAdvances(w, a);
    } else {
      hide StartNode, GR.Do, GR.Enabled, GR.Generations;
    }
  }

  // ---------- every run ----------

  /** The same enable from n to k. */
  ghost predicate Within(ws: seq<World>, n: nat, k: nat) {
    n <= k < |ws| && forall t :: n <= t <= k ==> Rises(ws[t].ops)
  }

  lemma CameBy(w: World, a: Action)
    requires Enabled(w, a) && Rises(Do(w, a).ops) && !Do(w, a).ops.EnableStart? && w.ops != Do(w, a).ops
    ensures a.Advance? && MayAdvance(w, a) && Do(w, a) == Advanced(w, a) && Rises(w.ops)
  {
    if !a.Advance? {
      OthersStay(w, a);
    } else {
      assert MayAdvance(w, a) && Do(w, a) == Advanced(w, a);
      hide Do, Enabled, Advanced, MayAdvance;
      if !Rises(w.ops) { NoWayIn(w, a); }
    }
  }

  lemma Generational(w: World)
    requires Inv(w)
    ensures GR.Generations(w.gw)
  {
    hide Guard;
  }

  /** How an enable came to where it is: nothing but its own steps took it on. */
  lemma CameFrom(ws: seq<World>, acts: seq<Action>, k: nat)
    requires Run(ws, acts) && k < |acts| && Rises(ws[k + 1].ops) && !ws[k + 1].ops.EnableStart?
    requires ws[k].ops != ws[k + 1].ops
    ensures acts[k].Advance? && MayAdvance(ws[k], acts[k]) && ws[k + 1] == Advanced(ws[k], acts[k]) && Rises(ws[k].ops)
    ensures GR.Generations(ws[k].gw)
  {
    hide Do, Enabled, Advanced, MayAdvance, Inv, GR.Generations, Rises;
    RunKeeps(ws, acts, k);
    Generational(ws[k]);
    CameBy(ws[k], acts[k]);
  }

  /** The node had come up, and its certificate, and the settings were written with its identity. */
  ghost predicate Prepared(ws: seq<World>, acts: seq<Action>, n: nat, c: nat, s: nat, k: nat) {
    && Run(ws, acts) && n < c < s < k && Within(ws, n, k)
    && ws[s].ops.EnableSave? && acts[s].Advance? && acts[s].write.Saved?
    && ws[s + 1].settings == ws[s].ops.loaded.(net := Some(ws[s].ops.node))
    && ws[c].ops == EnableCert(ws[s].ops.loaded, ws[s].ops.node) && acts[c].Advance? && CertUp(ws[c])
    && ws[n].ops == EnableNode(ws[s].ops.loaded) && acts[n].Advance? && NodeUp(ws[n], ws[s].ops.node)
  }

  lemma {:induction false} NodeCameUp(ws: seq<World>, acts: seq<Action>, k: nat) returns (n: nat)
    requires Run(ws, acts) && k < |ws| && ws[k].ops.EnableCert?
    ensures n < k && Within(ws, n, k)
    ensures ws[n].ops == EnableNode(ws[k].ops.loaded) && acts[n].Advance? && NodeUp(ws[n], ws[k].ops.node)
  {
    hide Do, Enabled, Advanced, MayAdvance, NodeUp;
    if ws[k - 1].ops == ws[k].ops {
      n := NodeCameUp(ws, acts, k - 1);
    } else {
      n := k - 1;
      CameFrom(ws, acts, n);
      NodeAdvances(ws[n], acts[n]);
    }
  }

  lemma {:induction false} CertCameUp(ws: seq<World>, acts: seq<Action>, k: nat) returns (n: nat, c: nat)
    requires Run(ws, acts) && k < |ws| && ws[k].ops.EnableSave?
    ensures n < c < k && Within(ws, n, k)
    ensures ws[c].ops == EnableCert(ws[k].ops.loaded, ws[k].ops.node) && acts[c].Advance? && CertUp(ws[c])
    ensures ws[n].ops == EnableNode(ws[k].ops.loaded) && acts[n].Advance? && NodeUp(ws[n], ws[k].ops.node)
  {
    hide Do, Enabled, Advanced, MayAdvance, NodeUp, CertUp;
    if ws[k - 1].ops == ws[k].ops {
      n, c := CertCameUp(ws, acts, k - 1);
    } else {
      c := k - 1;
      CameFrom(ws, acts, c);
      NodeAdvances(ws[c], acts[c]);
      n := NodeCameUp(ws, acts, c);
    }
  }

  lemma {:induction false} WasPrepared(ws: seq<World>, acts: seq<Action>, k: nat) returns (n: nat, c: nat, s: nat)
    requires Run(ws, acts) && k < |ws| && PastSave(ws[k].ops)
    ensures Prepared(ws, acts, n, c, s, k)
  {
    hide Do, Enabled, Advanced, MayAdvance, NodeUp, CertUp;
    if ws[k - 1].ops == ws[k].ops || PastSave(ws[k - 1].ops) {
      n, c, s := WasPrepared(ws, acts, k - 1);
    } else {
      s := k - 1;
      CameFrom(ws, acts, s);
      NodeAdvances(ws[s], acts[s]);
      n, c := CertCameUp(ws, acts, s);
    }
  }

  lemma {:induction false} WasCounted(ws: seq<World>, acts: seq<Action>, k: nat) returns (u: nat)
    requires Run(ws, acts) && k < |ws| && (ws[k].ops.EnableLaunch? || ws[k].ops.EnableSpawn?)
    ensures u < k && Within(ws, u, k) && Counts(ws[u], acts[u], ws[k].ops.before)
  {
    hide Do, Enabled, Advanced, MayAdvance, Counts;
    if ws[k - 1].ops == ws[k].ops {
      u := WasCounted(ws, acts, k - 1);
    } else {
      CameFrom(ws, acts, k - 1);
      GatewayAdvances(ws[k - 1], acts[k - 1]);
      if ws[k].ops.EnableLaunch? {
        CountsMeans(ws[k - 1], acts[k - 1], ws[k].ops.before);
        u := k - 1;
      } else {
        u := WasCounted(ws, acts, k - 1);
      }
    }
  }

  lemma CountsMeans(w: World, a: Action, before: nat)
    requires Counts(w, a, before)
    ensures w.ops.EnableCount?
  {
  }

  lemma ChecksMeans(w: World, a: Action, before: nat, gen: nat, port: nat)
    requires Checks(w, a, before, gen, port)
    ensures w.ops == EnableCheck(before, gen, port)
  {
  }

  /** The gateway was started after the count, and was ready. */
  lemma {:induction false} WasReady(ws: seq<World>, acts: seq<Action>, k: nat) returns (u: nat, g: nat, r: nat)
    requires Run(ws, acts) && k < |ws| && (ws[k].ops.EnableReady? || ws[k].ops.EnableGate? || ws[k].ops.EnableCheck?)
    ensures u < g < r <= k && Within(ws, u, k)
    ensures Counts(ws[u], acts[u], ws[k].ops.before) && Starts(ws[g], acts[g], ws[k].ops.before, ws[k].ops.gen)
    ensures !ws[k].ops.EnableReady? ==>
              r < k && SeesReady(ws[r], acts[r], ws[k].ops.before, ws[k].ops.gen, ws[k].ops.port)
  {
    hide Do, Enabled, Advanced, MayAdvance, Counts, Starts, SeesReady;
    if ws[k - 1].ops == ws[k].ops {
      u, g, r := WasReady(ws, acts, k - 1);
      if ws[k].ops.EnableReady? { r := k; }
    } else {
      CameFrom(ws, acts, k - 1);
      GatewayAdvances(ws[k - 1], acts[k - 1]);
      if ws[k].ops.EnableReady? {
        g, r := k - 1, k;
        StartsMeans(ws[g], acts[g], ws[k].ops.before, ws[k].ops.gen);
        u := WasCounted(ws, acts, g);
      } else {
        if ws[k].ops.EnableGate? { SeesMeans(ws[k - 1], acts[k - 1], ws[k].ops.before, ws[k].ops.gen, ws[k].ops.port); }
        u, g, r := WasReady(ws, acts, k - 1);
        if ws[k].ops.EnableGate? { r := k - 1; }
      }
    }
  }

  lemma StartsMeans(w: World, a: Action, before: nat, gen: nat)
    requires Starts(w, a, before, gen)
    ensures w.ops == EnableSpawn(before)
  {
  }

  lemma SeesMeans(w: World, a: Action, before: nat, gen: nat, port: nat)
    requires SeesReady(w, a, before, gen, port)
    ensures w.ops == EnableReady(before, gen)
  {
  }

  /** Before a `serve` goes out the node has come up under an identity, with HTTPS and a certificate
      for it; then the settings were written with that identity; then the leaving gateways
      were counted, this one was started, and was ready on a port; and as that was checked under the
      lock it still ran there, and no gateway had begun to leave since the count. */
  lemma {:induction false} ServeIsDue(ws: seq<World>, acts: seq<Action>, k: nat)
      returns (n: nat, c: nat, s: nat, u: nat, g: nat, r: nat, q: nat)
    requires Run(ws, acts) && k < |ws| && ws[k].ops.EnableServe?
    ensures n < c < s < u < g < r < q < k && Prepared(ws, acts, n, c, s, k)
    ensures ws[q].ops.EnableCheck? && Checks(ws[q], acts[q], ws[q].ops.before, ws[k].ops.gen, ws[q].ops.port)
    ensures Counts(ws[u], acts[u], ws[q].ops.before) && Starts(ws[g], acts[g], ws[q].ops.before, ws[k].ops.gen)
    ensures SeesReady(ws[r], acts[r], ws[q].ops.before, ws[k].ops.gen, ws[q].ops.port)
  {
    hide Do, Enabled, Advanced, MayAdvance, Counts, Starts, SeesReady, Checks, NodeUp, CertUp;
    if ws[k - 1].ops == ws[k].ops {
      n, c, s, u, g, r, q := ServeIsDue(ws, acts, k - 1);
    } else {
      q := k - 1;
      CameFrom(ws, acts, q);
      GatewayAdvances(ws[q], acts[q]);
      ChecksMeans(ws[q], acts[q], ws[q].ops.before, ws[k].ops.gen, ws[q].ops.port);
      u, g, r := WasReady(ws, acts, q);
      CountsMeans(ws[u], acts[u], ws[q].ops.before);
      n, c, s := WasPrepared(ws, acts, u);
    }
  }
}
