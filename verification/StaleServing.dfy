/** A run in which an enable succeeds although the node goes on serving the gateway before. */
module StaleServing {
  import opened Wrappers
  import opened Takedown
  import opened TakedownSafety
  import opened ServedGateway
  import G = Gateway
  import GR = GatewayRuns
  import N = Node
  import D = Devices

  // ---------- runs, piece by piece ----------

  ghost predicate Links(ws: seq<World>, acts: seq<Action>, u: World, v: World) {
    && |ws| == |acts| + 1 && ws[0] == u && ws[|acts|] == v
    && forall k :: 0 <= k < |acts| ==> Enabled(ws[k], acts[k]) && ws[k + 1] == Do(ws[k], acts[k])
  }

  ghost predicate Leads(u: World, v: World) {
    exists ws: seq<World>, acts: seq<Action> :: Links(ws, acts, u, v)
  }

  lemma Linked(before: seq<World>, first: seq<Action>, after: seq<World>, second: seq<Action>,
               u: World, v: World, x: World)
    requires Links(before, first, u, v) && Links(after, second, v, x)
    ensures Links(before + after[1..], first + second, u, x)
  {
    hide Do, Enabled;
    var ws, acts := before + after[1..], first + second;
    forall k | 0 <= k < |acts| ensures Enabled(ws[k], acts[k]) && ws[k + 1] == Do(ws[k], acts[k]) {
      if k >= |first| {
        assert ws[k] == after[k - |first|] && ws[k + 1] == after[k + 1 - |first|];
      }
    }
  }

  lemma Joins(u: World, v: World, x: World)
    requires Leads(u, v) && Leads(v, x)
    ensures Leads(u, x)
  {
    hide Do, Enabled;
    var before: seq<World>, first: seq<Action> :| Links(before, first, u, v);
    var after: seq<World>, second: seq<Action> :| Links(after, second, v, x);
    Linked(before, first, after, second, u, v, x);
  }

  lemma Steps(u: World, a: Action)
    requires Enabled(u, a)
    ensures Leads(u, Do(u, a))
  {
    hide Do, Enabled;
    assert Links([u, Do(u, a)], [a], u, Do(u, a));
  }

  const WORKS: Action := Advance(true, true, true, D.Saved, None)

  /** The step that creates the gateway, on the port of the settings. */
  function Spawns(port: nat): Action {
    WORKS.(port := Some(port))
  }

  // ---------- the scenes ----------

  /** The gateway supervisor has nothing in hand. */
  predicate Calm(m: GR.Machine) {
    m.launch.NoLaunch? && m.flight.NoFlight? && m.turn.Free? && m.inner.pending.None? && !m.inner.expired
  }

  /** The node runs with its certificate, and its pipes are empty. */
  predicate Up(w: World, id: N.Identity) {
    && w.node.process == Some(N.Process(N.Enable, true)) && !w.node.requested && !w.node.leaving
    && w.node.state.Running? && w.node.identity == Some(id) && w.node.https == Some(true) && w.node.certReady
    && w.side.alive && w.side.commands == [] && w.side.events == []
  }

  /** Nothing but `ops`, the gateway, the settings and the lock has changed. */
  predicate SameSide(w: World, v: World) {
    v.node == w.node && v.side == w.side && v.closers == w.closers && v.leaving == w.leaving
  }

  /** The node comes up and gets its certificate. */
  lemma ComesUp(w: World, id: N.Identity) returns (v: World)
    requires w.ops.EnableNode? && w.node == N.Spawned(w.node, N.Enable).(generation := w.node.generation)
    requires w.side == Sidecar(true, [], [], None)
    ensures Leads(w, v) && Up(v, id) && v.ops == w.ops && v.gw == w.gw && v.serving == w.serving
    ensures !v.node.serving && v.side.service.None?
  {
    hide Leads;
    var a := Do(w, SideSays(N.Runs(id, true)));
    Steps(w, SideSays(N.Runs(id, true)));
    assert a.side.events == [N.Runs(id, true)];
    var b := Do(a, NodeHears);
    Steps(a, NodeHears);
    Joins(w, a, b);
    assert b.side.events == [];
    var c := Do(b, SideSays(N.Cert(true)));
    Steps(b, SideSays(N.Cert(true)));
    Joins(w, b, c);
    assert c.side.events == [N.Cert(true)];
    v := Do(c, NodeHears);
    Steps(c, NodeHears);
    Joins(w, c, v);
  }

  /** From the node's name to the decision to start. */
  lemma Saves(w: World, id: N.Identity) returns (v: World)
    requires w.ops.EnableNode? && Up(w, id)
    ensures Leads(w, v) && v.ops == EnableLaunch(v.leaving) && v.gw == w.gw && v.serving == w.serving && SameSide(w, v)
  {
    hide Leads;
    var a := Do(w, WORKS);
    Steps(w, WORKS);
    assert a == w.(ops := EnableCert(w.ops.loaded, id));
    var b := Do(a, WORKS);
    Steps(a, WORKS);
    Joins(w, a, b);
    assert b == w.(ops := EnableSave(w.ops.loaded, id));
    var c := Do(b, WORKS);
    Steps(b, WORKS);
    Joins(w, b, c);
    assert c == w.(ops := EnableCount, settings := w.ops.loaded.(net := Some(id)));
    v := Do(c, WORKS);
    Steps(c, WORKS);
    Joins(w, c, v);
  }

  /** A start is decided, and reads the device list. */
  lemma Decides(w: World) returns (v: World)
    requires w.ops == EnableLaunch(w.leaving) && Calm(w.gw) && G.MayStart(w.gw.inner)
    ensures Leads(w, v)
    ensures v == w.(ops := EnableSpawn(w.leaving),
                    gw := w.gw.(inner := G.Begun(w.gw.inner),
                                launch := GR.Launch(w.gw.inner.generation, Some(w.gw.disk), false, false, false)))
  {
    hide Leads;
    var a := Do(w, WORKS);
    Steps(w, WORKS);
    assert a == w.(ops := EnableSpawn(w.leaving),
                   gw := w.gw.(inner := G.Begun(w.gw.inner),
                               launch := GR.Launch(w.gw.inner.generation, None, false, false, false)));
    v := Do(a, WORKS);
    Steps(a, WORKS);
    Joins(w, a, v);
  }

  /** Its process is created. */
  lemma Installs(w: World, port: nat) returns (v: World)
    requires w.ops == EnableSpawn(w.leaving) && w.gw.launch.Launch? && w.gw.launch.list.Some? && w.gw.flight.NoFlight?
    requires G.MayInstall(w.gw.inner, w.gw.launch.expected)
    ensures Leads(w, v)
    ensures var gen := w.gw.inner.generation + 1;
            v == w.(ops := EnableReady(w.leaving, gen),
                    gw := w.gw.(inner := G.Installed(w.gw.inner, Some(port)), memory := w.gw.launch.list,
                                launch := GR.NoLaunch, installed := w.gw.installed + {gen}))
  {
    hide Leads;
    v := Do(w, Spawns(port));
    Steps(w, Spawns(port));
  }

  /** A gateway is started. */
  lemma Launches(w: World, port: nat) returns (v: World)
    requires w.ops == EnableLaunch(w.leaving) && Calm(w.gw) && G.MayStart(w.gw.inner)
    ensures Leads(w, v) && v.ops == EnableReady(w.leaving, w.gw.inner.generation + 1)
    ensures Calm(v.gw) && v.gw.inner.process == Some(G.Process(true)) && v.gw.inner.terminal.None?
    ensures v.gw.inner.port == Some(port) && v.gw.inner.generation == w.gw.inner.generation + 1
    ensures v.gw.inner.generation in v.gw.installed && v.serving == w.serving && SameSide(w, v)
  {
    hide Leads, Do, Enabled;
    var a := Decides(w);
    v := Installs(a, port);
    Joins(w, a, v);
  }

  /** It says that it is ready. */
  lemma SaysReady(w: World, port: nat) returns (v: World)
    requires Calm(w.gw) && w.gw.inner.process.Some? && w.gw.inner.terminal.None? && w.gw.inner.port == Some(port)
    requires w.gw.inner.generation in w.gw.installed
    ensures Leads(w, v) && v == w.(gw := w.gw.(inner := w.gw.inner.(ready := true, status := G.Running(port))))
  {
    hide Leads;
    var gen := w.gw.inner.generation;
    var a := Do(w, Gateway(GR.Check(gen, G.Ready(port))));
    Steps(w, Gateway(GR.Check(gen, G.Ready(port))));
    assert a == w.(gw := w.gw.(flight := GR.Flight(gen, G.Ready(port), GR.Checked)));
    v := Do(a, Gateway(GR.Apply(true)));
    Steps(a, Gateway(GR.Apply(true)));
    Joins(w, a, v);
  }

  /** Nothing keeps the node from being told. */
  lemma PassesGate(w: World) returns (v: World)
    requires w.ops.EnableReady? && w.ops.before == w.leaving && w.serving.NoOne? && w.gw.inner.status.Running?
    ensures Leads(w, v) && v == w.(ops := EnableServe(w.ops.gen), serving := Enabling)
  {
    hide Leads;
    var gen, port := w.ops.gen, w.gw.inner.status.port;
    var a := Do(w, WORKS);
    Steps(w, WORKS);
    assert a == w.(ops := EnableGate(w.leaving, gen, port));
    var b := Do(a, WORKS);
    Steps(a, WORKS);
    Joins(w, a, b);
    assert b == w.(ops := EnableCheck(w.leaving, gen, port), serving := Enabling);
    v := Do(b, WORKS);
    Steps(b, WORKS);
    Joins(w, b, v);
  }

  lemma BecomesReady(w: World, port: nat) returns (v: World)
    requires w.ops == EnableReady(w.leaving, w.gw.inner.generation) && w.serving.NoOne?
    requires Calm(w.gw) && w.gw.inner.process.Some? && w.gw.inner.terminal.None? && w.gw.inner.port == Some(port)
    requires w.gw.inner.generation in w.gw.installed
    ensures Leads(w, v) && v.ops == EnableServe(w.gw.inner.generation) && v.serving == Enabling && SameSide(w, v)
    ensures Calm(v.gw) && v.gw.inner == w.gw.inner.(ready := true, status := G.Running(port))
    ensures v.gw.installed == w.gw.installed
  {
    hide Leads, Do, Enabled;
    var a := SaysReady(w, port);
    v := PassesGate(a);
    Joins(w, a, v);
  }

  /** The node opens its listener, and says so. */
  lemma Listens(w: World) returns (v: World)
    requires w.ops.EnableServe? && w.side == Sidecar(true, [], [], None) && w.node.process.Some? && !w.node.requested
    ensures Leads(w, v)
    ensures v == w.(ops := EnableAnswer(w.ops.gen), side := Sidecar(true, [], [], Some(w.ops.gen)),
                    node := w.node.(serving := true, serveSent := true, error := None))
  {
    hide Leads;
    var gen := w.ops.gen;
    var a := Do(w, WORKS);
    Steps(w, WORKS);
    var told := N.ServeWritten(w.node, true);
    assert a == w.(ops := EnableAnswer(gen), side := Sidecar(true, [N.Serve(gen)], [], None), node := told);
    var b := Do(a, SideCommand(true));
    Steps(a, SideCommand(true));
    Joins(w, a, b);
    assert b == w.(ops := EnableAnswer(gen), side := Sidecar(true, [], [N.Serving], Some(gen)), node := told);
    v := Do(b, NodeHears);
    Steps(b, NodeHears);
    Joins(w, b, v);
  }

  lemma Serves1(w: World, id: N.Identity) returns (v: World)
    requires w.ops.EnableServe? && Up(w, id) && w.side.service.None? && w.serving == Enabling
    requires w.gw.inner.status.Running?
    ensures Leads(w, v) && v.ops.Free? && v.serving.NoOne? && v.gw == w.gw
    ensures v.closers == w.closers && v.leaving == w.leaving
    ensures Up(v, id) && v.node.serving && v.side.service == Some(w.ops.gen)
  {
    hide Leads;
    var a := Listens(w);
    var b := Do(a, WORKS);
    Steps(a, WORKS);
    Joins(w, a, b);
    assert b == a.(ops := EnableConfirm(w.ops.gen));
    v := Do(b, WORKS);
    Steps(b, WORKS);
    Joins(w, b, v);
  }

  /** The gateway ends by itself; its cleanup waits for its turn. */
  lemma Crashes(w: World) returns (v: World)
    requires w.ops.Free? && Calm(w.gw) && w.gw.inner.process.Some? && w.gw.inner.terminal.None?
    requires w.gw.inner.ready && w.gw.inner.generation in w.gw.installed
    ensures Leads(w, v) && v.ops.Free? && v.serving == w.serving && SameSide(w, v)
    ensures Calm(v.gw) && G.Idle(v.gw.inner) && v.gw.inner.generation == w.gw.inner.generation + 1
  {
    hide Leads;
    v := Do(w, Gateway(GR.Exit(w.gw.inner.generation)));
    Steps(w, Gateway(GR.Exit(w.gw.inner.generation)));
  }

  lemma ClearStep(w: World)
    requires w.ops.EnableInputs? && Calm(w.gw) && G.Idle(w.gw.inner)
    ensures Enabled(w, WORKS)
    ensures Do(w, WORKS) == w.(gw := w.gw.(inner := G.Cleared(w.gw.inner)), ops := EnableStart(w.settings))
  {
  }

  /** An enable begins. */
  lemma Begins(w: World) returns (v: World)
    requires w.ops.Free? && Calm(w.gw) && G.Idle(w.gw.inner)
    ensures Leads(w, v) && v.ops == EnableStart(w.settings) && v.serving == w.serving && SameSide(w, v)
    ensures Calm(v.gw) && G.MayStart(v.gw.inner) && v.gw.inner.generation == w.gw.inner.generation
  {
    hide Leads;
    var a := Do(w, Take(EnableJob));
    Steps(w, Take(EnableJob));
    assert a == w.(ops := EnableInputs);
    ClearStep(a);
    hide Do;
    v := Do(a, WORKS);
    Steps(a, WORKS);
    Joins(w, a, v);
  }

  lemma FirstEnable(w: World, id: N.Identity, port: nat) returns (v: World)
    requires Start(w)
    ensures Leads(w, v) && v.ops.Free? && v.serving.NoOne? && Up(v, id) && v.node.serving
    ensures Calm(v.gw) && v.gw.inner.process.Some? && v.gw.inner.terminal.None? && v.gw.inner.ready
    ensures v.gw.inner.generation in v.gw.installed && v.side.service == Some(v.gw.inner.generation)
  {
    hide Leads;
    var a := Begins(w);
    var b := Do(a, WORKS);
    Steps(a, WORKS);
    Joins(w, a, b);
    hide Do, Enabled;
    var c := ComesUp(b, id);
    Joins(w, b, c);
    var d := Saves(c, id);
    Joins(w, c, d);
    var e := Launches(d, port);
    Joins(w, d, e);
    var f := BecomesReady(e, port);
    Joins(w, e, f);
    v := Serves1(f, id);
    Joins(w, f, v);
  }

  lemma SecondEnable(w: World, id: N.Identity, port: nat) returns (v: World)
    requires w.ops.Free? && w.serving.NoOne? && Up(w, id) && Calm(w.gw) && G.Idle(w.gw.inner)
    ensures Leads(w, v) && v.ops == EnableServe(w.gw.inner.generation + 1) && SameSide(w, v)
    ensures v.gw.inner.status == G.Running(port)
  {
    hide Leads;
    var a := Begins(w);
    var b := Do(a, WORKS);
    Steps(a, WORKS);
    Joins(w, a, b);
    assert b == a.(ops := EnableNode(a.ops.loaded));
    hide Do, Enabled;
    var d := Saves(b, id);
    Joins(w, b, d);
    var e := Launches(d, port);
    Joins(w, d, e);
    v := BecomesReady(e, port);
    Joins(w, e, v);
  }

  lemma Tells(w: World, id: N.Identity) returns (v: World)
    requires w.ops.EnableServe? && Up(w, id) && w.node.serving
    ensures Enabled(w, WORKS) && v == Do(w, WORKS) && v.ops == EnableAnswer(w.ops.gen) && v.node.serving
    ensures v.side.service == w.side.service && v.side.alive && v.gw == w.gw
  {
    v := Do(w, WORKS);
  }

  /** Told to serve, a node that is serving is taken at its word. */
  lemma Succeeds(w: World, id: N.Identity) returns (ws: seq<World>, acts: seq<Action>)
    requires w.ops.EnableServe? && Up(w, id) && w.node.serving && w.gw.inner.status.Running?
    ensures |ws| == 4 && acts == [WORKS, WORKS, WORKS] && Links(ws, acts, w, ws[3])
    ensures ws[1].ops == EnableAnswer(w.ops.gen) && ws[3].ops.Free? && ws[3].gw == w.gw
    ensures ws[3].side.alive && ws[3].side.service == w.side.service
  {
    var a := Tells(w, id);
    var b := Do(a, WORKS);
    assert b == a.(ops := EnableConfirm(w.ops.gen));
    var c := Do(b, WORKS);
    assert c == b.(ops := Free, serving := NoOne);
    hide Do, Enabled, MayAdvance;
    ws, acts := [w, a, b, c], [WORKS, WORKS, WORKS];
  }

  /** Such a run exists: the gateway crashes, and the user enables again before the cleanup has its
      turn. The enable succeeds and the new gateway runs, on the same port, but the node's listener
      still sends the proxy secret of the old one. */
  lemma StaleRun(w: World, id: N.Identity, port: nat) returns (ws: seq<World>, acts: seq<Action>, i: nat)
    requires Start(w) && port > 0
    ensures Run(ws, acts) && |acts| == i + 3 && WritesServe(ws, acts, i) && ws[i].node.serving
    ensures ws[i + 3].ops.Free? && ws[i + 3].gw.inner.status == G.Running(port)
    ensures ws[i + 3].side.alive && ws[i + 3].side.service.Some?
            && ws[i + 3].side.service != Some(ws[i].ops.gen)
  {
    hide Do, Enabled;
    var a := FirstEnable(w, id, port);
    var b := Crashes(a);
    Joins(w, a, b);
    var c := SecondEnable(b, id, port);
    Joins(w, b, c);
    var before: seq<World>, first: seq<Action> :| Links(before, first, w, c);
    var after, second := Succeeds(c, id);
    Linked(before, first, after, second, w, c, after[3]);
    ws, acts, i := before + after[1..], first + second, |first|;
    assert ws[i] == c && ws[i + 3] == after[3] && acts[i] == WORKS;
  }
}
