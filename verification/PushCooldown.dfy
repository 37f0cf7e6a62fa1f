/** One push per pane, kind and minute (src-tauri/src/companion_push.rs): requests and deliveries
    of many jobs interleave, and a job may be dropped anywhere. Times are seconds of a clock that
    never runs backwards. */
module PushCooldown {
  import opened Wrappers

  datatype Key = Key(session: string, pane: string, kind: string)

  const COOLDOWN: int := 60

  /** What the two locks guard: when each key was last stamped, and the keys of jobs on their way. */
  datatype Table = Table(sent: map<Key, int>, held: set<Key>)

  function Retained(sent: map<Key, int>, now: int): map<Key, int> {
    map key | key in sent && now - sent[key] < COOLDOWN :: sent[key]
  }

  predicate Grants(t: Table, key: Key, now: int) {
    key !in Retained(t.sent, now) && key !in t.held
  }

  function Asked(t: Table, key: Key, now: int): Table {
    Table(Retained(t.sent, now), t.held + if Grants(t, key, now) then {key} else {})
  }

  function Stamped(t: Table, key: Key, at: int): Table {
    t.(sent := t.sent[key := at])
  }

  function Freed(t: Table, key: Key): Table {
    t.(held := t.held - {key})
  }

  class Push {
    var sent: map<Key, int>
    var held: set<Key>

    function Snapshot(): Table
      reads this
    {
      Table(sent, held)
    }

    constructor ()
      ensures Snapshot() == Table(map[], {})
    {
      sent, held := map[], {};
    }

    /** The end of `request`, with a message that has somewhere to go. */
    method Request(key: Key, now: int) returns (granted: bool)
      modifies this
      ensures granted == Grants(old(Snapshot()), key, now)
      ensures Snapshot() == Asked(old(Snapshot()), key, now)
    {
      sent := map k | k in sent && now - sent[k] < COOLDOWN :: sent[k];
      if key in sent || key in held {
        return false;
      }
      held := held + {key};
      granted := true;
    }

    /** `deliver`, once it has requests to send. The clock was read before the lock. */
    method Stamp(key: Key, at: int)
      modifies this
      ensures Snapshot() == Stamped(old(Snapshot()), key, at)
    {
      sent := sent[key := at];
    }

    /** `Hold::drop`. */
    method Free(key: Key)
      modifies this
      ensures Snapshot() == Freed(old(Snapshot()), key)
    {
      held := held - {key};
    }
  }

  // ---------- many jobs ----------

  /** `asked` is when it was granted, `read` what `deliver` read off the clock; `live` until it is
      dropped. Jobs that are gone stay, as history. */
  datatype Job = Job(key: Key, asked: int, read: Option<int>, stamped: bool, live: bool)

  datatype World = World(table: Table, jobs: map<nat, Job>, now: int)

  datatype Action =
    | Tick(to: int)
    | Request(id: nat, key: Key)
    | ReadClock(job: nat)
    | Stamp(job: nat)
    | Drop(job: nat)

  predicate Enabled(w: World, a: Action) {
    match a
    case Tick(to) => w.now <= to
    case Request(id, _) => id !in w.jobs
    case ReadClock(job) => job in w.jobs && w.jobs[job].live && w.jobs[job].read.None?
    case Stamp(job) => job in w.jobs && w.jobs[job].live && w.jobs[job].read.Some? && !w.jobs[job].stamped
    case Drop(job) => job in w.jobs && w.jobs[job].live
  }

  function Do(w: World, a: Action): World
    requires Enabled(w, a)
  {
    match a
    case Tick(to) => w.(now := to)
    case Request(id, key) =>
      w.(table := Asked(w.table, key, w.now),
         jobs := if Grants(w.table, key, w.now)
                 then w.jobs[id := Job(key, w.now, None, false, true)] else w.jobs)
    case ReadClock(job) => w.(jobs := w.jobs[job := w.jobs[job].(read := Some(w.now))])
    case Stamp(job) =>
      w.(table := Stamped(w.table, w.jobs[job].key, w.jobs[job].read.value),
         jobs := w.jobs[job := w.jobs[job].(stamped := true)])
    case Drop(job) =>
      w.(table := Freed(w.table, w.jobs[job].key), jobs := w.jobs[job := w.jobs[job].(live := false)])
  }

  ghost predicate Start(w: World) {
    w.table == Table(map[], {}) && w.jobs == map[]
  }

  predicate Marked(w: World, j: nat) {
    j in w.jobs && w.jobs[j].stamped && w.jobs[j].read.Some?
  }

  /** Two stamps are a minute apart, one way or the other. */
  predicate Apart(a: int, b: int) {
    a + COOLDOWN <= b || b + COOLDOWN <= a
  }

  /** The held keys are those of the live jobs, no two of which share one. */
  ghost predicate Holds(w: World) {
    && (forall key :: key in w.table.held <==> exists j :: j in w.jobs && w.jobs[j].live && w.jobs[j].key == key)
    && (forall i, j :: i in w.jobs && j in w.jobs && i != j && w.jobs[i].live && w.jobs[j].live ==>
          w.jobs[i].key != w.jobs[j].key)
  }

  ghost predicate InTime(w: World) {
    && (forall j :: j in w.jobs ==>
          && w.jobs[j].asked <= w.now
          && (w.jobs[j].stamped ==> w.jobs[j].read.Some?)
          && (w.jobs[j].read.Some? ==> w.jobs[j].asked <= w.jobs[j].read.value <= w.now))
    && (forall key :: key in w.table.sent ==>
          exists j :: Marked(w, j) && w.jobs[j].key == key && w.jobs[j].read.value == w.table.sent[key])
  }

  /** A stamp less than a minute old is on the table. */
  ghost predicate OnTable(w: World) {
    forall j :: Marked(w, j) ==>
      || w.jobs[j].read.value + COOLDOWN <= w.now
      || (w.jobs[j].key in w.table.sent && w.jobs[j].read.value <= w.table.sent[w.jobs[j].key])
  }

  /** A job was granted a minute after every other stamp of its key, until it has its own. */
  ghost predicate Waited(w: World) {
    forall i, j :: Marked(w, i) && j in w.jobs && i != j ==>
      (w.jobs[j].live && !w.jobs[j].stamped && w.jobs[i].key == w.jobs[j].key ==>
         w.jobs[i].read.value + COOLDOWN <= w.jobs[j].asked)
  }

  ghost predicate AllApart(w: World) {
    forall i, j :: Marked(w, i) && Marked(w, j) && i != j ==>
      (w.jobs[i].key == w.jobs[j].key ==> Apart(w.jobs[i].read.value, w.jobs[j].read.value))
  }

  ghost predicate Inv(w: World) {
    Holds(w) && InTime(w) && OnTable(w) && Waited(w) && AllApart(w)
  }

  lemma HoldsStep(w: World, a: Action)
    requires Inv(w) && Enabled(w, a)
    ensures Holds(Do(w, a))
  {
    var next := Do(w, a);
    forall key
      ensures key in next.table.held <==> exists j :: j in next.jobs && next.jobs[j].live && next.jobs[j].key == key
    {
      if key in w.table.held {
        var j :| j in w.jobs && w.jobs[j].live && w.jobs[j].key == key;
        assert a != Drop(j) ==> j in next.jobs && next.jobs[j].live && next.jobs[j].key == key;
      } else if key in next.table.held {
        assert a.Request? && next.jobs[a.id].live && next.jobs[a.id].key == key;
      }
    }
  }

  lemma InTimeStep(w: World, a: Action)
    requires Inv(w) && Enabled(w, a)
    ensures InTime(Do(w, a))
  {
    var next := Do(w, a);
    forall key | key in next.table.sent
      ensures exists j :: Marked(next, j) && next.jobs[j].key == key && next.jobs[j].read.value == next.table.sent[key]
    {
      if a.Stamp? && w.jobs[a.job].key == key {
        assert Marked(next, a.job);
      } else {
        var j :| Marked(w, j) && w.jobs[j].key == key && w.jobs[j].read.value == w.table.sent[key];
        assert Marked(next, j);
      }
    }
  }

  lemma MarkedBefore(w: World, a: Action, j: nat)
    requires Enabled(w, a) && Marked(Do(w, a), j)
    requires InTime(w)
    ensures Marked(w, j) || a == Stamp(j)
    ensures j in w.jobs && Do(w, a).jobs[j].read == w.jobs[j].read && Do(w, a).jobs[j].key == w.jobs[j].key
  {
  }

  lemma OnTableStep(w: World, a: Action)
    requires Inv(w) && Enabled(w, a)
    ensures OnTable(Do(w, a))
  {
    var next := Do(w, a);
    forall j | Marked(next, j) ensures
      || next.jobs[j].read.value + COOLDOWN <= next.now
      || (next.jobs[j].key in next.table.sent && next.jobs[j].read.value <= next.table.sent[next.jobs[j].key])
    {
      MarkedBefore(w, a, j);
      if a.Stamp? && a.job != j {
        assert Marked(w, j) && a.job in w.jobs && w.jobs[a.job].live && !w.jobs[a.job].stamped;
      }
    }
  }

  lemma WaitedStep(w: World, a: Action)
    requires Inv(w) && Enabled(w, a)
    ensures Waited(Do(w, a))
  {
    var next := Do(w, a);
    forall i, j | Marked(next, i) && j in next.jobs && i != j
      && next.jobs[j].live && !next.jobs[j].stamped && next.jobs[i].key == next.jobs[j].key
      ensures next.jobs[i].read.value + COOLDOWN <= next.jobs[j].asked
    {
      MarkedBefore(w, a, i);
      if j in w.jobs {
        assert w.jobs[j].live && !w.jobs[j].stamped && w.jobs[j].key == next.jobs[j].key;
        assert a != Stamp(i);
      }
    }
  }

  lemma AllApartStep(w: World, a: Action)
    requires Inv(w) && Enabled(w, a)
    ensures AllApart(Do(w, a))
  {
    var next := Do(w, a);
    forall i, j | Marked(next, i) && Marked(next, j) && i != j && next.jobs[i].key == next.jobs[j].key
      ensures Apart(next.jobs[i].read.value, next.jobs[j].read.value)
    {
      MarkedBefore(w, a, i);
      MarkedBefore(w, a, j);
      assert a == Stamp(i) ==> Marked(w, j) && w.jobs[i].live && !w.jobs[i].stamped;
      assert a == Stamp(j) ==> Marked(w, i) && w.jobs[j].live && !w.jobs[j].stamped;
    }
  }

  lemma InvStep(w: World, a: Action)
    requires Inv(w) && Enabled(w, a)
    ensures Inv(Do(w, a))
  {
    HoldsStep(w, a);
    InTimeStep(w, a);
    OnTableStep(w, a);
    WaitedStep(w, a);
    AllApartStep(w, a);
  }

  ghost predicate Run(ws: seq<World>, acts: seq<Action>) {
    && |ws| == |acts| + 1 && Start(ws[0])
    && forall k :: 0 <= k < |acts| ==> Enabled(ws[k], acts[k]) && ws[k + 1] == Do(ws[k], acts[k])
  }

  lemma {:induction false} RunKeeps(ws: seq<World>, acts: seq<Action>, k: nat)
    requires Run(ws, acts) && k < |ws|
    ensures Inv(ws[k])
  {
    if k > 0 {
      RunKeeps(ws, acts, k - 1);
      InvStep(ws[k - 1], acts[k - 1]);
    }
  }

  /** At most one job of a key is on its way. */
  lemma OneJobPerKey(ws: seq<World>, acts: seq<Action>, k: nat, i: nat, j: nat)
    requires Run(ws, acts) && k < |ws| && i in ws[k].jobs && j in ws[k].jobs
    requires ws[k].jobs[i].live && ws[k].jobs[j].live && ws[k].jobs[i].key == ws[k].jobs[j].key
    ensures i == j
  {
    RunKeeps(ws, acts, k);
  }

  /** The first sends of any two jobs of a key are a minute apart. */
  lemma SendsAreApart(ws: seq<World>, acts: seq<Action>, k: nat, i: nat, j: nat)
    requires Run(ws, acts) && k < |ws| && Marked(ws[k], i) && Marked(ws[k], j) && i != j
    requires ws[k].jobs[i].key == ws[k].jobs[j].key
    ensures Apart(ws[k].jobs[i].read.value, ws[k].jobs[j].read.value)
  {
    RunKeeps(ws, acts, k);
  }

  /** A request is turned down for its key exactly while another job of it is on its way, or one
      was stamped less than a minute ago: so a job that was dropped before it got to send holds
      back nothing, and what `request` clears away never changes an answer. */
  lemma GrantedExactly(ws: seq<World>, acts: seq<Action>, k: nat, key: Key)
    requires Run(ws, acts) && k < |ws|
    ensures Grants(ws[k].table, key, ws[k].now)
            <==> && (forall j :: j in ws[k].jobs && ws[k].jobs[j].key == key ==> !ws[k].jobs[j].live)
                 && (forall j :: Marked(ws[k], j) && ws[k].jobs[j].key == key ==>
                       ws[k].jobs[j].read.value + COOLDOWN <= ws[k].now)
  {
    RunKeeps(ws, acts, k);
    var w := ws[k];
    if key in Retained(w.table.sent, w.now) {
      var j :| Marked(w, j) && w.jobs[j].key == key && w.jobs[j].read.value == w.table.sent[key];
    }
    if key in w.table.held {
      var j :| j in w.jobs && w.jobs[j].live && w.jobs[j].key == key;
    }
  }

  /** No more than a minute is waited: a run in which the second push of a key follows the first after
      just that. */
  lemma MinuteRun(key: Key) returns (ws: seq<World>, acts: seq<Action>)
    ensures Run(ws, acts) && acts != []
    ensures var w := ws[|acts|];
            && Marked(w, 0) && Marked(w, 1) && w.jobs[0].key == w.jobs[1].key == key
            && w.jobs[1].read.value == w.jobs[0].read.value + COOLDOWN
  {
    var first := Job(key, 0, Some(0), true, false);
    var w0 := World(Table(map[], {}), map[], 0);
    var w1 := World(Table(map[], {key}), map[0 := Job(key, 0, None, false, true)], 0);
    var w2 := w1.(jobs := map[0 := Job(key, 0, Some(0), false, true)]);
    var w3 := World(Table(map[key := 0], {key}), map[0 := Job(key, 0, Some(0), true, true)], 0);
    var w4 := World(Table(map[key := 0], {}), map[0 := first], 0);
    var w5 := w4.(now := COOLDOWN);
    var w6 := World(Table(map[], {key}), map[0 := first, 1 := Job(key, COOLDOWN, None, false, true)], COOLDOWN);
    var w7 := w6.(jobs := map[0 := first, 1 := Job(key, COOLDOWN, Some(COOLDOWN), false, true)]);
    var w8 := World(Table(map[key := COOLDOWN], {key}),
                    map[0 := first, 1 := Job(key, COOLDOWN, Some(COOLDOWN), true, true)], COOLDOWN);
    GivesTheFirst(key, w0, w1, w2, w3, w4);
    assert Do(w4, Tick(COOLDOWN)) == w5;
    GivesTheSecond(key, first, w5, w6, w7, w8);
    hide Do, Enabled;
    ws := [w0, w1, w2, w3, w4, w5, w6, w7, w8];
    acts := [Request(0, key), ReadClock(0), Stamp(0), Drop(0), Tick(COOLDOWN), Request(1, key), ReadClock(1), Stamp(1)];
  }

  lemma GivesTheFirst(key: Key, w0: World, w1: World, w2: World, w3: World, w4: World)
    requires w0 == World(Table(map[], {}), map[], 0)
    requires w1 == World(Table(map[], {key}), map[0 := Job(key, 0, None, false, true)], 0)
    requires w2 == w1.(jobs := map[0 := Job(key, 0, Some(0), false, true)])
    requires w3 == World(Table(map[key := 0], {key}), map[0 := Job(key, 0, Some(0), true, true)], 0)
    requires w4 == World(Table(map[key := 0], {}), map[0 := Job(key, 0, Some(0), true, false)], 0)
    ensures Enabled(w0, Request(0, key)) && Do(w0, Request(0, key)) == w1
    ensures Enabled(w1, ReadClock(0)) && Do(w1, ReadClock(0)) == w2
    ensures Enabled(w2, Stamp(0)) && Do(w2, Stamp(0)) == w3
    ensures Enabled(w3, Drop(0)) && Do(w3, Drop(0)) == w4
  {
    assert Retained(map[], 0) == map[];
  }

  lemma GivesTheSecond(key: Key, first: Job, w5: World, w6: World, w7: World, w8: World)
    requires w5 == World(Table(map[key := 0], {}), map[0 := first], COOLDOWN) && !first.live
    requires w6 == World(Table(map[], {key}), map[0 := first, 1 := Job(key, COOLDOWN, None, false, true)], COOLDOWN)
    requires w7 == w6.(jobs := map[0 := first, 1 := Job(key, COOLDOWN, Some(COOLDOWN), false, true)])
    requires w8 == World(Table(map[key := COOLDOWN], {key}),
                         map[0 := first, 1 := Job(key, COOLDOWN, Some(COOLDOWN), true, true)], COOLDOWN)
    ensures Enabled(w5, Request(1, key)) && Do(w5, Request(1, key)) == w6
    ensures Enabled(w6, ReadClock(1)) && Do(w6, ReadClock(1)) == w7
    ensures Enabled(w7, Stamp(1)) && Do(w7, Stamp(1)) == w8
  {
    assert Retained(map[key := 0], COOLDOWN) == map[];
  }
}
