/** Which peers the sidecar lets through, and how often it reports the others
    (src-tauri/companion-net/proxy.go). */
module RejectLimiter {
  import opened Wrappers

  const WINDOW := 60
  const MAX_KEYS: nat := 1024

  datatype Key = Key(peer: string, reason: string)

  /** What was asked so far, oldest first, and the answers. */
  datatype Asked = Asked(now: int, key: Key, allowed: bool)

  // ---------- the history's own answer ----------

  /** When the key was last allowed, if ever. */
  function LastAllowed(history: seq<Asked>, key: Key): Option<int>
    decreases |history|
  {
    if history == [] then None
    else
      var last := history[|history| - 1];
      if last.key == key && last.allowed then Some(last.now)
      else LastAllowed(history[..|history| - 1], key)
  }

  predicate Recent(history: seq<Asked>, key: Key, now: int) {
    LastAllowed(history, key).Some? && now - LastAllowed(history, key).value < WINDOW
  }

  function AllowedKeys(history: seq<Asked>): set<Key> {
    set k | 0 <= k < |history| && history[k].allowed :: history[k].key
  }

  function RecentKeys(history: seq<Asked>, now: int): set<Key> {
    set key | key in AllowedKeys(history) && Recent(history, key, now)
  }

  /** A key is let through if it was not within the last window, and fewer than the maximum
      of different keys were. */
  predicate MayPass(history: seq<Asked>, now: int, key: Key) {
    !Recent(history, key, now) && |RecentKeys(history, now)| < MAX_KEYS
  }

  lemma {:induction false} LastAllowedMeans(history: seq<Asked>, key: Key)
    ensures LastAllowed(history, key).Some? <==> key in AllowedKeys(history)
    ensures LastAllowed(history, key).Some? ==>
              exists k :: 0 <= k < |history| && history[k] == Asked(LastAllowed(history, key).value, key, true)
  {
    if history != [] {
      var front := history[..|history| - 1];
      var last := history[|history| - 1];
      LastAllowedMeans(front, key);
      assert last.allowed ==> last.key in AllowedKeys(history);
      assert forall k :: 0 <= k < |front| ==> front[k] == history[k];
      assert key in AllowedKeys(history) ==> key in AllowedKeys(front) || (last.allowed && last.key == key);
    }
  }

  lemma LastAllowedMore(history: seq<Asked>, asked: Asked, key: Key)
    ensures LastAllowed(history + [asked], key)
            == if asked.key == key && asked.allowed then Some(asked.now) else LastAllowed(history, key)
  {
    assert (history + [asked])[..|history|] == history;
  }

  lemma SmallerIsLess(a: set<Key>, b: set<Key>)
    requires a <= b
    ensures |a| <= |b| && (|a| == |b| ==> a == b)
  {
    var rest := b - a;
    assert b == a + rest;
    assert |b| == |a| + |rest|;
  }

  // ---------- one call ----------

  /** The keys that were let through within the window. */
  function Fresh(last: map<Key, int>, now: int): map<Key, int> {
    map key | key in last && now - last[key] < WINDOW :: last[key]
  }

  /** A full table is cleared of stale keys first. */
  function Cleared(last: map<Key, int>, now: int): map<Key, int> {
    if |last| >= MAX_KEYS then Fresh(last, now) else last
  }

  predicate Passes(last: map<Key, int>, now: int, key: Key) {
    key !in Fresh(last, now) && |Cleared(last, now)| < MAX_KEYS
  }

  function After(last: map<Key, int>, now: int, key: Key): map<Key, int> {
    if key in Fresh(last, now) then last
    else if Passes(last, now, key) then Cleared(last, now)[key := now]
    else Cleared(last, now)
  }

  /** What the table holds is when its keys were last let through. */
  ghost predicate Sound(last: map<Key, int>, history: seq<Asked>) {
    && |last| <= MAX_KEYS
    && forall key :: key in last ==> LastAllowed(history, key) == Some(last[key])
  }

  /** Keys let through within the window that the table no longer has. */
  function Lost(last: map<Key, int>, history: seq<Asked>, now: int): set<Key> {
    RecentKeys(history, now) - last.Keys
  }

  lemma RecentIsFreshOrLost(last: map<Key, int>, history: seq<Asked>, now: int)
    requires Sound(last, history)
    ensures RecentKeys(history, now) == Fresh(last, now).Keys + Lost(last, history, now)
    ensures |RecentKeys(history, now)| == |Fresh(last, now)| + |Lost(last, history, now)|
  {
    forall key ensures key in RecentKeys(history, now) <==> key in Fresh(last, now) || key in Lost(last, history, now) {
      LastAllowedMeans(history, key);
    }
    assert |Fresh(last, now).Keys| == |Fresh(last, now)|;
    assert Fresh(last, now).Keys !! Lost(last, history, now);
  }

  lemma FreshIsSmaller(last: map<Key, int>, now: int)
    ensures |Fresh(last, now)| <= |last|
    ensures |Cleared(last, now)| < MAX_KEYS <==> |Fresh(last, now)| < MAX_KEYS
  {
    SmallerIsLess(Fresh(last, now).Keys, last.Keys);
    assert |Fresh(last, now).Keys| == |Fresh(last, now)| && |last.Keys| == |last|;
  }

  /** The table answers as the history does exactly if it refuses by what it has left, or has lost
      neither this key nor enough others to fill it. */
  lemma AnswerExactly(last: map<Key, int>, history: seq<Asked>, now: int, key: Key)
    requires Sound(last, history)
    ensures Passes(last, now, key) == MayPass(history, now, key) <==>
              || !Passes(last, now, key)
              || (key !in Lost(last, history, now) && |Fresh(last, now)| + |Lost(last, history, now)| < MAX_KEYS)
  {
    RecentIsFreshOrLost(last, history, now);
    FreshIsSmaller(last, now);
    LastAllowedMeans(history, key);
    assert Recent(history, key, now) <==> key in RecentKeys(history, now);
  }

  /** So every key is answered as by the history exactly if no recent key is lost, or the table is
      full of recent ones. */
  lemma AnswersExactly(last: map<Key, int>, history: seq<Asked>, now: int)
    requires Sound(last, history)
    ensures (forall key :: Passes(last, now, key) == MayPass(history, now, key))
            <==> Lost(last, history, now) == {} || |Fresh(last, now)| >= MAX_KEYS
  {
    FreshIsSmaller(last, now);
    forall key ensures Passes(last, now, key) == MayPass(history, now, key) <==>
              || !Passes(last, now, key)
              || (key !in Lost(last, history, now) && |Fresh(last, now)| + |Lost(last, history, now)| < MAX_KEYS)
    {
      AnswerExactly(last, history, now, key);
    }
    if Lost(last, history, now) != {} && |Fresh(last, now)| < MAX_KEYS {
      var key :| key in Lost(last, history, now);
      assert Passes(last, now, key) && !(key !in Lost(last, history, now));
    }
  }

  lemma StaysSound(last: map<Key, int>, history: seq<Asked>, now: int, key: Key)
    requires Sound(last, history)
    ensures Sound(After(last, now, key), history + [Asked(now, key, Passes(last, now, key))])
  {
    FreshIsSmaller(last, now);
    var asked := Asked(now, key, Passes(last, now, key));
    forall other ensures LastAllowed(history + [asked], other)
                         == if key == other && asked.allowed then Some(now) else LastAllowed(history, other) {
      LastAllowedMore(history, asked, other);
    }
  }

  class Limiter {
    var last: map<Key, int>
    ghost var history: seq<Asked>

    ghost predicate Valid()
      reads this
    {
      Sound(last, history)
    }

    constructor ()
      ensures Valid() && last == map[] && history == []
    {
      last, history := map[], [];
    }

    /** `now` was read before the lock. Unless a recent key has been lost, the answer is the
        history's own. */
    method Allow(now: int, key: Key) returns (allowed: bool)
      requires Valid()
      modifies this
      ensures Valid() && |last| <= MAX_KEYS
      ensures allowed == Passes(old(last), now, key) && last == After(old(last), now, key)
      ensures Lost(old(last), old(history), now) == {} ==> allowed == MayPass(old(history), now, key)
      ensures history == old(history) + [Asked(now, key, allowed)]
    {
      AnswersExactly(last, history, now);
      StaysSound(last, history, now, key);
      if key in last && now - last[key] < WINDOW {
        Remember(now, key, false);
        return false;
      }
      if |last| >= MAX_KEYS {
        Evict(now);
        if |last| >= MAX_KEYS {
          Remember(now, key, false);
          return false;
        }
      }
      last := last[key := now];
      Remember(now, key, true);
      allowed := true;
    }

    ghost method Remember(now: int, key: Key, allowed: bool)
      modifies this`history
      ensures history == old(history) + [Asked(now, key, allowed)]
    {
      history := history + [Asked(now, key, allowed)];
    }

    /** Drops every key that was allowed a window ago or earlier. */
    method Evict(now: int)
      modifies this`last
      ensures last == Fresh(old(last), now)
    {
      var todo := last.Keys;
      while todo != {}
        invariant todo <= last.Keys <= old(last).Keys
        invariant forall key :: key in last ==> last[key] == old(last)[key]
        invariant forall key :: key in old(last) && key !in last ==> now - old(last)[key] >= WINDOW
        invariant forall key :: key in last && key !in todo ==> now - last[key] < WINDOW
        decreases |todo|
      {
        var key :| key in todo;
        todo := todo - {key};
        if now - last[key] >= WINDOW {
          last := last - {key};
        }
      }
    }
  }

  // ---------- concurrent calls ----------

  /** A call has read the clock, and waits for the lock. */
  datatype Call = Call(key: Key, read: int)

  datatype World = World(clock: int, calls: map<nat, Call>, last: map<Key, int>, history: seq<Asked>)

  datatype Action = Tick(to: int) | Read(call: nat, key: Key) | Lock(call: nat)

  predicate Enabled(w: World, a: Action) {
    match a
    case Tick(to) => w.clock <= to
    case Read(call, _) => call !in w.calls
    case Lock(call) => call in w.calls
  }

  function Do(w: World, a: Action): World
    requires Enabled(w, a)
  {
    match a
    case Tick(to) => w.(clock := to)
    case Read(call, key) => w.(calls := w.calls[call := Call(key, w.clock)])
    case Lock(call) =>
      var c := w.calls[call];
      w.(calls := w.calls - {call}, last := After(w.last, c.read, c.key),
         history := w.history + [Asked(c.read, c.key, Passes(w.last, c.read, c.key))])
  }

  ghost predicate Start(w: World) {
    w == World(w.clock, map[], map[], [])
  }

  ghost predicate Run(ws: seq<World>, acts: seq<Action>) {
    && |ws| == |acts| + 1 && Start(ws[0])
    && forall k :: 0 <= k < |acts| ==> Enabled(ws[k], acts[k]) && ws[k + 1] == Do(ws[k], acts[k])
  }

  lemma SoundStep(w: World, a: Action)
    requires Enabled(w, a) && Sound(w.last, w.history)
    ensures Sound(Do(w, a).last, Do(w, a).history)
  {
    if a.Lock? { StaysSound(w.last, w.history, w.calls[a.call].read, w.calls[a.call].key); }
  }

  lemma {:induction false} RunIsSound(ws: seq<World>, acts: seq<Action>, k: nat)
    requires Run(ws, acts) && k < |ws|
    ensures Sound(ws[k].last, ws[k].history)
  {
    if k > 0 {
      RunIsSound(ws, acts, k - 1);
      assert Enabled(ws[k - 1], acts[k - 1]) && ws[k] == Do(ws[k - 1], acts[k - 1]);
      hide Do, Enabled, Sound;
      SoundStep(ws[k - 1], acts[k - 1]);
    }
  }

  /** The step drops the key from the table. */
  predicate Drops(w: World, a: Action, key: Key) {
    && Enabled(w, a) && a.Lock? && key in w.last && key !in Do(w, a).last
  }

  predicate LetsThrough(w: World, a: Action, key: Key) {
    && Enabled(w, a) && a.Lock? && w.calls[a.call].key == key && Passes(w.last, w.calls[a.call].read, key)
  }

  /** Since step `u`, which dropped it, the key has not been let through again. */
  ghost predicate DroppedAt(ws: seq<World>, acts: seq<Action>, k: nat, key: Key, u: nat)
    requires |ws| == |acts| + 1 && k < |ws|
  {
    u < k && Drops(ws[u], acts[u], key) && forall t :: u < t < k ==> !LetsThrough(ws[t], acts[t], key)
  }

  /** What one step does for a key. */
  lemma StepFor(w: World, a: Action, key: Key)
    requires Enabled(w, a) && Sound(w.last, w.history)
    ensures var n := Do(w, a);
            && LastAllowed(n.history, key)
               == (if LetsThrough(w, a, key) then Some(w.calls[a.call].read) else LastAllowed(w.history, key))
            && (key in n.last <==> LetsThrough(w, a, key) || (key in w.last && !Drops(w, a, key)))
            && (LetsThrough(w, a, key) ==> !Drops(w, a, key))
  {
    if a.Lock? {
      var c := w.calls[a.call];
      LastAllowedMore(w.history, Asked(c.read, c.key, Passes(w.last, c.read, c.key)), key);
    }
  }

  ghost predicate Gone(ws: seq<World>, acts: seq<Action>, k: nat, key: Key)
    requires |ws| == |acts| + 1 && k < |ws|
  {
    exists u: nat :: DroppedAt(ws, acts, k, key, u)
  }

  lemma GoneStep(ws: seq<World>, acts: seq<Action>, k: nat, key: Key)
    requires |ws| == |acts| + 1 && k < |acts|
    ensures Gone(ws, acts, k + 1, key) <==>
              Drops(ws[k], acts[k], key) || (!LetsThrough(ws[k], acts[k], key) && Gone(ws, acts, k, key))
  {
    hide Drops, LetsThrough;
    var next := k + 1;
    if Gone(ws, acts, next, key) {
      var u: nat :| DroppedAt(ws, acts, next, key, u);
      assert u < k ==> DroppedAt(ws, acts, k, key, u);
    }
    if Gone(ws, acts, k, key) && !LetsThrough(ws[k], acts[k], key) {
      var u: nat :| DroppedAt(ws, acts, k, key, u);
      assert DroppedAt(ws, acts, next, key, u);
    }
    assert Drops(ws[k], acts[k], key) ==> DroppedAt(ws, acts, next, key, k);
  }

  /** A key that was let through before is missing exactly because some step dropped it since. */
  lemma {:induction false} MissingExactly(ws: seq<World>, acts: seq<Action>, k: nat, key: Key)
    requires Run(ws, acts) && k < |ws|
    ensures LastAllowed(ws[k].history, key).Some? && key !in ws[k].last <==> Gone(ws, acts, k, key)
    ensures LastAllowed(ws[k].history, key).None? ==> key !in ws[k].last
  {
    if k > 0 {
      var w, a := ws[k - 1], acts[k - 1];
      assert Enabled(w, a) && ws[k] == Do(w, a);
      assert Drops(w, a, key) ==> key in w.last;
      RunIsSound(ws, acts, k - 1);
      hide Do, Enabled, Passes, Sound, Drops, LetsThrough, Gone, LastAllowed;
      StepFor(w, a, key);
      MissingExactly(ws, acts, k - 1, key);
      GoneStep(ws, acts, k - 1, key);
    }
  }

  lemma DroppedWasStale(w: World, a: Action, key: Key)
    requires Drops(w, a, key) && Sound(w.last, w.history)
    ensures |w.last| >= MAX_KEYS && LastAllowed(w.history, key) == Some(w.last[key])
    ensures w.calls[a.call].read - w.last[key] >= WINDOW
  {
  }

  lemma {:induction false} NotSince(ws: seq<World>, acts: seq<Action>, u: nat, k: nat, key: Key)
    requires Run(ws, acts) && u <= k < |ws|
    requires forall t :: u <= t < k ==> !LetsThrough(ws[t], acts[t], key)
    ensures LastAllowed(ws[k].history, key) == LastAllowed(ws[u].history, key)
  {
    if u < k {
      NotSince(ws, acts, u, k - 1, key);
      RunIsSound(ws, acts, k - 1);
      assert Enabled(ws[k - 1], acts[k - 1]) && ws[k] == Do(ws[k - 1], acts[k - 1]);
      hide Do, Enabled;
      StepFor(ws[k - 1], acts[k - 1], key);
    }
  }

  /** A recent key is lost only to a call that read the clock later and took the lock earlier. */
  lemma LostToALaterReading(ws: seq<World>, acts: seq<Action>, k: nat, now: int, key: Key) returns (u: nat)
    requires Run(ws, acts) && k < |ws| && key in Lost(ws[k].last, ws[k].history, now)
    ensures DroppedAt(ws, acts, k, key, u) && ws[u].calls[acts[u].call].read > now
  {
    LastAllowedMeans(ws[k].history, key);
    MissingExactly(ws, acts, k, key);
    u :| DroppedAt(ws, acts, k, key, u);
    RunIsSound(ws, acts, u);
    DroppedWasStale(ws[u], acts[u], key);
    StepFor(ws[u], acts[u], key);
    NotSince(ws, acts, u, k, key);
  }

  /** Conversely a key that was dropped, and would still be recent, is lost. */
  lemma LostExactly(ws: seq<World>, acts: seq<Action>, k: nat, now: int, key: Key)
    requires Run(ws, acts) && k < |ws|
    ensures key in Lost(ws[k].last, ws[k].history, now) <==>
              Recent(ws[k].history, key, now) && Gone(ws, acts, k, key)
  {
    LastAllowedMeans(ws[k].history, key);
    MissingExactly(ws, acts, k, key);
  }

  /** No table that was full has been cleared, before this call gets the lock, with a later reading
      than its own. */
  ghost predicate InTurn(ws: seq<World>, acts: seq<Action>, k: nat)
    requires Run(ws, acts) && k < |acts| && acts[k].Lock? && acts[k].call in ws[k].calls
  {
    forall u: nat, key :: u < k && Drops(ws[u], acts[u], key) ==>
      ws[u].calls[acts[u].call].read <= ws[k].calls[acts[k].call].read
  }

  /** Then the answer is the history's own. */
  lemma InTurnIsExact(ws: seq<World>, acts: seq<Action>, k: nat)
    requires Run(ws, acts) && k < |acts| && acts[k].Lock? && acts[k].call in ws[k].calls && InTurn(ws, acts, k)
    ensures var c := ws[k].calls[acts[k].call];
            Passes(ws[k].last, c.read, c.key) == MayPass(ws[k].history, c.read, c.key)
  {
    var c := ws[k].calls[acts[k].call];
    RunIsSound(ws, acts, k);
    if key :| key in Lost(ws[k].last, ws[k].history, c.read) {
      var u := LostToALaterReading(ws, acts, k, c.read, key);
      assert false;
    }
    AnswersExactly(ws[k].last, ws[k].history, c.read);
  }

  lemma {:induction false} LastAllowedGrows(ws: seq<World>, acts: seq<Action>, i: nat, k: nat, key: Key)
    requires Run(ws, acts) && i < k < |ws| && LetsThrough(ws[i], acts[i], key)
    requires forall t :: i < t < k && LetsThrough(ws[t], acts[t], key) ==> InTurn(ws, acts, t)
    ensures LastAllowed(ws[k].history, key).Some?
    ensures LastAllowed(ws[k].history, key).value >= ws[i].calls[acts[i].call].read
    decreases k
  {
    var j := k - 1;
    assert Enabled(ws[j], acts[j]) && ws[k] == Do(ws[j], acts[j]);
    RunIsSound(ws, acts, j);
    StepFor(ws[j], acts[j], key);
    if i < j {
      LastAllowedGrows(ws, acts, i, j, key);
      if LetsThrough(ws[j], acts[j], key) { InTurnIsApart(ws, acts, j, key); }
    }
  }

  lemma InTurnIsApart(ws: seq<World>, acts: seq<Action>, k: nat, key: Key)
    requires Run(ws, acts) && k < |acts| && LetsThrough(ws[k], acts[k], key) && InTurn(ws, acts, k)
    requires LastAllowed(ws[k].history, key).Some?
    ensures ws[k].calls[acts[k].call].read - LastAllowed(ws[k].history, key).value >= WINDOW
  {
    InTurnIsExact(ws, acts, k);
  }

  /** Two reports of one peer for one reason are at least a window apart, if since the first no such
      report was let through after a clearing with a later reading than its own. */
  lemma ReportsAreApart(ws: seq<World>, acts: seq<Action>, i: nat, k: nat, key: Key)
    requires Run(ws, acts) && i < k < |acts|
    requires LetsThrough(ws[i], acts[i], key) && LetsThrough(ws[k], acts[k], key)
    requires forall t :: i < t <= k && LetsThrough(ws[t], acts[t], key) ==> InTurn(ws, acts, t)
    ensures ws[k].calls[acts[k].call].read - ws[i].calls[acts[i].call].read >= WINDOW
  {
    LastAllowedGrows(ws, acts, i, k, key);
    InTurnIsApart(ws, acts, k, key);
  }

  /** A key that is let through again was let through a window before, exactly if it is not one that
      was lost to such a clearing. */
  lemma ApartExactly(ws: seq<World>, acts: seq<Action>, k: nat, key: Key)
    requires Run(ws, acts) && k < |acts| && LetsThrough(ws[k], acts[k], key)
    requires LastAllowed(ws[k].history, key).Some?
    ensures var now := ws[k].calls[acts[k].call].read;
            now - LastAllowed(ws[k].history, key).value >= WINDOW <==> key !in Lost(ws[k].last, ws[k].history, now)
  {
    RunIsSound(ws, acts, k);
    LastAllowedMeans(ws[k].history, key);
  }

  // ---------- a race ----------

  ghost predicate Reaches(w: World) {
    exists ws: seq<World>, acts: seq<Action> :: Run(ws, acts) && ws[|acts|] == w
  }

  lemma Extended(ws: seq<World>, acts: seq<Action>, a: Action)
    requires Run(ws, acts) && Enabled(ws[|acts|], a)
    ensures Run(ws + [Do(ws[|acts|], a)], acts + [a])
  {
    hide Do, Enabled;
    var more, then_ := ws + [Do(ws[|acts|], a)], acts + [a];
    forall k | 0 <= k < |then_| ensures Enabled(more[k], then_[k]) && more[k + 1] == Do(more[k], then_[k]) {
    }
  }

  lemma ReachesOn(w: World, a: Action)
    requires Reaches(w) && Enabled(w, a)
    ensures Reaches(Do(w, a))
  {
    hide Do, Enabled;
    var ws: seq<World>, acts: seq<Action> :| Run(ws, acts) && ws[|acts|] == w;
    Extended(ws, acts, a);
    assert (ws + [Do(w, a)])[|acts + [a]|] == Do(w, a);
  }

  /** Peers with different names. */
  function Peer(n: nat): Key {
    Key(seq(n, _ => 'n'), "tagged")
  }

  lemma PeersDiffer(n: nat, m: nat)
    requires Peer(n) == Peer(m)
    ensures n == m
  {
    assert |Peer(n).peer| == n && |Peer(m).peer| == m;
  }

  /** The first `n` peers were reported at time 0. */
  ghost predicate Filled(w: World, n: nat) {
    && w.clock == 0 && w.calls == map[] && |w.last| == n
    && (forall key :: key in w.last ==> w.last[key] == 0)
    && (forall i: nat :: n <= i ==> Peer(i) !in w.last)
    && (n > 0 ==> LastAllowed(w.history, Peer(0)) == Some(0))
  }

  lemma OneMorePeer(w: World, n: nat) returns (v: World)
    requires Filled(w, n) && n < MAX_KEYS && Reaches(w)
    ensures Filled(v, n + 1) && Reaches(v)
  {
    var r := Do(w, Read(0, Peer(n)));
    ReachesOn(w, Read(0, Peer(n)));
    assert r.calls[0] == Call(Peer(n), 0);
    assert Passes(w.last, 0, Peer(n)) && After(w.last, 0, Peer(n)) == w.last[Peer(n) := 0];
    v := Do(r, Lock(0));
    ReachesOn(r, Lock(0));
    LastAllowedMore(w.history, Asked(0, Peer(n), true), Peer(0));
    assert v.last == w.last[Peer(n) := 0] && v.calls == map[] && v.clock == 0;
    hide Do, Enabled, Passes, After, LastAllowed, Peer, Reaches;
    forall i: nat | n + 1 <= i ensures Peer(i) !in v.last {
      if Peer(i) == Peer(n) { PeersDiffer(i, n); }
    }
  }

  lemma {:induction false} AllPeers(n: nat) returns (w: World)
    requires n <= MAX_KEYS
    ensures Filled(w, n) && Reaches(w)
  {
    if n == 0 {
      w := World(0, map[], map[], []);
      var none: seq<Action> := [];
      assert Run([w], none) && [w][|none|] == w;
    } else {
      w := AllPeers(n - 1);
      w := OneMorePeer(w, n - 1);
    }
  }

  /** With a full table, one call reads the clock a second before a minute is over, another when it
      is; the second gets the lock first and clears the table, and the first lets its peer through
      again. */
  lemma RaceRun() returns (ws: seq<World>, acts: seq<Action>)
    ensures Run(ws, acts) && acts != [] && LetsThrough(ws[|acts| - 1], acts[|acts| - 1], Peer(0))
    ensures ws[|acts| - 1].calls[acts[|acts| - 1].call].read == 59
    ensures LastAllowed(ws[|acts| - 1].history, Peer(0)) == Some(0)
    ensures !MayPass(ws[|acts| - 1].history, 59, Peer(0))
  {
    var full := AllPeers(MAX_KEYS);
    var w := BothRead(full);
    hide Filled;
    var cleared := Clears(w);
    hide Do, Enabled, After, Passes, LastAllowed;
    ReachesOn(w, Lock(1));
    var before: seq<World>, first: seq<Action> :| Run(before, first) && before[|first|] == cleared;
    Extended(before, first, Lock(0));
    ws, acts := before + [Do(cleared, Lock(0))], first + [Lock(0)];
    assert ws[|acts| - 1] == cleared && acts[|acts| - 1] == Lock(0);
  }

  lemma BothRead(full: World) returns (w: World)
    requires Filled(full, MAX_KEYS) && Reaches(full)
    ensures Reaches(w) && w.last == full.last && w.history == full.history
    ensures w.calls == map[0 := Call(Peer(0), 59), 1 := Call(Peer(MAX_KEYS), 60)]
    ensures |w.last| == MAX_KEYS && (forall key :: key in w.last ==> w.last[key] == 0)
    ensures Peer(MAX_KEYS) !in w.last && LastAllowed(w.history, Peer(0)) == Some(0)
  {
    hide Reaches;
    var a := Do(full, Tick(59));
    ReachesOn(full, Tick(59));
    var b := Do(a, Read(0, Peer(0)));
    ReachesOn(a, Read(0, Peer(0)));
    var c := Do(b, Tick(60));
    ReachesOn(b, Tick(60));
    w := Do(c, Read(1, Peer(MAX_KEYS)));
    ReachesOn(c, Read(1, Peer(MAX_KEYS)));
  }

  lemma Clears(w: World) returns (v: World)
    requires w.calls == map[0 := Call(Peer(0), 59), 1 := Call(Peer(MAX_KEYS), 60)]
    requires |w.last| == MAX_KEYS && (forall key :: key in w.last ==> w.last[key] == 0)
    requires Peer(MAX_KEYS) !in w.last && LastAllowed(w.history, Peer(0)) == Some(0)
    ensures Enabled(w, Lock(1)) && v == Do(w, Lock(1)) && LetsThrough(v, Lock(0), Peer(0))
    ensures v.calls == map[0 := Call(Peer(0), 59)] && LastAllowed(v.history, Peer(0)) == Some(0)
    ensures !MayPass(v.history, 59, Peer(0))
  {
    var last := Peer(MAX_KEYS);
    assert Fresh(w.last, 60) == map[] && Passes(w.last, 60, last);
    v := Do(w, Lock(1));
    assert v.last == map[last := 60];
    if Peer(0) == last { PeersDiffer(0, MAX_KEYS); }
    LastAllowedMore(w.history, Asked(60, last, true), Peer(0));
    assert |Fresh(v.last, 59)| <= 1 by { FreshIsSmaller(v.last, 59); }
    assert |v.last| == 1;
  }

  // ---------- who is let in ----------

  /** A WhoIs answer, as far as it is looked at; `None` for a failed or empty lookup. */
  datatype WhoIs = WhoIs(name: string, tagged: bool, user: Option<string>)

  datatype Verdict = Admitted(peer: string) | Rejected(reason: string, peer: string)

  function Authorize(who: Option<WhoIs>, requiredLogin: string): (v: Verdict)
    ensures v.Admitted? <==>
              who.Some? && !who.value.tagged && who.value.user == Some(requiredLogin)
  {
    if who.None? then Rejected("whois-failed", "")
    else if who.value.tagged then Rejected("tagged", who.value.name)
    else if who.value.user.None? || who.value.user.value != requiredLogin then Rejected("other-user", who.value.name)
    else Admitted(who.value.name)
  }
}
