/** What a halted gateway can still do (src-tauri/src/companion_service.rs:497-515): an event passes
    the check before it is acted on, and a stop takes the mark of a halt away. */
module GatewayHalts {
  import opened Wrappers
  import opened Devices
  import opened Gateway
  import opened GatewayRuns
  import P = PushStore

  /** The process installed as `gen` was halted, and nobody has stopped it since. */
  predicate HaltedAs(m: Machine, gen: nat) {
    && m.inner.process.Some? && m.inner.generation == gen
    && m.inner.terminal.Some? && m.inner.terminal.value.Failed?
  }

  /** The last error is only looked at when a process exits that nobody has ended. */
  predicate Unchanged(m: Machine, n: Machine) {
    n == m.(flight := n.flight, inner := m.inner.(lastError := n.inner.lastError))
  }

  /** A stop of the process that is halted. */
  predicate StopsIt(m: Machine, a: Action, gen: nat) {
    a.Stop? && m.inner.process.Some? && m.inner.generation == gen
  }

  ghost predicate Unstopped(ms: seq<Machine>, acts: seq<Action>, gen: nat) {
    && Path(ms, acts)
    && forall t :: 0 <= t < |acts| ==> !StopsIt(ms[t], acts[t], gen)
  }

  ghost predicate Ignored(ms: seq<Machine>, acts: seq<Action>, gen: nat)
    requires Path(ms, acts)
  {
    forall t :: 0 <= t < |acts| && Speaker(ms[t], acts[t]) == Some(gen) ==> Unchanged(ms[t], ms[t + 1])
  }

  /** However it goes on without such a stop, nothing the process says changes anything. */
  ghost predicate Mute(m: Machine, gen: nat) {
    forall ms: seq<Machine>, acts: seq<Action> :: Unstopped(ms, acts, gen) && ms[0] == m ==> Ignored(ms, acts, gen)
  }

  /** The event in hand is one of the process that has still something to do. An event about devices
      has, until it is written, and one that could not be written; so has an expiry. Of the push
      events it depends on what is stored. */
  predicate StillActs(m: Machine, gen: nat) {
    && m.flight.Flight? && m.flight.gen == gen
    && (match m.flight.phase
        case Peeked(frame) => frame.Some?
        case Written(saved, frame) =>
          || saved.Err?
          || (frame.None? && m.flight.event.Revoked? && m.flight.event.gone.Some?
              && m.flight.event.gone.value in m.push.book)
        case Checked =>
          match m.flight.event
          case Registered(_) => true
          case Updated(_) => true
          case Revoked(_) => true
          case Problem(code) => code == "policy-expired"
          case PushSubscribed(owner, _, valid) => valid && Knows(m, owner)
          case PushDropped(owner, endpoint) =>
            Knows(m, owner) && exists s :: s in P.All(m.push.book, owner) && P.At(endpoint)(s)
          case PushAsked(devices, granted) => granted && Targets(m.push.book, devices) != {}
          case _ => false)
  }

  // ---------- nothing in hand: nothing changes any more ----------

  ghost predicate Silenced(m: Machine, gen: nat) {
    && gen in m.installed
    && (m.inner.process.Some? && m.inner.generation == gen ==> HaltedAs(m, gen))
    && !StillActs(m, gen)
  }

  predicate Fewer(b: P.Book, c: P.Book) {
    forall d :: d in c ==> d in b && forall s :: s in c[d] ==> s in b[d]
  }

  lemma PrunedIsFewer(b: P.Book, device: string, gone: P.Subscription -> bool)
    ensures Fewer(b, P.Pruned(b, device, gone))
  {
    if device in b { P.LeftMembers(b[device], gone); }
  }

  /** With less stored an event has no more to do. */
  lemma FewerActsLess(m: Machine, n: Machine, gen: nat)
    requires !StillActs(m, gen) && n.flight == m.flight && n.memory == m.memory && Fewer(m.push.book, n.push.book)
    ensures !StillActs(n, gen)
  {
    if n.flight.Flight? && n.flight.gen == gen && n.flight.phase.Checked? {
      match n.flight.event {
        case PushDropped(owner, endpoint) =>
          assert forall s :: s in P.All(n.push.book, owner) ==> s in P.All(m.push.book, owner);
        case PushAsked(devices, _) =>
          assert Targets(n.push.book, devices) <= Targets(m.push.book, devices);
        case _ =>
      }
    }
  }

  /** Steps of nobody in particular leave the event in hand, and never store a subscription. */
  lemma OthersOnlyTake(m: Machine, a: Action)
    requires Generations(m) && Enabled(m, a) && Speaker(m, a).None? && m.flight.Flight?
    ensures var n := Do(m, a).machine;
            n.flight == m.flight && n.memory == m.memory && Fewer(m.push.book, n.push.book)
  {
    if a.PushAnswer? { PrunedIsFewer(m.push.book, a.target.device, P.SameKeys(a.target.sent)); }
  }

  predicate IsFailed(m: Machine) {
    m.inner.terminal.Some? && m.inner.terminal.value.Failed?
  }

  lemma HandledStaysFailed(m: Machine)
    requires Applicable(m) && IsFailed(m)
    ensures IsFailed(Handled(m).machine)
  {
  }

  lemma StaysFailed(m: Machine, a: Action)
    requires Enabled(m, a) && IsFailed(m) && m.inner.process.Some? && m.launch.NoLaunch?
    requires !a.Stop? && Do(m, a).machine.inner.process.Some?
    ensures IsFailed(Do(m, a).machine)
  {
    if a.Apply? {
      HandledStaysFailed(m);
      hide Handled, Pushed;
    }
  }

  lemma HaltStays(m: Machine, a: Action, gen: nat)
    requires Generations(m) && Enabled(m, a) && !StopsIt(m, a, gen) && gen in m.installed
    requires m.inner.process.Some? && m.inner.generation == gen ==> HaltedAs(m, gen)
    ensures var n := Do(m, a).machine;
            gen in n.installed && (n.inner.process.Some? && n.inner.generation == gen ==> HaltedAs(n, gen))
  {
    var n := Do(m, a).machine;
    if a.InstallStart? {
      assert gen <= m.inner.generation && m.inner.process.None?;
    } else {
      OnlyInstallAdds(m, a);
      assert m.inner.process.Some? ==> m.launch.NoLaunch?;
      if n.inner.process.Some? && n.inner.generation == gen { StaysFailed(m, a); }
      hide Do, Enabled;
    }
  }

  /** The process's own steps have nothing left to do. */
  lemma OwnStep(m: Machine, a: Action, gen: nat)
    requires Inv(m) && Silenced(m, gen) && Enabled(m, a) && Speaker(m, a) == Some(gen)
    ensures Unchanged(m, Do(m, a).machine) && !StillActs(Do(m, a).machine, gen)
  {
    if a.Check? {
      assert !Heeded(m.inner, gen);
    } else {
      assert m.inner.pending.None? by { assert PendingIsTurn(m) && Generations(m); }
      if a.Apply? { OwnApply(m, a.stored, gen); }
    }
  }

  lemma OwnApply(m: Machine, stored: bool, gen: nat)
    requires Generations(m) && FlightShape(m) && DeferralIsPending(m)
    requires Silenced(m, gen) && Applicable(m) && m.flight.gen == gen && m.inner.pending.None?
    ensures Unchanged(m, DoApply(m, stored).machine) && DoApply(m, stored).machine.flight.NoFlight?
  {
    OwnPushes(m, stored, gen);
    hide Pushed;
  }

  lemma OwnPushes(m: Machine, stored: bool, gen: nat)
    requires FlightShape(m) && DeferralIsPending(m)
    requires Applicable(m) && !StillActs(m, gen) && m.flight.gen == gen
    ensures Pushed(m, stored) == m.push
  {
    match m.flight.event {
      case PushDropped(owner, endpoint) => P.PrunedExactly(m.push.book, owner, P.At(endpoint));
      case Revoked(Some(id)) => assert id !in m.push.book ==> m.push.book - {id} == m.push.book;
      case _ =>
    }
  }

  lemma SilencedStep(m: Machine, a: Action, gen: nat)
    requires Inv(m) && Silenced(m, gen) && Enabled(m, a) && !StopsIt(m, a, gen)
    ensures Silenced(Do(m, a).machine, gen)
    ensures Speaker(m, a) == Some(gen) ==> Unchanged(m, Do(m, a).machine)
  {
    HaltStays(m, a, gen);
    if Speaker(m, a) == Some(gen) {
      OwnStep(m, a, gen);
    } else if Speaker(m, a).None? && m.flight.Flight? {
      OthersOnlyTake(m, a);
      FewerActsLess(m, Do(m, a).machine, gen);
    } else {
      OthersSpeak(m, a, gen);
    }
  }

  lemma OthersSpeak(m: Machine, a: Action, gen: nat)
    requires Enabled(m, a) && !StillActs(m, gen) && Speaker(m, a) != Some(gen)
    requires Speaker(m, a).Some? || m.flight.NoFlight?
    ensures !StillActs(Do(m, a).machine, gen)
  {
  }

  lemma {:induction false} SilencedForGood(ms: seq<Machine>, acts: seq<Action>, gen: nat, k: nat)
    requires Unstopped(ms, acts, gen) && Inv(ms[0]) && Silenced(ms[0], gen) && k <= |acts|
    ensures Inv(ms[k]) && Silenced(ms[k], gen)
    ensures forall t :: 0 <= t < k && Speaker(ms[t], acts[t]) == Some(gen) ==> Unchanged(ms[t], ms[t + 1])
  {
    if k > 0 {
      SilencedForGood(ms, acts, gen, k - 1);
      assert Enabled(ms[k - 1], acts[k - 1]) && ms[k] == Do(ms[k - 1], acts[k - 1]).machine;
      hide Do, Enabled, Inv, Silenced, Unchanged;
      InvStep(ms[k - 1], acts[k - 1]);
      SilencedStep(ms[k - 1], acts[k - 1], gen);
    }
  }

  // ---------- something in hand: it can still change something ----------

  lemma NotMute(m: Machine, gen: nat, ms: seq<Machine>, acts: seq<Action>)
    requires Unstopped(ms, acts, gen) && ms[0] == m && acts != []
    requires Speaker(ms[|acts| - 1], acts[|acts| - 1]) == Some(gen) && !Unchanged(ms[|acts| - 1], ms[|acts|])
    ensures !Mute(m, gen)
  {
    assert !Ignored(ms, acts, gen);
  }

  lemma Prepended(m: Machine, a: Action, after: seq<Machine>, more: seq<Action>, gen: nat)
    requires Unstopped(after, more, gen) && Enabled(m, a) && after[0] == Do(m, a).machine && !a.Stop?
    ensures Unstopped([m] + after, [a] + more, gen)
  {
    hide Do, Enabled;
    var ms, acts := [m] + after, [a] + more;
    forall k | 0 <= k < |acts|
      ensures Enabled(ms[k], acts[k]) && ms[k + 1] == Do(ms[k], acts[k]).machine && !StopsIt(ms[k], acts[k], gen)
    {
      if k > 0 { assert acts[k] == more[k - 1] && ms[k] == after[k - 1] && ms[k + 1] == after[k]; }
    }
  }

  lemma Preceded(m: Machine, a: Action, gen: nat)
    requires Enabled(m, a) && !a.Stop? && !Mute(Do(m, a).machine, gen)
    ensures !Mute(m, gen)
  {
    hide Do, Enabled, Unchanged, Speaker;
    var after: seq<Machine>, more: seq<Action> :|
      Unstopped(after, more, gen) && after[0] == Do(m, a).machine && !Ignored(after, more, gen);
    Prepended(m, a, after, more, gen);
    var t :| 0 <= t < |more| && Speaker(after[t], more[t]) == Some(gen) && !Unchanged(after[t], after[t + 1]);
    var ms, acts := [m] + after, [a] + more;
    assert ms[t + 1] == after[t] && acts[t + 1] == more[t] && ms[t + 2] == after[t + 1];
    assert !Ignored(ms, acts, gen);
  }

  /** The halted process exits, and a new start begins, which waits for the event in hand. */
  lemma ExitsAndBegins(m: Machine, gen: nat) returns (gone: Machine, next: Machine)
    requires Inv(m) && HaltedAs(m, gen)
    ensures Enabled(m, Exit(gen)) && Do(m, Exit(gen)).machine == gone
    ensures Enabled(gone, Begin) && Do(gone, Begin).machine == next
    ensures gone.flight == m.flight && gone.memory == m.memory && gone.push == m.push
    ensures next.flight == m.flight && next.push == m.push
    ensures gone.inner.process.None? && next.inner.status.Starting? && !next.inner.expired
  {
    gone := Do(m, Exit(gen)).machine;
    next := Do(gone, Begin).machine;
  }

  /** An event that could not be stored, or that tells of an expiry, reaches the start that has begun
      since. */
  lemma LateActs(m: Machine, gen: nat)
    requires Inv(m) && HaltedAs(m, gen) && m.flight.Flight? && m.flight.gen == gen
    requires (m.flight.phase.Written? && m.flight.phase.saved.Err?) || AboutToExpire(m)
    ensures !Mute(m, gen)
  {
    var gone, next := ExitsAndBegins(m, gen);
    var last := Do(next, Apply(true)).machine;
    assert !Unchanged(next, last);
    assert Speaker(next, Apply(true)) == Some(gen);
    hide Do, Enabled, Inv, Unchanged;
    NotMute(m, gen, [m, gone, next, last], [Exit(gen), Begin, Apply(true)]);
  }

  lemma WriteActs(m: Machine, gen: nat)
    requires Inv(m) && HaltedAs(m, gen) && m.flight.Flight? && m.flight.gen == gen && Writing(m)
    ensures !Mute(m, gen)
  {
    var a := Write(FailedOld("disk"));
    var failed := Do(m, a).machine;
    InvStep(m, a);
    assert failed.inner == m.inner && failed.flight.gen == gen;
    assert failed.flight.phase.Written? && failed.flight.phase.saved.Err?;
    hide Do, Inv, Mute;
    LateActs(failed, gen);
    Preceded(m, a, gen);
  }

  /** A new key has dropped all subscriptions before this one is stored. */
  lemma SubscribedActs(m: Machine, gen: nat)
    requires Inv(m) && HaltedAs(m, gen) && m.flight.Flight? && m.flight.gen == gen && m.flight.phase.Checked?
    requires m.flight.event.PushSubscribed? && m.flight.event.valid && Knows(m, m.flight.event.owner)
    ensures !Mute(m, gen)
  {
    var gone, next := ExitsAndBegins(m, gen);
    var bare := gone.(push := gone.push.(book := map[]));
    assert Enabled(gone, Rekey(true)) && Do(gone, Rekey(true)).machine == bare;
    var last := Stores(bare, gen);
    hide Do, Enabled, Inv, Unchanged;
    NotMute(m, gen, [m, gone, bare, last], [Exit(gen), Rekey(true), Apply(true)]);
  }

  lemma Stores(m: Machine, gen: nat) returns (n: Machine)
    requires m.flight.Flight? && m.flight.gen == gen && m.flight.phase.Checked? && m.push.book == map[]
    requires m.flight.event.PushSubscribed? && m.flight.event.valid && Knows(m, m.flight.event.owner)
    ensures Enabled(m, Apply(true)) && n == Do(m, Apply(true)).machine && Speaker(m, Apply(true)) == Some(gen)
    ensures !Unchanged(m, n)
  {
    n := Do(m, Apply(true)).machine;
    assert m.flight.event.owner in n.push.book;
  }

  lemma PushActs(m: Machine, gen: nat)
    requires HaltedAs(m, gen) && m.flight.Flight? && m.flight.gen == gen && Applicable(m)
    requires Pushed(m, true) != m.push
    ensures !Mute(m, gen)
  {
    var last := Do(m, Apply(true)).machine;
    assert !Unchanged(m, last);
    assert Speaker(m, Apply(true)) == Some(gen);
    hide Do, Enabled, Unchanged;
    NotMute(m, gen, [m, last], [Apply(true)]);
  }

  lemma ActsSomeday(m: Machine, gen: nat)
    requires Inv(m) && HaltedAs(m, gen) && StillActs(m, gen)
    ensures !Mute(m, gen)
  {
    hide Mute, Inv;
    if Writing(m) {
      WriteActs(m, gen);
    } else if (m.flight.phase.Written? && m.flight.phase.saved.Err?) || AboutToExpire(m) {
      LateActs(m, gen);
    } else if m.flight.event.PushSubscribed? && m.flight.phase.Checked? {
      SubscribedActs(m, gen);
    } else {
      if m.flight.event.PushDropped? {
        P.PrunedExactly(m.push.book, m.flight.event.owner, P.At(m.flight.event.endpoint));
      }
      PushActs(m, gen);
    }
  }

  /** Once a gateway is halted, nothing more it says is acted on, however things go on without a
      stop, if and only if no event of it that has still something to do is in hand. */
  lemma HaltedExactly(ms: seq<Machine>, acts: seq<Action>, k: nat, gen: nat)
    requires Run(ms, acts) && k < |ms| && HaltedAs(ms[k], gen)
    ensures Mute(ms[k], gen) <==> !StillActs(ms[k], gen)
  {
    RunKeeps(ms, acts, k);
    var m := ms[k];
    if StillActs(m, gen) {
      ActsSomeday(m, gen);
    } else {
      assert gen in m.installed by { assert Generations(m); }
      forall after: seq<Machine>, more: seq<Action> | Unstopped(after, more, gen) && after[0] == m
        ensures Ignored(after, more, gen)
      {
        SilencedForGood(after, more, gen, |more|);
      }
    }
  }

  // ---------- a stop takes the mark away ----------

  /** With the mark of the halt gone and nothing in hand, the next event is acted on. */
  lemma NextActs(m: Machine, gen: nat) returns (ms: seq<Machine>, acts: seq<Action>)
    requires Inv(m) && m.inner.process.Some? && m.inner.generation == gen && m.inner.terminal == Some(Disabled)
    requires m.flight.NoFlight?
    ensures Unstopped(ms, acts, gen) && ms[0] == m && acts != []
    ensures Speaker(ms[|acts| - 1], acts[|acts| - 1]) == Some(gen) && !Unchanged(ms[|acts| - 1], ms[|acts|])
  {
    var heard := Do(m, Check(gen, Revoked(None))).machine;
    var failed := Do(heard, Write(Saved)).machine;
    var last := Do(failed, Apply(true)).machine;
    assert heard.flight == Flight(gen, Revoked(None), Checked);
    assert failed.flight.phase.Written? && failed.flight.phase.saved.Err? && failed.inner == m.inner;
    assert !Unchanged(failed, last);
    assert Speaker(failed, Apply(true)) == Some(gen);
    hide Do, Enabled, Inv, Unchanged;
    ms, acts := [m, heard, failed, last], [Check(gen, Revoked(None)), Write(Saved), Apply(true)];
  }

  /** A process that was told to stop after its halt, and runs on. */
  ghost predicate Reopened(m: Machine, gen: nat) {
    && Inv(m) && m.inner.process.Some? && m.inner.generation == gen
    && m.inner.terminal == Some(Disabled) && m.inner.pending.None?
  }

  lemma ReopenedIdle(m: Machine, gen: nat)
    requires Reopened(m, gen) && m.flight.NoFlight?
    ensures !Mute(m, gen)
  {
    var ms, acts := NextActs(m, gen);
    hide Unchanged, Do, Enabled;
    NotMute(m, gen, ms, acts);
  }

  lemma ReopenedFailed(m: Machine, gen: nat)
    requires Reopened(m, gen) && m.flight.Flight? && m.flight.phase.Written? && m.flight.phase.saved.Err?
    ensures !Mute(m, gen)
  {
    assert m.flight.gen == gen by { assert Generations(m); }
    var last := Do(m, Apply(true)).machine;
    assert !Unchanged(m, last);
    assert Speaker(m, Apply(true)) == Some(gen);
    hide Do, Enabled, Inv, Unchanged;
    NotMute(m, gen, [m, last], [Apply(true)]);
  }

  lemma StaysReopened(m: Machine, gen: nat)
    requires Applicable(m) && !(m.flight.phase.Written? && m.flight.phase.saved.Err?)
    requires m.inner.process.Some? && m.inner.terminal == Some(Disabled) && m.inner.pending.None?
    ensures var n := Do(m, Apply(true)).machine;
            && n.flight.NoFlight? && n.inner.process.Some? && n.inner.generation == m.inner.generation
            && n.inner.terminal == Some(Disabled) && n.inner.pending.None?
  {
    hide Pushed;
  }

  lemma ReopenedApplies(m: Machine, gen: nat)
    requires Reopened(m, gen) && Applicable(m) && !(m.flight.phase.Written? && m.flight.phase.saved.Err?)
    ensures !Mute(m, gen)
  {
    var n := Do(m, Apply(true)).machine;
    InvStep(m, Apply(true));
    StaysReopened(m, gen);
    hide Do, Inv, Mute;
    ReopenedIdle(n, gen);
    Preceded(m, Apply(true), gen);
  }

  lemma ReopenedWrites(m: Machine, gen: nat)
    requires Reopened(m, gen) && Writing(m)
    ensures !Mute(m, gen)
  {
    var a := Write(FailedOld("disk"));
    var n := Do(m, a).machine;
    InvStep(m, a);
    assert Reopened(n, gen) && n.flight.phase.Written? && n.flight.phase.saved.Err?;
    hide Do, Inv, Mute;
    ReopenedFailed(n, gen);
    Preceded(m, a, gen);
  }

  lemma ReopenedPeeks(m: Machine, gen: nat)
    requires Reopened(m, gen) && Enabled(m, Peek)
    ensures !Mute(m, gen)
  {
    var n := Do(m, Peek).machine;
    InvStep(m, Peek);
    assert Reopened(n, gen) && n.flight.phase == Peeked(None);
    hide Do, Inv, Mute;
    ReopenedApplies(n, gen);
    Preceded(m, Peek, gen);
  }

  /** A stop of a halted gateway, whatever is in hand: what the process says counts again. */
  lemma StopReopens(ms: seq<Machine>, acts: seq<Action>, k: nat, gen: nat)
    requires Run(ms, acts) && k < |acts| && HaltedAs(ms[k], gen) && acts[k].Stop?
    ensures !Mute(ms[k + 1], gen)
  {
    RunKeeps(ms, acts, k);
    RunKeeps(ms, acts, k + 1);
    var m := ms[k + 1];
    assert m == Do(ms[k], Stop).machine;
    assert ms[k].inner.pending.None? by { assert PendingIsTurn(ms[k]); }
    assert Reopened(m, gen);
    hide Do, Inv, Mute, Reopened;
    if m.flight.NoFlight? { ReopenedIdle(m, gen); }
    else if Writing(m) { ReopenedWrites(m, gen); }
    else if Enabled(m, Peek) { ReopenedPeeks(m, gen); }
    else if m.flight.phase.Written? && m.flight.phase.saved.Err? { ReopenedFailed(m, gen); }
    else { ReopenedApplies(m, gen); }
  }

  // ---------- both ways, from the start ----------

  function Down(port: nat): Machine {
    Up(port).(inner := Halted(Up(port).inner, "companion-net-crashed").inner)
  }

  /** The gateway reports a phone, and is halted before that is written: it is written all the same. */
  lemma InHandRun(phone: Device, port: nat) returns (ms: seq<Machine>, acts: seq<Action>)
    requires phone.id != "" && port > 0
    ensures Run(ms, acts) && |acts| == 8 && HaltedAs(ms[7], 1) && StillActs(ms[7], 1)
    ensures Speaker(ms[7], acts[7]) == Some(1) && ms[7].disk == [] && ms[8].disk == [phone]
  {
    var before, first := ComesUp(port);
    var fail := FailNow("companion-net-crashed");
    var heard := Up(port).(flight := Flight(1, Registered(phone), Checked));
    var halted := Down(port).(flight := heard.flight);
    assert Intended(halted) == Ok([phone]) by { OnePhone(phone); }
    var last := halted.(memory := Some([phone]), disk := [phone],
                        flight := Flight(1, Registered(phone), Written(Ok(()), None)));
    assert Enabled(Up(port), Check(1, Registered(phone))) && Do(Up(port), Check(1, Registered(phone))).machine == heard;
    assert Enabled(heard, fail) && Do(heard, fail).machine == halted;
    assert Enabled(halted, Write(Saved)) && Do(halted, Write(Saved)).machine == last;
    hide Do, Enabled, Intended;
    var after, more := [Up(port), heard, halted, last], [Check(1, Registered(phone)), fail, Write(Saved)];
    assert Path(after, more);
    Joined(before, first, after, more);
    ms, acts := before + after[1..], first + more;
  }

  lemma OnePhone(phone: Device)
    requires phone.id != ""
    ensures Upserted([], phone) == Ok([phone])
  {
    var none: seq<Device> := [];
    assert IndexOf(none, phone.id) == 0 && none + [phone] == [phone];
  }

  lemma FailsAndStops(port: nat)
    ensures var fail := FailNow("companion-net-crashed");
            Enabled(Up(port), fail) && Do(Up(port), fail).machine == Down(port)
    ensures Enabled(Down(port), Stop)
    ensures Do(Down(port), Stop).machine == Down(port).(inner := Gateway.Stopped(Down(port).inner))
  {
  }

  lemma PhoneStored(m: Machine, heard: Machine, last: Machine, phone: Device)
    requires phone.id != "" && m.flight.NoFlight? && 1 in m.installed && Heeded(m.inner, 1) && m.memory == Some([])
    requires heard == m.(flight := Flight(1, Registered(phone), Checked))
    requires last == heard.(memory := Some([phone]), disk := [phone],
                            flight := Flight(1, Registered(phone), Written(Ok(()), None)))
    ensures Enabled(m, Check(1, Registered(phone))) && Do(m, Check(1, Registered(phone))).machine == heard
    ensures Enabled(heard, Write(Saved)) && Do(heard, Write(Saved)).machine == last
  {
    assert Intended(heard) == Ok([phone]) by { OnePhone(phone); }
  }

  /** It is halted, then stopped; the phone it reports after that is stored. */
  lemma StoppedRun(phone: Device, port: nat) returns (ms: seq<Machine>, acts: seq<Action>)
    requires phone.id != "" && port > 0
    ensures Run(ms, acts) && |acts| == 9 && HaltedAs(ms[6], 1) && !StillActs(ms[6], 1) && acts[6].Stop?
    ensures Speaker(ms[8], acts[8]) == Some(1) && ms[8].disk == [] && ms[9].disk == [phone]
  {
    var before, first := ComesUp(port);
    var fail := FailNow("companion-net-crashed");
    var stopped := Down(port).(inner := Gateway.Stopped(Down(port).inner));
    var heard := stopped.(flight := Flight(1, Registered(phone), Checked));
    var last := heard.(memory := Some([phone]), disk := [phone],
                       flight := Flight(1, Registered(phone), Written(Ok(()), None)));
    FailsAndStops(port);
    PhoneStored(stopped, heard, last, phone);
    hide Do, Enabled, Intended;
    var after := [Up(port), Down(port), stopped, heard, last];
    var more := [fail, Stop, Check(1, Registered(phone)), Write(Saved)];
    assert Path(after, more);
    assert after[1..] == [Down(port), stopped, heard, last];
    hide Path;
    Joined(before, first, after, more);
    ms, acts := before + after[1..], first + more;
  }
}
