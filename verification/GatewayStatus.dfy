/** What the status shows, over whole runs of the gateway supervisor: how far a start has got, which
    port a gateway runs on, and why it ended. */
module GatewayStatus {
  import opened Wrappers
  import opened Devices
  import opened Gateway
  import opened GatewayRuns

  /** With a process the status says whether it is starting, runs, was told to stop or was halted, and
      then why; without one a start is on its way or none is. */
  predicate Shown(i: Inner, launch: Launch) {
    match i.process
    case Some(_) =>
      (match i.terminal
       case None => if i.ready then i.status.Running? else i.status.Starting?
       case Some(Failed(code)) => i.status == Failed(code)
       case Some(_) => i.status.Stopping?)
    case None =>
      match i.status
      case Running(_) => false
      case Stopping => false
      case Starting => launch.Launch? && launch.expected == i.generation
      case _ => true
  }

  predicate OnItsPort(i: Inner) {
    i.status.Running? && i.port.Some? ==> i.port.value == i.status.port
  }

  /** The kill handle is there until the gateway is halted or told to stop. */
  predicate MayKill(i: Inner) {
    i.process.Some? ==> (i.process.value.kill <==> i.terminal.None?)
  }

  ghost predicate Shows(m: Machine) {
    Shown(m.inner, m.launch) && OnItsPort(m.inner) && MayKill(m.inner)
  }

  lemma EffectedShows(m: Machine)
    requires Shown(m.inner, m.launch) && Applicable(m)
    ensures Shown(Effected(m).inner, m.launch)
  {
  }

  lemma EffectedFits(m: Machine)
    requires OnItsPort(m.inner) && MayKill(m.inner) && Applicable(m)
    ensures OnItsPort(Effected(m).inner) && MayKill(Effected(m).inner)
  {
  }

  lemma HandledShows(m: Machine)
    requires Shows(m) && Applicable(m)
    ensures Shows(Handled(m).machine)
  {
    EffectedShows(m);
    EffectedFits(m);
    hide Shown, OnItsPort, MayKill, Effected;
  }

  lemma ApplyShows(m: Machine, stored: bool)
    requires Shows(m) && Applicable(m)
    ensures Shows(Do(m, Apply(stored)).machine)
  {
    HandledShows(m);
    var v := Do(m, Apply(stored)).machine;
    assert v.inner == Handled(m).machine.inner && v.launch == Handled(m).machine.launch;
    hide Do, Handled, Shown, OnItsPort, MayKill;
  }

  lemma OthersShow(m: Machine, a: Action)
    requires RunningIsReady(m) && Generations(m) && Shows(m) && Enabled(m, a) && !a.Apply?
    ensures Shows(Do(m, a).machine)
  {
    if SameInner(a) { InnerStays(m, a); } else { SectionsShow(m, a); }
  }

  /** Actions that leave the locked state and the launch of it alone. */
  predicate SameInner(a: Action) {
    a.Check? || a.Peek? || a.Write? || a.Elapse? || a.Collect? || a.EditStopped? || a.PushAnswer? || a.Rekey?
  }

  lemma InnerStays(m: Machine, a: Action)
    requires Enabled(m, a) && SameInner(a)
    ensures Do(m, a).machine.inner == m.inner && Do(m, a).machine.launch == m.launch
  {
  }

  lemma SectionsShow(m: Machine, a: Action)
    requires RunningIsReady(m) && Generations(m) && Shows(m) && Enabled(m, a) && !a.Apply? && !SameInner(a)
    ensures Shows(Do(m, a).machine)
  {
  }

  lemma StepShows(m: Machine, a: Action)
    requires Inv(m) && Shows(m) && Enabled(m, a)
    ensures Shows(Do(m, a).machine)
  {
    assert RunningIsReady(m) && Generations(m);
    assert a.Apply? ==> Applicable(m);
    hide Inv, Do, Shows, RunningIsReady, Generations, Enabled;
    if a.Apply? { ApplyShows(m, a.stored); } else { OthersShow(m, a); }
  }

  lemma {:induction false} RunShows(ms: seq<Machine>, acts: seq<Action>, k: nat)
    requires Run(ms, acts) && k < |ms|
    ensures Shows(ms[k])
  {
    hide Do, Enabled, Inv, Shows;
    if k > 0 {
      RunShows(ms, acts, k - 1);
      RunKeeps(ms, acts, k - 1);
      StepShows(ms[k - 1], acts[k - 1]);
    } else {
      StartShows(ms[0]);
    }
  }

  lemma StartShows(m: Machine)
    requires Start(m)
    ensures Shows(m)
  {
  }

  // ---------- since the process was installed ----------

  /** The process of step k is the one that step i has installed. */
  ghost predicate Since(ms: seq<Machine>, acts: seq<Action>, i: nat, k: nat) {
    && Run(ms, acts) && i < k < |ms| && acts[i].InstallStart?
    && forall t :: i < t <= k ==>
         && ms[t].inner.process.Some? && ms[t].inner.generation == ms[i].inner.generation + 1
         && ms[t].inner.port == acts[i].port
  }

  /** The gateway reports a problem. */
  predicate IsReport(m: Machine, a: Action) {
    a.Apply? && m.flight.Flight? && m.flight.phase.Checked? && m.flight.event.Problem?
  }

  function Reports(m: Machine, a: Action): Option<string> {
    if IsReport(m, a) then Some(m.flight.event.code) else None
  }

  /** The gateway says that it listens on this port. */
  predicate SaysReady(m: Machine, a: Action, port: nat) {
    a.Apply? && m.flight.Flight? && m.flight.event == Ready(port)
  }

  lemma Installs(m: Machine, port: Option<nat>)
    requires Inv(m) && Enabled(m, InstallStart(port)) && Do(m, InstallStart(port)).machine.inner.process.Some?
    ensures var v := Do(m, InstallStart(port)).machine.inner;
            && v.generation == m.inner.generation + 1 && v.port == port && v.lastError.None? && !v.status.Running?
  {
  }

  /** What changes while a process is there. */
  lemma Lasts(m: Machine, a: Action)
    requires Inv(m) && Enabled(m, a) && !a.InstallStart? && Do(m, a).machine.inner.process.Some?
    ensures var v := Do(m, a).machine.inner;
            && m.inner.process.Some? && v.generation == m.inner.generation && v.port == m.inner.port
            && v.lastError == (if Reports(m, a).Some? then Reports(m, a) else m.inner.lastError)
            && (v.status.Running? ==> v.status == m.inner.status || SaysReady(m, a, v.status.port))
  {
    OnlyInstallAdds(m, a);
    if a.Apply? { HandledLasts(m); }
  }

  lemma HandledLasts(m: Machine)
    requires RunningIsReady(m) && Applicable(m) && Handled(m).machine.inner.process.Some?
    ensures var v := Handled(m).machine.inner;
            && v.port == m.inner.port
            && v.lastError == (if Reports(m, Apply(true)).Some? then Reports(m, Apply(true)) else m.inner.lastError)
            && (v.status.Running? ==> v.status == m.inner.status || SaysReady(m, Apply(true), v.status.port))
  {
    EffectedReports(m);
    EffectedRuns(m);
    hide Effected, Reports, SaysReady, RunningIsReady;
  }

  lemma EffectedReports(m: Machine)
    requires Applicable(m)
    ensures var v := Effected(m).inner;
            && v.port == m.inner.port
            && v.lastError == (if Reports(m, Apply(true)).Some? then Reports(m, Apply(true)) else m.inner.lastError)
  {
  }

  lemma EffectedRuns(m: Machine)
    requires RunningIsReady(m) && Applicable(m)
    ensures var v := Effected(m).inner;
            v.status.Running? ==> v.status == m.inner.status || SaysReady(m, Apply(true), v.status.port)
  {
  }

  lemma {:induction false} Began(ms: seq<Machine>, acts: seq<Action>, k: nat) returns (i: nat)
    requires Run(ms, acts) && k < |ms| && ms[k].inner.process.Some?
    ensures Since(ms, acts, i, k)
  {
    hide Do, Enabled, Inv, Shows, Reports, SaysReady;
    if k > 0 {
      RunKeeps(ms, acts, k - 1);
      if acts[k - 1].InstallStart? {
        i := k - 1;
        Installs(ms[i], acts[i].port);
      } else {
        Lasts(ms[k - 1], acts[k - 1]);
        i := Began(ms, acts, k - 1);
      }
    }
  }

  /** The last problem that was reported since. */
  function LastReport(ms: seq<Machine>, acts: seq<Action>, i: nat, k: nat): Option<string>
    requires i < k <= |acts| <= |ms|
  {
    if k == i + 1 then None
    else if Reports(ms[k - 1], acts[k - 1]).Some? then Reports(ms[k - 1], acts[k - 1])
    else LastReport(ms, acts, i, k - 1)
  }

  lemma OneBefore(ms: seq<Machine>, acts: seq<Action>, i: nat, k: nat)
    requires Since(ms, acts, i, k) && k > i + 1
    ensures Since(ms, acts, i, k - 1) && !acts[k - 1].InstallStart?
    ensures Inv(ms[k - 1]) && Enabled(ms[k - 1], acts[k - 1]) && ms[k] == Do(ms[k - 1], acts[k - 1]).machine
    ensures ms[k].inner.process.Some?
  {
    RunKeeps(ms, acts, k - 1);
    hide Do;
    NoLaunchBeside(ms[k - 1], acts[k - 1]);
  }

  lemma NoLaunchBeside(m: Machine, a: Action)
    requires Inv(m) && Enabled(m, a) && m.inner.process.Some?
    ensures !a.InstallStart?
  {
  }

  lemma {:induction false} LastErrorIs(ms: seq<Machine>, acts: seq<Action>, i: nat, k: nat)
    requires Since(ms, acts, i, k)
    ensures ms[k].inner.lastError == LastReport(ms, acts, i, k)
  {
    if k == i + 1 {
      InstallsFirst(ms, acts, i);
    } else {
      OneBefore(ms, acts, i, k);
      hide Do, Enabled, Inv, Reports, SaysReady, Since;
      LastErrorIs(ms, acts, i, k - 1);
      Lasts(ms[k - 1], acts[k - 1]);
    }
  }

  lemma InstallsFirst(ms: seq<Machine>, acts: seq<Action>, i: nat)
    requires Since(ms, acts, i, i + 1)
    ensures ms[i + 1].inner.lastError.None? && !ms[i + 1].inner.status.Running?
  {
    RunKeeps(ms, acts, i);
    assert Enabled(ms[i], acts[i]) && ms[i + 1] == Do(ms[i], InstallStart(acts[i].port)).machine;
    hide Do, Inv, Enabled;
    Installs(ms[i], acts[i].port);
  }

  /** A gateway that is shown to run has said so itself, since it was installed, and on the port it was
      given, if it was given one. */
  lemma RunsOnItsPort(ms: seq<Machine>, acts: seq<Action>, k: nat) returns (i: nat, j: nat)
    requires Run(ms, acts) && k < |ms| && ms[k].inner.status.Running?
    ensures Since(ms, acts, i, k) && i < j < k && SaysReady(ms[j], acts[j], ms[k].inner.status.port)
    ensures ms[j].flight.gen == ms[k].inner.generation
    ensures acts[i].port.Some? ==> acts[i].port.value == ms[k].inner.status.port
  {
    RunShows(ms, acts, k);
    i := Began(ms, acts, k);
    j := SaidReady(ms, acts, i, k);
    RunKeeps(ms, acts, j);
  }

  lemma {:induction false} SaidReady(ms: seq<Machine>, acts: seq<Action>, i: nat, k: nat) returns (j: nat)
    requires Since(ms, acts, i, k) && ms[k].inner.status.Running?
    ensures i < j < k && SaysReady(ms[j], acts[j], ms[k].inner.status.port)
  {
    hide Do, Enabled, Inv, Reports, SaysReady;
    if k == i + 1 {
      InstallsFirst(ms, acts, i);
    } else {
      OneBefore(ms, acts, i, k);
      Lasts(ms[k - 1], acts[k - 1]);
      hide Since;
      if SaysReady(ms[k - 1], acts[k - 1], ms[k].inner.status.port) {
        j := k - 1;
      } else {
        j := SaidReady(ms, acts, i, k - 1);
      }
    }
  }

  /** What is shown when a process exits, by what was shown before: a stop is done, a failure stays, an
      expiry disables; else a gateway that ran has crashed, and one that did not get that far failed
      with the last problem it reported. An exit that nobody asked for leaves a cleanup to do. */
  lemma ExitShows(ms: seq<Machine>, acts: seq<Action>, k: nat) returns (i: nat)
    requires Run(ms, acts) && k < |acts| && acts[k].Exit?
    requires ms[k].inner.process.Some? && ms[k].inner.generation == acts[k].gen
    ensures Since(ms, acts, i, k) && ms[k + 1].inner.process.None?
    ensures ms[k + 1].inner.status ==
            match ms[k].inner.status
            case Stopping => Disabled
            case Failed(code) => Failed(code)
            case Running(_) => if ms[k].inner.expired then Disabled else Failed("companion-crashed")
            case _ =>
              if ms[k].inner.expired then Disabled
              else Failed(if LastReport(ms, acts, i, k).Some? then LastReport(ms, acts, i, k).value
                          else "companion-exited")
    ensures Do(ms[k], acts[k]).cleanup <==> !ms[k].inner.status.Stopping?
  {
    RunKeeps(ms, acts, k);
    RunShows(ms, acts, k);
    i := Began(ms, acts, k);
    LastErrorIs(ms, acts, i, k);
    assert Enabled(ms[k], acts[k]);
  }

  // ---------- how long a failure is shown ----------

  /** An event of the process before is applied whose change could not be written. */
  predicate FailsLate(m: Machine, a: Action) {
    a.Apply? && m.flight.Flight? && m.flight.phase.Written? && m.flight.phase.saved.Err?
  }

  lemma HandledKeepsFailure(m: Machine)
    requires Shows(m) && Applicable(m) && m.inner.process.None? && m.inner.status.Failed?
    ensures Handled(m).machine.inner.status
            == if FailsLate(m, Apply(true)) then Failed(m.flight.phase.saved.code) else m.inner.status
  {
  }

  lemma FailureStep(m: Machine, a: Action)
    requires Inv(m) && Shows(m) && Enabled(m, a) && m.inner.process.None? && m.inner.status.Failed?
    ensures var status := Do(m, a).machine.inner.status;
            if a.Begin? then status.Starting?
            else if a.Clear? || a.Stop? then status.Disabled?
            else if FailsLate(m, a) then status == Failed(m.flight.phase.saved.code)
            else status == m.inner.status
  {
    assert Generations(m);
    if a.Apply? { HandledKeepsFailure(m); }
  }

  /** The failure that ended a gateway is shown until something new starts, it is cleared or stopped, or
      a change that the gateway had reported fails to be written. */
  lemma FailureStays(ms: seq<Machine>, acts: seq<Action>, k: nat)
    requires Run(ms, acts) && k < |acts| && ms[k].inner.process.None? && ms[k].inner.status.Failed?
    ensures if acts[k].Begin? then ms[k + 1].inner.status.Starting?
            else if acts[k].Clear? || acts[k].Stop? then ms[k + 1].inner.status.Disabled?
            else if FailsLate(ms[k], acts[k]) then ms[k + 1].inner.status == Failed(ms[k].flight.phase.saved.code)
            else ms[k + 1].inner.status == ms[k].inner.status
  {
    RunKeeps(ms, acts, k);
    RunShows(ms, acts, k);
    hide Do, Enabled, Inv, Shows;
    FailureStep(ms[k], acts[k]);
  }

  // ---------- who is killed ----------

  /** The step halts the gateway that is installed. */
  predicate Halts(m: Machine, v: Machine) {
    m.inner.process.Some? && m.inner.terminal.None? && v.inner.terminal.Some? && v.inner.terminal.value.Failed?
  }

  lemma HandledKills(m: Machine)
    requires MayKill(m.inner) && Applicable(m)
    ensures Handled(m).kill <==> Halts(m, Handled(m).machine)
  {
  }

  lemma StepKills(m: Machine, a: Action)
    requires Generations(m) && MayKill(m.inner) && Enabled(m, a)
    ensures Do(m, a).kill <==> Halts(m, Do(m, a).machine)
  {
    if a.Apply? { HandledKills(m); }
  }

  /** What a step leaves others to do: a kill exactly as a gateway is halted that nobody has halted or
      told to stop, a cleanup exactly as one exits that was not told to stop, a shutdown frame for one
      that is stopped, the farewell of one whose policy has expired. */
  lemma TasksExactly(ms: seq<Machine>, acts: seq<Action>, k: nat)
    requires Run(ms, acts) && k < |acts|
    ensures Do(ms[k], acts[k]).kill <==> Halts(ms[k], ms[k + 1])
    ensures Do(ms[k], acts[k]).cleanup <==>
              && acts[k].Exit? && ms[k].inner.process.Some? && ms[k].inner.generation == acts[k].gen
              && !ms[k].inner.status.Stopping?
    ensures Do(ms[k], acts[k]).told <==> acts[k].Stop? && ms[k].inner.process.Some?
    ensures Do(ms[k], acts[k]).expiring <==> acts[k].Apply? && AboutToExpire(ms[k])
  {
    RunKeeps(ms, acts, k);
    RunShows(ms, acts, k);
    assert RunningIsReady(ms[k]) && Generations(ms[k]) && MayKill(ms[k].inner) && Shown(ms[k].inner, ms[k].launch);
    hide Do, Enabled, Inv, Halts, MayKill, Shown, Generations, RunningIsReady;
    StepKills(ms[k], acts[k]);
    StepTells(ms[k], acts[k]);
  }

  lemma StepTells(m: Machine, a: Action)
    requires RunningIsReady(m) && Generations(m) && Shown(m.inner, m.launch) && Enabled(m, a)
    ensures Do(m, a).cleanup <==>
              && a.Exit? && m.inner.process.Some? && m.inner.generation == a.gen && !m.inner.status.Stopping?
    ensures Do(m, a).told <==> a.Stop? && m.inner.process.Some?
    ensures Do(m, a).expiring <==> a.Apply? && AboutToExpire(m)
  {
  }

  // ---------- whether a start comes through ----------

  /** The start under way may still install its process. */
  predicate Open(m: Machine) {
    m.launch.Launch? && MayInstall(m.inner, m.launch.expected)
  }

  predicate CallsOff(m: Machine, a: Action) {
    a.Stop? || FailsLate(m, a)
  }

  lemma BeginOpens(m: Machine)
    requires Inv(m) && Enabled(m, Begin)
    ensures Open(Do(m, Begin).machine)
  {
  }

  lemma StaysOpen(m: Machine, a: Action)
    requires Inv(m) && Enabled(m, a) && m.launch.Launch? && !EndsLaunch(a)
    ensures Do(m, a).machine.launch.Launch?
    ensures Open(Do(m, a).machine) <==> Open(m) && !CallsOff(m, a)
  {
    assert Generations(m) && FlightShape(m);
    if a.Apply? { HandledStaysOpen(m); }
  }

  lemma HandledStaysOpen(m: Machine)
    requires Generations(m) && Applicable(m) && m.launch.Launch?
    ensures Handled(m).machine.launch == m.launch
    ensures MayInstall(Handled(m).machine.inner, m.launch.expected) <==>
              MayInstall(m.inner, m.launch.expected) && !FailsLate(m, Apply(true))
  {
  }

  lemma {:induction false} OpenExactly(ms: seq<Machine>, acts: seq<Action>, i: nat, j: nat)
    requires Run(ms, acts) && i < j < |ms| && acts[i].Begin?
    requires forall t :: i < t < j ==> !EndsLaunch(acts[t])
    ensures ms[j].launch.Launch?
    ensures Open(ms[j]) <==> forall t :: i < t < j ==> !CallsOff(ms[t], acts[t])
  {
    hide Do, Enabled, Inv, Open, CallsOff;
    if j == i + 1 {
      RunKeeps(ms, acts, i);
      BeginOpens(ms[i]);
      OpenHasLaunch(ms[j]);
    } else {
      OpenExactly(ms, acts, i, j - 1);
      RunKeeps(ms, acts, j - 1);
      StaysOpen(ms[j - 1], acts[j - 1]);
    }
  }

  lemma OpenHasLaunch(m: Machine)
    requires Open(m)
    ensures m.launch.Launch?
  {
  }

  /** A start installs its process, or reports why it failed, exactly if nobody stopped it meanwhile and
      no change that the process before had reported has failed to be written. */
  lemma StartsExactly(ms: seq<Machine>, acts: seq<Action>, i: nat, j: nat)
    requires Run(ms, acts) && i < j < |acts| && acts[i].Begin? && EndsLaunch(acts[j])
    requires forall t :: i < t < j ==> !EndsLaunch(acts[t])
    ensures var through := forall t :: i < t < j ==> !CallsOff(ms[t], acts[t]);
            if !through then ms[j + 1].inner == ms[j].inner
            else if acts[j].InstallStart? then ms[j + 1].inner.process.Some? && ms[j + 1].inner.status.Starting?
            else ms[j + 1].inner == ms[j].inner.(status := Failed(acts[j].why))
  {
    OpenExactly(ms, acts, i, j);
    assert Enabled(ms[j], acts[j]);
  }

  /** A gateway reports a phone and exits; the next start has begun by the time the phone could not be
      written, and comes to nothing though nobody stopped it. */
  lemma CalledOffRun(phone: Device, port: nat, why: string) returns (ms: seq<Machine>, acts: seq<Action>, i: nat)
    requires phone.id != "" && port > 0
    ensures Run(ms, acts) && i < |acts| && acts[i].Begin? && acts[|acts| - 1].InstallStart?
    ensures forall t :: i < t < |acts| ==> !acts[t].Stop?
    ensures ms[|acts|].inner.process.None? && ms[|acts|].inner.status == Failed(why)
  {
    var before, first := PhoneReported(phone, port);
    var gone := WithPhone(phone, port);
    var again := gone.(inner := Begun(gone.inner), launch := Launch(2, None, false, false, false));
    var read := again.(launch := Launch(2, Some([]), false, true, false));
    assert Intended(read) == Ok([phone]) by {
      var none: seq<Device> := [];
      assert IndexOf(none, phone.id) == 0 && none + [phone] == [phone];
    }
    var failed := read.(flight := Flight(1, Registered(phone), Written(Err(why), None)));
    var halted := failed.(inner := Halted(failed.inner, why).inner, flight := NoFlight);
    var last := halted.(launch := NoLaunch);
    CallsItOff(gone, again, read, failed, phone, port, why);
    Comes(failed, halted, last, port, why);
    hide Do, Enabled;
    var after := [gone, again, read, failed, halted, last];
    var second := [Begin, LoadList, Write(FailedOld(why)), Apply(true), InstallStart(Some(port))];
    assert Path(after, second);
    Joined(before, first, after, second);
    ms, acts, i := before + after[1..], first + second, |first|;
    assert ms[|acts|] == last;
  }

  lemma CallsItOff(gone: Machine, again: Machine, read: Machine, failed: Machine, phone: Device, port: nat, why: string)
    requires gone == WithPhone(phone, port) && phone.id != ""
    requires again == gone.(inner := Begun(gone.inner), launch := Launch(2, None, false, false, false))
    requires read == again.(launch := Launch(2, Some([]), false, true, false)) && Intended(read) == Ok([phone])
    requires failed == read.(flight := Flight(1, Registered(phone), Written(Err(why), None)))
    ensures Enabled(gone, Begin) && Do(gone, Begin).machine == again
    ensures Enabled(again, LoadList) && Do(again, LoadList).machine == read
    ensures Enabled(read, Write(FailedOld(why))) && Do(read, Write(FailedOld(why))).machine == failed
  {
    assert Intended(again) == Ok([phone]);
  }

  lemma Comes(failed: Machine, halted: Machine, last: Machine, port: nat, why: string)
    requires failed.flight.Flight? && failed.flight.event.Registered? && failed.flight.phase == Written(Err(why), None)
    requires failed.launch.Launch? && failed.launch.list.Some? && failed.inner.pending.None?
    requires halted == failed.(inner := Halted(failed.inner, why).inner, flight := NoFlight)
    requires last == halted.(launch := NoLaunch)
    ensures Enabled(failed, Apply(true)) && Do(failed, Apply(true)).machine == halted
    ensures Enabled(halted, InstallStart(Some(port))) && Do(halted, InstallStart(Some(port))).machine == last
  {
  }
}
