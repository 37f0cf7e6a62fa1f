/** What the callers of admin commands are told, over whole runs of the gateway supervisor
    (`request` in src-tauri/src/companion_service.rs). */
module CommandAnswers {
  import opened Wrappers
  import opened Devices
  import opened Gateway
  import opened GatewayRuns

  // ---------- where an answer comes from ----------

  /** The caller asked while no gateway was running. */
  predicate TurnedAway(m: Machine, a: Action, id: nat, answer: Result<Event>) {
    a.Ask? && id == m.asked && !m.inner.status.Running? && answer == Err("companion-not-running")
  }

  /** The caller's own deadline passed. */
  predicate GaveUp(m: Machine, a: Action, id: nat, answer: Result<Event>) {
    a.GiveUp? && m.turn.Elapsed? && m.turn.id == id && answer == Err("companion-timeout")
  }

  /** What the event in hand tells the pending command. */
  predicate EventTells(i: Inner, flight: Flight, answer: Result<Event>)
    requires i.pending.Some? && flight.Flight?
  {
    match flight.phase
    case Written(Err(code), _) => answer == Err(code)
    case Written(Ok(_), _) => answer == Ok(flight.event) && Answers(flight.event, i.pending.value.want)
    case Peeked(_) =>
      answer == Ok(flight.event) && i.pending.value.want.Decision? && Answers(flight.event, i.pending.value.want)
    case Checked =>
      match flight.event
      case Problem(code) => answer == Err(code)
      case Ready(port) =>
        i.terminal.None? && i.port.Some? && i.port.value != port && answer == Err("companion-port-mismatch")
      case _ => answer == Ok(flight.event) && Answers(flight.event, i.pending.value.want)
  }

  /** The critical section of the step answers the pending command `id`. */
  predicate Replied(m: Machine, a: Action, id: nat, answer: Result<Event>) {
    && m.inner.pending.Some? && m.inner.pending.value.id == id
    && match a
       case Apply(_) => m.flight.Flight? && EventTells(m.inner, m.flight, answer)
       case Exit(gen) => gen == m.inner.generation && answer == Err("companion-exited")
       case FailNow(why) =>
         (m.inner.status.Starting? || m.inner.status.Running?) && answer == Err(why)
       case Watch(gen) =>
         gen == m.inner.generation && !m.inner.ready && m.inner.terminal.None?
         && answer == Err("companion-start-timeout")
       case _ => false
  }

  /** The step decides what `id` is told: it is turned away, gives up, or is still waiting and gets
      a reply. */
  predicate Decides(m: Machine, a: Action, id: nat, answer: Result<Event>) {
    TurnedAway(m, a, id, answer) || GaveUp(m, a, id, answer) || (m.turn.Waiting? && Replied(m, a, id, answer))
  }

  predicate Got(m: Machine, id: nat, answer: Result<Event>) {
    m.turn.Waiting? && m.turn.id == id && m.turn.got == Some(answer)
  }

  predicate Answered(m: Machine, id: nat, answer: Result<Event>) {
    id in m.answers && m.answers[id] == answer
  }

  /** The caller has the answer, or is about to collect it. */
  predicate Has(m: Machine, id: nat, answer: Result<Event>) {
    Got(m, id, answer) || Answered(m, id, answer)
  }

  /** A reply is for the pending command, whose caller has the turn. */
  lemma DeliveredHas(m: Machine, v: Machine, e: Effect, id: nat, answer: Result<Event>)
    requires PendingIsTurn(m) && v.turn == Delivered(m.turn, e.reply) && v.answers == m.answers
    requires e.reply.Some? ==> m.inner.pending.Some? && e.reply.value.id == m.inner.pending.value.id
    ensures Has(v, id, answer) <==>
              Has(m, id, answer) || (m.turn.Waiting? && e.reply == Some(Reply(id, answer)))
  {
  }

  lemma HandledDelivers(m: Machine)
    requires Applicable(m)
    ensures Handled(m).machine.turn == Delivered(m.turn, Effected(m).reply)
    ensures Handled(m).machine.answers == m.answers
  {
  }

  lemma EffectedTells(m: Machine, stored: bool, id: nat, answer: Result<Event>)
    requires DeferralIsPending(m) && FlightShape(m) && PendingIsTurn(m) && Applicable(m)
    ensures Effected(m).reply == Some(Reply(id, answer)) <==> Replied(m, Apply(stored), id, answer)
  {
  }

  lemma ApplyDecides(m: Machine, stored: bool, id: nat, answer: Result<Event>)
    requires Inv(m) && Applicable(m)
    ensures Has(DoApply(m, stored).machine, id, answer) <==>
              Has(m, id, answer) || Decides(m, Apply(stored), id, answer)
  {
    EffectedTells(m, stored, id, answer);
    HandledDelivers(m);
    hide Has, Handled, Replied;
    DeliveredHas(m, DoApply(m, stored).machine, Effected(m), id, answer);
  }

  lemma SectionDecides(m: Machine, a: Action, id: nat, answer: Result<Event>)
    requires Inv(m) && Enabled(m, a) && (a.Watch? || a.FailNow? || a.Exit?)
    ensures Has(Do(m, a).machine, id, answer) <==> Has(m, id, answer) || Decides(m, a, id, answer)
  {
    var e := match a
             case Watch(gen) => Overdue(m.inner, gen)
             case FailNow(why) => FailedFromOutside(m.inner, why)
             case Exit(gen) => if m.inner.generation == gen then Exited(m.inner) else Effect(m.inner, false, None);
    DeliveredHas(m, Do(m, a).machine, e, id, answer);
  }

  lemma QueueDecides(m: Machine, a: Action, id: nat, answer: Result<Event>)
    requires Inv(m) && Enabled(m, a) && (a.Ask? || a.Elapse? || a.GiveUp? || a.Collect?)
    ensures Has(Do(m, a).machine, id, answer) <==> Has(m, id, answer) || Decides(m, a, id, answer)
  {
  }

  predicate Elsewhere(a: Action) {
    !a.Apply? && !a.Watch? && !a.FailNow? && !a.Exit? && !a.Ask? && !a.Elapse? && !a.GiveUp? && !a.Collect?
  }

  lemma OthersDecideNothing(m: Machine, a: Action, id: nat, answer: Result<Event>)
    requires Enabled(m, a) && Elsewhere(a)
    ensures Has(Do(m, a).machine, id, answer) <==> Has(m, id, answer)
    ensures !Decides(m, a, id, answer)
  {
  }

  lemma StepDecides(m: Machine, a: Action, id: nat, answer: Result<Event>)
    requires Inv(m) && Enabled(m, a)
    ensures Has(Do(m, a).machine, id, answer) <==> Has(m, id, answer) || Decides(m, a, id, answer)
  {
    assert a.Apply? ==> Do(m, a) == DoApply(m, a.stored);
    hide Do, Inv, Has, Decides;
    if a.Apply? { ApplyDecides(m, a.stored, id, answer); }
    else if a.Watch? || a.FailNow? || a.Exit? { SectionDecides(m, a, id, answer); }
    else if Elsewhere(a) { OthersDecideNothing(m, a, id, answer); }
    else { QueueDecides(m, a, id, answer); }
  }

  lemma NobodyHas(m: Machine, id: nat, answer: Result<Event>)
    requires Start(m)
    ensures !Has(m, id, answer)
  {
  }

  lemma {:induction false} HasExactly(ms: seq<Machine>, acts: seq<Action>, k: nat, id: nat, answer: Result<Event>)
    requires Run(ms, acts) && k < |ms|
    ensures Has(ms[k], id, answer) <==> exists i :: 0 <= i < k && Decides(ms[i], acts[i], id, answer)
  {
    hide Do, Enabled, Inv, Decides, Has;
    if k > 0 {
      HasExactly(ms, acts, k - 1, id, answer);
      RunKeeps(ms, acts, k - 1);
      StepDecides(ms[k - 1], acts[k - 1], id, answer);
    } else {
      NobodyHas(ms[0], id, answer);
    }
  }

  /** What a caller is told that has its answer: that no gateway runs, if none ran as it asked; that
      its time is up, if it gave up; and else the reply that a critical section gave while it waited. */
  lemma AnswersExactly(ms: seq<Machine>, acts: seq<Action>, k: nat, id: nat, answer: Result<Event>)
    requires Run(ms, acts) && k < |ms| && id in ms[k].answers
    ensures ms[k].answers[id] == answer <==> exists i :: 0 <= i < k && Decides(ms[i], acts[i], id, answer)
  {
    RunKeeps(ms, acts, k);
    HasExactly(ms, acts, k, id, answer);
    hide Do, Enabled, Decides;
  }

  // ---------- what success means ----------

  /** The command that `id` has asked. */
  ghost predicate Asked(ms: seq<Machine>, acts: seq<Action>, i: nat, id: nat, want: Want) {
    Run(ms, acts) && i < |acts| && acts[i] == Ask(want) && ms[i].asked == id
  }

  /** Whoever has the turn as `id` has it with that command. */
  predicate Tracked(m: Machine, id: nat, want: Want) {
    id < m.asked && (!m.turn.Free? && m.turn.id == id ==> m.turn.want == want)
  }

  lemma AskTracks(m: Machine, want: Want)
    requires Inv(m) && Enabled(m, Ask(want))
    ensures Tracked(Do(m, Ask(want)).machine, m.asked, want)
  {
  }

  lemma StepTracks(m: Machine, a: Action, id: nat, want: Want)
    requires Tracked(m, id, want) && Enabled(m, a)
    ensures Tracked(Do(m, a).machine, id, want)
  {
  }

  lemma {:induction false} StaysTracked(ms: seq<Machine>, acts: seq<Action>, i: nat, k: nat, id: nat, want: Want)
    requires Asked(ms, acts, i, id, want) && i < k < |ms|
    ensures Tracked(ms[k], id, want)
  {
    hide Do, Enabled, Inv, Tracked;
    if k > i + 1 {
      StaysTracked(ms, acts, i, k - 1, id, want);
      StepTracks(ms[k - 1], acts[k - 1], id, want);
    } else {
      RunKeeps(ms, acts, i);
      AskTracks(ms[i], want);
    }
  }

  /** Nothing is decided for a caller before it asks. */
  lemma {:induction false} AskedGrows(ms: seq<Machine>, acts: seq<Action>, i: nat, k: nat)
    requires Run(ms, acts) && i <= k < |ms|
    ensures ms[i].asked <= ms[k].asked
  {
    hide Enabled;
    if i < k { AskedGrows(ms, acts, i, k - 1); }
  }

  lemma DecidesTheAsked(m: Machine, a: Action, id: nat, answer: Result<Event>)
    requires Inv(m) && Decides(m, a, id, answer) && answer.Ok?
    ensures id < m.asked && a.Apply? && m.flight.Flight? && answer == Ok(m.flight.event)
    ensures m.turn.Waiting? && m.turn.id == id && Answers(m.flight.event, m.turn.want)
  {
  }

  lemma TellsNow(m: Machine, stored: bool, id: nat, answer: Result<Event>)
    requires Inv(m) && Applicable(m) && Decides(m, Apply(stored), id, answer) && answer.Ok?
    ensures !Told(m) && Told(DoApply(m, stored).machine)
    ensures DoApply(m, stored).machine.turn.want == m.turn.want && DoApply(m, stored).machine.disk == m.disk
  {
    EffectedTells(m, stored, id, answer);
    HandledDelivers(m);
    hide Handled, Effected, Replied;
    HandledLeavesDisk(m);
  }

  lemma HandledLeavesDisk(m: Machine)
    requires Applicable(m)
    ensures Handled(m).machine.disk == m.disk
  {
  }

  /** A command that is answered with success was answered by the event in hand at a step since. */
  lemma SuccessIsAnEvent(ms: seq<Machine>, acts: seq<Action>, i: nat, k: nat, id: nat, want: Want) returns (j: nat)
    requires Asked(ms, acts, i, id, want) && k < |ms| && id in ms[k].answers && ms[k].answers[id].Ok?
    ensures i < j < k && acts[j].Apply? && ms[j].flight.Flight? && ms[k].answers[id] == Ok(ms[j].flight.event)
    ensures Answers(ms[j].flight.event, want) && ms[j].turn.Waiting? && ms[j].turn.want == want
    ensures Decides(ms[j], acts[j], id, ms[k].answers[id])
  {
    var answer := ms[k].answers[id];
    AnswersExactly(ms, acts, k, id, answer);
    j :| 0 <= j < k && Decides(ms[j], acts[j], id, answer);
    RunKeeps(ms, acts, j);
    hide Do, Enabled, Inv;
    DecidesTheAsked(ms[j], acts[j], id, answer);
    if j <= i { AskedGrows(ms, acts, j, i); }
    StaysTracked(ms, acts, i, j, id, want);
  }

  /** A caller that is told its revoke, update or unlock is done: the file held it when the reply
      was given. */
  lemma DoneIsOnDisk(ms: seq<Machine>, acts: seq<Action>, i: nat, k: nat, id: nat, frame: Frame) returns (j: nat)
    requires Asked(ms, acts, i, id, Change(frame)) && k < |ms| && id in ms[k].answers && ms[k].answers[id].Ok?
    ensures i < j < k && acts[j].Apply? && ms[j].flight.Flight? && ms[k].answers[id] == Ok(ms[j].flight.event)
    ensures Achieved(frame, ms[j].disk)
  {
    j := SuccessIsAnEvent(ms, acts, i, k, id, Change(frame));
    RunKeeps(ms, acts, j);
    assert Enabled(ms[j], acts[j]) && ms[j + 1] == DoApply(ms[j], acts[j].stored).machine;
    hide Do, Inv, Decides, Achieved;
    TellsNow(ms[j], acts[j].stored, id, ms[k].answers[id]);
    ToldIsOnDisk(ms, acts, j);
  }

  /** What success says: the pairing was made, or ended as was decided, or the device is gone or as
      the command wants it; or the gateway has put the decision or the change off until its phone is
      there. */
  lemma SuccessMeans(ms: seq<Machine>, acts: seq<Action>, i: nat, k: nat, id: nat, want: Want)
    requires Asked(ms, acts, i, id, want) && k < |ms| && id in ms[k].answers && ms[k].answers[id].Ok?
    ensures var event := ms[k].answers[id].value;
            match want
            case Pairing => event.PairingCreated?
            case Decision(pairing, verdict) =>
              || event == Deferred(pairing, DecisionKind(verdict))
              || event == PairingState(pairing, if verdict.Approve? then Approved
                                                else if verdict.Reject? then Rejected else Cancelled)
            case Change(Revoke(device)) => event == Revoked(Some(device)) || event == Deferred(device, RevokeKind)
            case Change(Unlock(device)) =>
              || (event.Updated? && event.device.id == device && !event.device.locked)
              || event == Deferred(device, UnlockKind)
            case Change(Update(device, name, grants)) =>
              || (event.Updated? && event.device.id == device
                  && (name.Some? ==> event.device.name == name.value)
                  && (grants.Some? ==>
                        && event.device.grants.full == grants.value.full
                        && event.device.grants.until.Some? == grants.value.until.Some?
                        && Rank(event.device.grants) == Rank(grants.value)))
              || event == Deferred(device, UpdateKind)
  {
    var j := SuccessIsAnEvent(ms, acts, i, k, id, want);
    hide Decides;
  }

  // ---------- a change that could not be written ----------

  /** The event in hand could not be stored. */
  predicate Unsaved(m: Machine, code: string) {
    m.flight.Flight? && m.flight.phase.Written? && m.flight.phase.saved == Err(code)
  }

  /** Why this write has failed, if it has. */
  function Failure(m: Machine, outcome: WriteOutcome): Option<string>
    requires Writing(m)
  {
    if Intended(m).Err? then Some(Intended(m).code)
    else if outcome.Saved? then None
    else Some(outcome.why)
  }

  lemma UnsavedMarks(m: Machine, outcome: WriteOutcome)
    requires Writing(m) && Failure(m, outcome).Some?
    ensures Unsaved(DoWrite(m, outcome), Failure(m, outcome).value)
  {
  }

  lemma UnsavedStays(m: Machine, a: Action, code: string)
    requires Enabled(m, a) && !a.Apply? && Unsaved(m, code)
    ensures Unsaved(Do(m, a).machine, code)
  {
  }

  lemma {:induction false} StillUnsaved(ms: seq<Machine>, acts: seq<Action>, i: nat, j: nat, code: string)
    requires Run(ms, acts) && i < j < |ms|
    requires acts[i].Write? && Writing(ms[i]) && Failure(ms[i], acts[i].outcome) == Some(code)
    requires forall t :: i < t < j ==> !acts[t].Apply?
    ensures Unsaved(ms[j], code)
  {
    if j > i + 1 {
      hide Do, Enabled, Failure, Unsaved;
      StillUnsaved(ms, acts, i, j - 1, code);
      UnsavedStays(ms[j - 1], acts[j - 1], code);
    } else {
      assert ms[i + 1] == DoWrite(ms[i], acts[i].outcome);
      hide Do, Enabled, Failure, Unsaved;
      UnsavedMarks(ms[i], acts[i].outcome);
    }
  }

  lemma UnsavedTells(m: Machine, stored: bool, code: string)
    requires Inv(m) && Applicable(m) && Unsaved(m, code)
    ensures var v := DoApply(m, stored).machine;
            && v.inner.status == Failed(code) && v.inner.terminal == Some(Failed(code)) && v.inner.pending.None?
    ensures m.inner.pending.Some? ==> Replied(m, Apply(stored), m.inner.pending.value.id, Err(code))
  {
  }

  /** A device change that could not be written halts the gateway, and a caller that waits for it is
      told why. */
  lemma UnsavedHalts(ms: seq<Machine>, acts: seq<Action>, i: nat, j: nat, k: nat, code: string)
    requires Run(ms, acts) && i < j < k < |ms|
    requires acts[i].Write? && Writing(ms[i]) && Failure(ms[i], acts[i].outcome) == Some(code)
    requires acts[j].Apply? && forall t :: i < t < j ==> !acts[t].Apply?
    ensures ms[j + 1].inner.status == Failed(code) && ms[j + 1].inner.terminal == Some(Failed(code))
    ensures ms[j].inner.pending.Some? && ms[j].turn.Waiting? && ms[j].turn.id in ms[k].answers ==>
              ms[k].answers[ms[j].turn.id] == Err(code)
  {
    StillUnsaved(ms, acts, i, j, code);
    RunKeeps(ms, acts, j);
    assert Enabled(ms[j], acts[j]) && ms[j + 1] == DoApply(ms[j], acts[j].stored).machine;
    UnsavedTells(ms[j], acts[j].stored, code);
    if ms[j].inner.pending.Some? && ms[j].turn.Waiting? && ms[j].turn.id in ms[k].answers {
      var id := ms[j].turn.id;
      assert Decides(ms[j], acts[j], id, Err(code)) by { assert PendingIsTurn(ms[j]); }
      hide Do, Enabled, Inv, Decides;
      AnswersExactly(ms, acts, k, id, Err(code));
    }
  }
}
