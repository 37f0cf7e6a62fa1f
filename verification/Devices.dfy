/** The paired devices the desktop keeps in `devices.json`
    (src-tauri/src/companion_store.rs). */
module Devices {
  import opened Wrappers

  /** A timestamp as text, with the instant RFC 3339 parsing gives it, if any. */
  datatype Timestamp = Timestamp(text: string, at: Option<int>)

  datatype Grants = Grants(until: Option<Timestamp>, full: bool)

  /** `rest` stands for the fields the desktop stores without looking at them. */
  datatype Device = Device(id: string, name: string, grants: Grants, locked: bool, rest: string)

  /** The device commands of the desktop. */
  datatype Frame =
    | Revoke(id: string)
    | Update(id: string, name: Option<string>, grants: Option<Grants>)
    | Unlock(id: string)

  /** A write either works, or fails with the old or the new file in place:
      `write_json` can still fail at the directory sync, after its rename. */
  datatype WriteOutcome = Saved | FailedOld(why: string) | FailedNew(why: string)

  ghost predicate UniqueIds(list: seq<Device>) {
    forall i, j :: 0 <= i < j < |list| ==> list[i].id != list[j].id
  }

  /** An empty id names no device (`device_id`). */
  predicate Named(device: Device, id: string) {
    device.id != "" && device.id == id
  }

  /** Position of the first device with this id, or `|list|`. */
  function IndexOf(list: seq<Device>, id: string): (k: nat)
    ensures k <= |list|
    ensures k < |list| ==> Named(list[k], id)
    ensures forall j :: 0 <= j < k ==> !Named(list[j], id)
  {
    if list == [] then 0
    else if Named(list[0], id) then 0
    else 1 + IndexOf(list[1..], id)
  }

  function Lookup(list: seq<Device>, id: string): Option<Device> {
    var k := IndexOf(list, id);
    if k < |list| then Some(list[k]) else None
  }

  function Without(list: seq<Device>, id: string): seq<Device> {
    if list == [] then []
    else if Named(list[0], id) then Without(list[1..], id)
    else [list[0]] + Without(list[1..], id)
  }

  /** `Devices::upsert` before its write: replaced in place, or appended. */
  function Upserted(list: seq<Device>, device: Device): Result<seq<Device>> {
    if device.id == "" then Err("companion-device-invalid")
    else
      var k := IndexOf(list, device.id);
      Ok(if k < |list| then list[k := device] else list + [device])
  }

  /** How far a control grant reaches; `None`, for no grant, is below them all. */
  function Rank(grants: Grants): Option<int> {
    match grants.until
    case None => None
    case Some(until) => until.at
  }

  predicate Earlier(a: Option<int>, b: Option<int>) {
    match (a, b)
    case (None, Some(_)) => true
    case (Some(x), Some(y)) => x < y
    case _ => false
  }

  /** A grant change that tightens in one respect and widens in another. */
  predicate Mixed(old_: Grants, new_: Grants) {
    && (Earlier(Rank(new_), Rank(old_)) || (!new_.full && old_.full))
    && (Earlier(Rank(old_), Rank(new_)) || (new_.full && !old_.full))
  }

  /** `Devices::apply` before its write. */
  function Applied(list: seq<Device>, frame: Frame): Result<seq<Device>> {
    match frame
    case Revoke(id) => Ok(Without(list, id))
    case Unlock(id) =>
      (match Lookup(list, id)
       case None => Err("companion-device-unknown")
       case Some(device) => Upserted(list, device.(locked := false)))
    case Update(id, name, grants) =>
      (match Lookup(list, id)
       case None => Err("companion-device-unknown")
       case Some(device) =>
         if name.None? && grants.None? then Err("companion-device-invalid")
         else if grants.Some? && Mixed(device.grants, grants.value) then Err("companion-grants-mixed")
         else Upserted(list, Changed(device, name, grants)))
  }

  function Changed(device: Device, name: Option<string>, grants: Option<Grants>): Device {
    var labelled := if name.Some? then device.(name := name.value) else device;
    if grants.Some? then labelled.(grants := grants.value) else labelled
  }

  /** Whether a reported device carries the command's change
      (`reflects` in src-tauri/src/companion_service.rs): `until` is compared as an instant. */
  predicate Reflects(frame: Frame, device: Device) {
    match frame
    case Revoke(_) => false
    case Unlock(_) => !device.locked
    case Update(_, name, grants) =>
      && (name.None? || device.name == name.value)
      && (grants.None?
          || (device.grants.full == grants.value.full && SameUntil(device.grants.until, grants.value.until)))
  }

  predicate SameUntil(a: Option<Timestamp>, b: Option<Timestamp>) {
    match (a, b)
    case (None, None) => true
    case (Some(x), Some(y)) => x.at == y.at
    case _ => false
  }

  /** What a device command asks of the stored list. */
  ghost predicate Achieved(frame: Frame, list: seq<Device>) {
    match frame
    case Revoke(id) => Lookup(list, id) == None
    case _ => Lookup(list, frame.id).Some? && Reflects(frame, Lookup(list, frame.id).value)
  }

  /** What a command leaves of the device it is for: an update sets what it names, an unlock the lock,
      and nothing else changes. */
  predicate Edited(frame: Frame, was: Device, now: Device) {
    match frame
    case Revoke(_) => false
    case Unlock(_) => now == Device(was.id, was.name, was.grants, false, was.rest)
    case Update(_, name, grants) =>
      && now.id == was.id && now.locked == was.locked && now.rest == was.rest
      && now.name == (if name.Some? then name.value else was.name)
      && now.grants == (if grants.Some? then grants.value else was.grants)
  }

  // ---------- what the list operations mean ----------

  lemma {:induction false} WithoutMeans(list: seq<Device>, id: string)
    ensures Lookup(Without(list, id), id) == None
    ensures forall other :: other != id ==> Lookup(Without(list, id), other) == Lookup(list, other)
    ensures forall k :: 0 <= k < |Without(list, id)| ==> Without(list, id)[k] in list
    ensures UniqueIds(list) ==> UniqueIds(Without(list, id))
  {
    if list != [] {
      WithoutMeans(list[1..], id);
      assert list == [list[0]] + list[1..];
      forall other | other != id
        ensures Lookup(Without(list, id), other) == Lookup(list, other)
      {
        LookupHead(list[0], list[1..], other);
        LookupHead(list[0], Without(list[1..], id), other);
      }
      LookupHead(list[0], Without(list[1..], id), id);
    }
  }

  lemma LookupHead(head: Device, rest: seq<Device>, id: string)
    ensures Lookup([head] + rest, id) == if Named(head, id) then Some(head) else Lookup(rest, id)
  {
    assert ([head] + rest)[1..] == rest;
  }

  lemma UpsertMeans(list: seq<Device>, device: Device)
    requires device.id != ""
    ensures Upserted(list, device).Ok?
    ensures Lookup(Upserted(list, device).value, device.id) == Some(device)
    ensures forall other :: other != device.id ==> Lookup(Upserted(list, device).value, other) == Lookup(list, other)
    ensures UniqueIds(list) ==> UniqueIds(Upserted(list, device).value)
  {
    var next := Upserted(list, device).value;
    FirstIs(next, device.id, IndexOf(list, device.id));
    forall other | other != device.id
      ensures Lookup(next, other) == Lookup(list, other)
    {
      OthersKept(list, device, other);
    }
    assert UniqueIds(list) ==> UniqueIds(next) by {
      if UniqueIds(list) {
        var k := IndexOf(list, device.id);
        forall i, j | 0 <= i < j < |next| ensures next[i].id != next[j].id {
          assert i < k || k < |list|;
          assert k == |list| && j == k ==> !Named(list[i], device.id);
        }
      }
    }
  }

  lemma OthersKept(list: seq<Device>, device: Device, other: string)
    requires device.id != "" && other != device.id
    ensures Lookup(Upserted(list, device).value, other) == Lookup(list, other)
  {
    var next := Upserted(list, device).value;
    var j := IndexOf(list, other);
    if j < |list| { FirstIs(next, other, j); } else { NoneIs(next, other); }
  }

  lemma FirstIs(list: seq<Device>, id: string, k: nat)
    requires k < |list| && Named(list[k], id)
    requires forall j :: 0 <= j < k ==> !Named(list[j], id)
    ensures IndexOf(list, id) == k
  {
  }

  lemma NoneIs(list: seq<Device>, id: string)
    requires forall j :: 0 <= j < |list| ==> !Named(list[j], id)
    ensures IndexOf(list, id) == |list|
  {
  }

  /** A command that applies does what it asks, to that device alone, and keeps ids unique. */
  lemma ApplyAchieves(list: seq<Device>, frame: Frame)
    requires Applied(list, frame).Ok?
    ensures Achieved(frame, Applied(list, frame).value)
    ensures forall other :: other != frame.id ==> Lookup(Applied(list, frame).value, other) == Lookup(list, other)
    ensures UniqueIds(list) ==> UniqueIds(Applied(list, frame).value)
    ensures frame.Update? && frame.grants.Some? ==>
              && Lookup(list, frame.id).Some?
              && !Mixed(Lookup(list, frame.id).value.grants, frame.grants.value)
    ensures !frame.Revoke? ==>
              && Lookup(list, frame.id).Some? && Lookup(Applied(list, frame).value, frame.id).Some?
              && Edited(frame, Lookup(list, frame.id).value, Lookup(Applied(list, frame).value, frame.id).value)
  {
    match frame
    case Revoke(id) => WithoutMeans(list, id);
    case Unlock(id) => UpsertMeans(list, Lookup(list, id).value.(locked := false));
    case Update(id, name, grants) => UpsertMeans(list, Changed(Lookup(list, id).value, name, grants));
  }

  /** Whether a grant allows control at an instant. */
  predicate Allows(grants: Grants, now: int) {
    Rank(grants).Some? && now < Rank(grants).value
  }

  /** One grant allows whatever the other does. */
  ghost predicate Covers(wide: Grants, narrow: Grants) {
    (narrow.full ==> wide.full) && forall now :: Allows(narrow, now) ==> Allows(wide, now)
  }

  /** A change of grants is refused exactly if neither the old nor the new covers the other. */
  lemma MixedExactly(was: Grants, now: Grants)
    ensures Mixed(was, now) <==> !Covers(was, now) && !Covers(now, was)
  {
    EarlierExactly(was, now);
    EarlierExactly(now, was);
  }

  /** Which commands are accepted: any revoke; of the others those for a stored device, if an update
      changes something and its grants cover the old ones or are covered by them. */
  lemma AcceptedExactly(list: seq<Device>, frame: Frame)
    ensures Applied(list, frame).Ok? <==>
            match frame
            case Revoke(_) => true
            case Unlock(id) => Lookup(list, id).Some?
            case Update(id, name, grants) =>
              && Lookup(list, id).Some? && (name.Some? || grants.Some?)
              && (grants.Some? ==>
                    var was := Lookup(list, id).value.grants; Covers(was, grants.value) || Covers(grants.value, was))
  {
    match frame
    case Revoke(_) =>
    case Unlock(id) => if Lookup(list, id).Some? { UpsertMeans(list, Lookup(list, id).value.(locked := false)); }
    case Update(id, name, grants) =>
      if Lookup(list, id).Some? {
        UpsertMeans(list, Changed(Lookup(list, id).value, name, grants));
        if grants.Some? { MixedExactly(Lookup(list, id).value.grants, grants.value); }
      }
  }

  lemma EarlierExactly(a: Grants, b: Grants)
    ensures Earlier(Rank(a), Rank(b)) <==> exists now :: Allows(b, now) && !Allows(a, now)
  {
    if Earlier(Rank(a), Rank(b)) { assert Allows(b, Rank(b).value - 1) && !Allows(a, Rank(b).value - 1); }
  }

  // ---------- any sequence of changes ----------

  datatype Change = Put(device: Device) | Drop(id: string) | Edit(frame: Frame)

  function Id(change: Change): string {
    match change
    case Put(device) => device.id
    case Drop(id) => id
    case Edit(frame) => frame.id
  }

  /** One change; one that is refused leaves the list alone. */
  function Step(list: seq<Device>, change: Change): seq<Device> {
    var r := match change
             case Put(device) => Upserted(list, device)
             case Drop(id) => Ok(Without(list, id))
             case Edit(frame) => Applied(list, frame);
    if r.Ok? then r.value else list
  }

  function Replay(list: seq<Device>, changes: seq<Change>): seq<Device>
    decreases |changes|
  {
    if changes == [] then list else Replay(Step(list, changes[0]), changes[1..])
  }

  function Fated(current: Option<Device>, id: string, change: Change): Option<Device> {
    if Id(change) != id || id == "" then current
    else
      match change
      case Put(device) => Some(device)
      case Drop(_) => None
      case Edit(Revoke(_)) => None
      case Edit(Unlock(_)) =>
        if current.None? then None
        else Some(Device(id, current.value.name, current.value.grants, false, current.value.rest))
      case Edit(Update(_, name, grants)) =>
        if current.None? || (name.None? && grants.None?)
           || (grants.Some? && Mixed(current.value.grants, grants.value)) then current
        else
          Some(Device(current.value.id,
                      if name.Some? then name.value else current.value.name,
                      if grants.Some? then grants.value else current.value.grants,
                      current.value.locked,
                      current.value.rest))
  }

  /** Independent reference: the fate of one device, ignoring all the others. */
  function Fate(current: Option<Device>, id: string, changes: seq<Change>): Option<Device>
    decreases |changes|
  {
    if changes == [] then current else Fate(Fated(current, id, changes[0]), id, changes[1..])
  }

  lemma PutIsPerDevice(list: seq<Device>, device: Device, id: string)
    requires UniqueIds(list) && id != ""
    ensures UniqueIds(Step(list, Put(device)))
    ensures Lookup(Step(list, Put(device)), id) == if device.id == id then Some(device) else Lookup(list, id)
  {
    if device.id != "" { UpsertMeans(list, device); }
  }

  lemma UpdateIsPerDevice(list: seq<Device>, frame: Frame, id: string)
    requires UniqueIds(list) && id != "" && frame.Update?
    ensures UniqueIds(Step(list, Edit(frame)))
    ensures Lookup(Step(list, Edit(frame)), id) == Fated(Lookup(list, id), id, Edit(frame))
  {
    if Applied(list, frame).Ok? {
      UpsertMeans(list, Changed(Lookup(list, frame.id).value, frame.name, frame.grants));
    }
  }

  lemma StepIsPerDevice(list: seq<Device>, change: Change, id: string)
    requires UniqueIds(list) && id != ""
    ensures UniqueIds(Step(list, change))
    ensures Lookup(Step(list, change), id) == Fated(Lookup(list, id), id, change)
  {
    match change {
      case Put(device) => PutIsPerDevice(list, device, id);
      case Drop(gone) => WithoutMeans(list, gone);
      case Edit(Revoke(gone)) => WithoutMeans(list, gone);
      case Edit(Unlock(one)) =>
        if Lookup(list, one).Some? { UpsertMeans(list, Lookup(list, one).value.(locked := false)); }
      case Edit(Update(_, _, _)) => UpdateIsPerDevice(list, change.frame, id);
    }
  }

  /** Under every sequence of upserts, removals and commands ids stay unique, and each
      device ends as if the others did not exist. */
  lemma {:induction false} ReplayIsPerDevice(list: seq<Device>, changes: seq<Change>, id: string)
    requires UniqueIds(list) && id != ""
    ensures UniqueIds(Replay(list, changes))
    ensures Lookup(Replay(list, changes), id) == Fate(Lookup(list, id), id, changes)
    decreases |changes|
  {
    if changes != [] {
      StepIsPerDevice(list, changes[0], id);
      ReplayIsPerDevice(Step(list, changes[0]), changes[1..], id);
    }
  }

  /** A change that can unlock this device, replace it or take it away. */
  predicate Touches(change: Change, id: string) {
    Id(change) == id && (change.Put? || change.Drop? || !change.frame.Update?)
  }

  lemma {:induction false} FateKeepsLock(current: Option<Device>, id: string, changes: seq<Change>)
    requires current.Some? && forall k :: 0 <= k < |changes| ==> !Touches(changes[k], id)
    ensures var fate := Fate(current, id, changes);
            && fate.Some? && fate.value.id == current.value.id
            && fate.value.locked == current.value.locked && fate.value.rest == current.value.rest
    decreases |changes|
  {
    if changes != [] {
      assert !Touches(changes[0], id);
      FateKeepsLock(Fated(current, id, changes[0]), id, changes[1..]);
    }
  }

  /** A locked device stays locked, and there, unless an unlock, a revoke, a removal or a report of it
      is among the changes; what the desktop does not look at stays as it was. */
  lemma LockedStays(list: seq<Device>, changes: seq<Change>, id: string)
    requires UniqueIds(list) && id != "" && Lookup(list, id).Some?
    requires forall k :: 0 <= k < |changes| ==> !Touches(changes[k], id)
    ensures var was := Lookup(list, id).value;
            var now := Lookup(Replay(list, changes), id);
            now.Some? && now.value.locked == was.locked && now.value.rest == was.rest
  {
    ReplayIsPerDevice(list, changes, id);
    FateKeepsLock(Lookup(list, id), id, changes);
  }

  // ---------- the object ----------

  /** `Devices` with the file behind it: `disk` is what `devices.json` holds. */
  class Store {
    var devices: seq<Device>
    var disk: seq<Device>

    constructor (file: seq<Device>)
      ensures devices == file && disk == file
    {
      devices, disk := file, file;
    }

    /** The list in memory moves only with a write that is known to be complete. */
    method Commit(next: seq<Device>, outcome: WriteOutcome) returns (r: Result<()>)
      modifies this
      ensures r.Ok? <==> outcome.Saved?
      ensures r.Ok? ==> devices == disk == next
      ensures r.Err? ==> devices == old(devices) && disk == if outcome.FailedNew? then next else old(disk)
    {
      match outcome {
        case Saved =>
          disk := next;
          devices := next;
          r := Ok(());
        case FailedOld(why) =>
          r := Err(why);
        case FailedNew(why) =>
          disk := next;
          r := Err(why);
      }
    }

    method Upsert(device: Device, outcome: WriteOutcome) returns (r: Result<()>)
      modifies this
      ensures r.Ok? <==> device.id != "" && outcome.Saved?
      ensures r.Ok? ==> disk == devices && Ok(devices) == Upserted(old(devices), device)
      ensures r.Err? ==> devices == old(devices)
      ensures r.Err? && disk != old(disk) ==> outcome.FailedNew? && Ok(disk) == Upserted(old(devices), device)
    {
      if device.id == "" {
        return Err("companion-device-invalid");
      }
      var k := 0;
      while k < |devices| && !Named(devices[k], device.id)
        invariant 0 <= k <= |devices|
        invariant forall j :: 0 <= j < k ==> !Named(devices[j], device.id)
      {
        k := k + 1;
      }
      var next := devices;
      if k < |devices| {
        FirstIs(devices, device.id, k);
        next := next[k := device];
      } else {
        NoneIs(devices, device.id);
        next := next + [device];
      }
      r := Commit(next, outcome);
    }

    method Remove(id: string, outcome: WriteOutcome) returns (r: Result<()>)
      modifies this
      ensures r.Ok? <==> outcome.Saved?
      ensures r.Ok? ==> disk == devices == Without(old(devices), id)
      ensures r.Err? ==> devices == old(devices)
      ensures r.Err? && disk != old(disk) ==> outcome.FailedNew? && disk == Without(old(devices), id)
    {
      var next := Without(devices, id);
      r := Commit(next, outcome);
    }

    /** A failed change can never look applied, and one that is reported as done is on disk. */
    method Apply(frame: Frame, outcome: WriteOutcome) returns (r: Result<()>)
      modifies this
      ensures r.Ok? <==> Applied(old(devices), frame).Ok? && outcome.Saved?
      ensures r.Ok? ==> disk == devices == Applied(old(devices), frame).value && Achieved(frame, disk)
      ensures r.Ok? && !frame.Revoke? ==>
                && Lookup(old(devices), frame.id).Some? && Lookup(devices, frame.id).Some?
                && Edited(frame, Lookup(old(devices), frame.id).value, Lookup(devices, frame.id).value)
      ensures r.Err? ==> devices == old(devices)
      ensures r.Err? && disk != old(disk) ==>
                outcome.FailedNew? && Applied(old(devices), frame).Ok? && disk == Applied(old(devices), frame).value
    {
      if Applied(devices, frame).Ok? { ApplyAchieves(devices, frame); }
      if frame.Revoke? {
        r := Remove(frame.id, outcome);
        return;
      }
      var k := IndexOf(devices, frame.id);
      if k == |devices| {
        return Err("companion-device-unknown");
      }
      var device := devices[k];
      match frame {
        case Revoke(_) =>
        case Unlock(_) =>
          device := device.(locked := false);
        case Update(_, name, grants) =>
          if name.None? && grants.None? {
            return Err("companion-device-invalid");
          }
          if grants.Some? && Mixed(device.grants, grants.value) {
            return Err("companion-grants-mixed");
          }
          if name.Some? { device := device.(name := name.value); }
          if grants.Some? { device := device.(grants := grants.value); }
      }
      r := Upsert(device, outcome);
    }
  }
}
