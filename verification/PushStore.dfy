/** The phones' push subscriptions (src-tauri/src/companion_push.rs). */
module PushStore {
  import opened Wrappers
  import D = Devices

  /** `stamp` stands for the time it was made. */
  datatype Subscription = Subscription(endpoint: string, p256dh: string, auth: string, stamp: string)

  type Book = map<string, seq<Subscription>>

  const ENDPOINTS_PER_DEVICE: nat := 4

  /** Whether the endpoint and keys parse: `Subscription::keys`. */
  type Validity = Subscription -> bool

  // ---------- what a device may keep ----------

  function Valid(list: seq<Subscription>, valid: Validity): seq<Subscription> {
    if list == [] then []
    else (if valid(list[0]) then [list[0]] else []) + Valid(list[1..], valid)
  }

  predicate Mentions(list: seq<Subscription>, endpoint: string) {
    exists s :: s in list && s.endpoint == endpoint
  }

  /** Each endpoint once: its last occurrence. */
  function LastOfEach(list: seq<Subscription>): seq<Subscription> {
    if list == [] then []
    else (if Mentions(list[1..], list[0].endpoint) then [] else [list[0]]) + LastOfEach(list[1..])
  }

  function LastFour(list: seq<Subscription>): seq<Subscription> {
    if |list| <= ENDPOINTS_PER_DEVICE then list else list[|list| - ENDPOINTS_PER_DEVICE..]
  }

  /** The last four of the valid entries, the last occurrence of each endpoint. */
  function Tidied(list: seq<Subscription>, valid: Validity): seq<Subscription> {
    LastFour(LastOfEach(Valid(list, valid)))
  }

  ghost predicate Distinct(list: seq<Subscription>) {
    forall i, j :: 0 <= i < j < |list| ==> list[i].endpoint != list[j].endpoint
  }

  /** A list as it may be stored. */
  ghost predicate Kept(list: seq<Subscription>, valid: Validity) {
    && 0 < |list| <= ENDPOINTS_PER_DEVICE
    && Distinct(list)
    && forall k :: 0 <= k < |list| ==> valid(list[k])
  }

  ghost predicate AllKept(book: Book, valid: Validity) {
    forall device :: device in book ==> Kept(book[device], valid)
  }

  /** What `retain` leaves of a list. */
  function Left(list: seq<Subscription>, gone: Subscription -> bool): seq<Subscription> {
    if list == [] then []
    else if gone(list[0]) then Left(list[1..], gone)
    else [list[0]] + Left(list[1..], gone)
  }

  lemma DistinctHead(head: Subscription, rest: seq<Subscription>)
    ensures Distinct([head] + rest) <==> Distinct(rest) && !Mentions(rest, head.endpoint)
  {
    var list := [head] + rest;
    if Distinct(list) {
      forall i, j | 0 <= i < j < |rest| ensures rest[i].endpoint != rest[j].endpoint {
        assert list[i + 1].endpoint != list[j + 1].endpoint;
      }
      forall s | s in rest ensures s.endpoint != head.endpoint {
        var j :| 0 <= j < |rest| && rest[j] == s;
        assert list[0].endpoint != list[j + 1].endpoint;
      }
    }
  }

  lemma {:induction false} LeftMembers(list: seq<Subscription>, gone: Subscription -> bool)
    ensures forall s :: s in Left(list, gone) <==> s in list && !gone(s)
  {
    if list != [] {
      LeftMembers(list[1..], gone);
      assert list == [list[0]] + list[1..];
    }
  }

  lemma {:induction false} LeftMeans(list: seq<Subscription>, gone: Subscription -> bool)
    ensures Distinct(list) ==> Distinct(Left(list, gone))
    ensures |Left(list, gone)| <= |list|
    ensures |Left(list, gone)| == |list| ==> Left(list, gone) == list
  {
    if list != [] {
      LeftMeans(list[1..], gone);
      LeftMembers(list[1..], gone);
      assert list == [list[0]] + list[1..];
      DistinctHead(list[0], list[1..]);
      DistinctHead(list[0], Left(list[1..], gone));
    }
  }

  lemma {:induction false} NothingLeftOut(list: seq<Subscription>, gone: Subscription -> bool)
    requires forall s :: s in list ==> !gone(s)
    ensures Left(list, gone) == list
  {
    if list != [] {
      assert list[0] in list && forall s :: s in list[1..] ==> s in list;
      NothingLeftOut(list[1..], gone);
    }
  }

  lemma LeftHead(head: Subscription, rest: seq<Subscription>, gone: Subscription -> bool)
    ensures Left([head] + rest, gone) == (if gone(head) then [] else [head]) + Left(rest, gone)
  {
    assert ([head] + rest)[1..] == rest;
  }

  function At(endpoint: string): Subscription -> bool {
    (s: Subscription) => s.endpoint == endpoint
  }

  function Without(list: seq<Subscription>, endpoint: string): seq<Subscription> {
    Left(list, At(endpoint))
  }

  lemma MentionsMore(list: seq<Subscription>, s: Subscription, endpoint: string)
    ensures Mentions(list + [s], endpoint) <==> Mentions(list, endpoint) || s.endpoint == endpoint
  {
    assert s in list + [s];
    assert forall t :: t in list ==> t in list + [s];
  }

  /** One more entry goes to the end, and the earlier one with its endpoint is dropped. */
  lemma {:induction false} LastOfEachMore(list: seq<Subscription>, s: Subscription)
    ensures LastOfEach(list + [s]) == Without(LastOfEach(list), s.endpoint) + [s]
  {
    if list == [] {
      assert list + [s] == [s];
    } else {
      var head, rest := list[0], list[1..];
      LastOfEachMore(rest, s);
      assert (list + [s])[0] == head && (list + [s])[1..] == rest + [s];
      MentionsMore(rest, s, head.endpoint);
      if !Mentions(rest, head.endpoint) {
        var kept := Without(LastOfEach(rest), s.endpoint);
        LeftHead(head, LastOfEach(rest), At(s.endpoint));
        assert LastOfEach(list) == [head] + LastOfEach(rest);
        if head.endpoint == s.endpoint {
          assert LastOfEach(list + [s]) == [] + LastOfEach(rest + [s]);
        } else {
          assert LastOfEach(list + [s]) == [head] + LastOfEach(rest + [s]);
          assert [head] + (kept + [s]) == [head] + kept + [s];
        }
      } else {
        assert LastOfEach(list) == LastOfEach(rest);
      }
    }
  }

  lemma {:induction false} ValidMore(list: seq<Subscription>, s: Subscription, valid: Validity)
    ensures Valid(list + [s], valid) == Valid(list, valid) + if valid(s) then [s] else []
  {
    if list == [] {
      assert list + [s] == [s];
    } else {
      ValidMore(list[1..], s, valid);
      assert (list + [s])[1..] == list[1..] + [s];
    }
  }

  lemma {:induction false} LastOfEachMeans(list: seq<Subscription>)
    ensures Distinct(LastOfEach(list)) && (list != [] ==> LastOfEach(list) != [])
    ensures forall s :: s in LastOfEach(list) ==> s in list
    ensures Distinct(list) ==> LastOfEach(list) == list
  {
    if list != [] {
      var head, rest := list[0], list[1..];
      LastOfEachMeans(rest);
      assert list == [head] + rest;
      DistinctHead(head, rest);
      DistinctHead(head, LastOfEach(rest));
    }
  }

  lemma {:induction false} ValidMeans(list: seq<Subscription>, valid: Validity)
    ensures forall s :: s in Valid(list, valid) <==> s in list && valid(s)
    ensures (forall s :: s in list ==> valid(s)) ==> Valid(list, valid) == list
  {
    if list != [] {
      ValidMeans(list[1..], valid);
      assert list == [list[0]] + list[1..];
    }
  }

  /** A tidied list may be stored if anything is left of it, which is if anything is valid. */
  lemma TidiedMeans(list: seq<Subscription>, valid: Validity)
    ensures Tidied(list, valid) != [] ==> Kept(Tidied(list, valid), valid)
    ensures Tidied(list, valid) != [] <==> exists s :: s in list && valid(s)
  {
    var good := Valid(list, valid);
    var each := LastOfEach(good);
    ValidMeans(list, valid);
    LastOfEachMeans(good);
    var t := Tidied(list, valid);
    assert forall k :: 0 <= k < |t| ==> t[k] in each;
    assert good != [] ==> good[0] in good;
  }

  lemma KeptIsTidy(list: seq<Subscription>, valid: Validity)
    requires list == [] || Kept(list, valid)
    ensures Tidied(list, valid) == list
  {
    ValidMeans(list, valid);
    LastOfEachMeans(list);
  }

  /** Tidying once is enough. */
  lemma TidyTwice(list: seq<Subscription>, valid: Validity)
    ensures Tidied(Tidied(list, valid), valid) == Tidied(list, valid)
  {
    TidiedMeans(list, valid);
    KeptIsTidy(Tidied(list, valid), valid);
  }

  // ---------- which entries are kept ----------

  /** The endpoints of the valid entries. */
  function Endpoints(list: seq<Subscription>, valid: Validity): set<string> {
    set s | s in list && valid(s) :: s.endpoint
  }

  /** An entry is kept if it is valid, and no later valid one has its endpoint, and later valid ones
      have fewer than four endpoints. */
  predicate Stays(s: Subscription, later: seq<Subscription>, valid: Validity) {
    valid(s) && s.endpoint !in Endpoints(later, valid) && |Endpoints(later, valid)| < 4
  }

  /** The entries that are kept, in their order. */
  function Staying(list: seq<Subscription>, valid: Validity): seq<Subscription> {
    if list == [] then []
    else (if Stays(list[0], list[1..], valid) then [list[0]] else []) + Staying(list[1..], valid)
  }

  lemma EndpointsHead(head: Subscription, rest: seq<Subscription>, valid: Validity)
    ensures Endpoints([head] + rest, valid)
            == if valid(head) then Endpoints(rest, valid) + {head.endpoint} else Endpoints(rest, valid)
  {
    assert forall s :: s in [head] + rest <==> s == head || s in rest;
  }

  lemma MentionsExactly(list: seq<Subscription>, valid: Validity, endpoint: string)
    ensures Mentions(Valid(list, valid), endpoint) <==> endpoint in Endpoints(list, valid)
  {
    ValidMeans(list, valid);
  }

  /** One more valid entry before the others. */
  lemma EachHead(head: Subscription, rest: seq<Subscription>, valid: Validity)
    ensures var each := LastOfEach(Valid(rest, valid));
            LastOfEach(Valid([head] + rest, valid))
            == if valid(head) && !Mentions(Valid(rest, valid), head.endpoint) then [head] + each else each
  {
    var good := Valid([head] + rest, valid);
    assert ([head] + rest)[1..] == rest;
    if valid(head) {
      assert good == [head] + Valid(rest, valid) && good[1..] == Valid(rest, valid);
    } else {
      assert good == Valid(rest, valid);
    }
  }

  lemma {:induction false} EachEndpointOnce(list: seq<Subscription>, valid: Validity)
    ensures |LastOfEach(Valid(list, valid))| == |Endpoints(list, valid)|
  {
    if list != [] {
      var head, rest := list[0], list[1..];
      assert list == [head] + rest;
      EachHead(head, rest, valid);
      EndpointsHead(head, rest, valid);
      MentionsExactly(rest, valid, head.endpoint);
      EachEndpointOnce(rest, valid);
      hide Endpoints, LastOfEach, Valid, Mentions;
    }
  }

  lemma LastFourHead(head: Subscription, rest: seq<Subscription>)
    ensures LastFour([head] + rest) == (if |rest| < 4 then [head] else []) + LastFour(rest)
  {
  }

  /** What is kept, entry by entry: the later ones with fewer than four endpoints, each endpoint once,
      in the order they had. */
  lemma {:induction false} TidiedExactly(list: seq<Subscription>, valid: Validity)
    ensures Tidied(list, valid) == Staying(list, valid)
  {
    if list != [] {
      var head, rest := list[0], list[1..];
      assert list == [head] + rest;
      EachHead(head, rest, valid);
      LastFourHead(head, LastOfEach(Valid(rest, valid)));
      MentionsExactly(rest, valid, head.endpoint);
      EachEndpointOnce(rest, valid);
      TidiedExactly(rest, valid);
      hide Endpoints, LastOfEach, Valid, Mentions, LastFour;
    }
  }

  /** `tidy`, with its list of kept ones. */
  method Tidy(list: seq<Subscription>, valid: Validity) returns (kept: seq<Subscription>)
    ensures kept == Tidied(list, valid)
  {
    kept := [];
    var k := 0;
    while k < |list|
      invariant k <= |list| && kept == LastOfEach(Valid(list[..k], valid))
    {
      assert list[..k + 1] == list[..k] + [list[k]];
      ValidMore(list[..k], list[k], valid);
      if !valid(list[k]) {
        assert Valid(list[..k], valid) + [] == Valid(list[..k], valid);
      } else {
        LastOfEachMore(Valid(list[..k], valid), list[k]);
        kept := Without(kept, list[k].endpoint) + [list[k]];
      }
      k := k + 1;
    }
    assert list[..k] == list;
    kept := if |kept| <= ENDPOINTS_PER_DEVICE then kept else kept[|kept| - ENDPOINTS_PER_DEVICE..];
  }

  // ---------- removals ----------

  /** The book after a removal; `None` when nothing was picked. */
  function Removed(book: Book, device: string, gone: Subscription -> bool): Option<Book> {
    if device !in book then None
    else
      var left := Left(book[device], gone);
      if |left| == |book[device]| then None
      else if left == [] then Some(book - {device})
      else Some(book[device := left])
  }

  lemma RemovedMeans(book: Book, device: string, gone: Subscription -> bool, valid: Validity)
    requires AllKept(book, valid) && Removed(book, device, gone).Some?
    ensures AllKept(Removed(book, device, gone).value, valid)
  {
    var left := Left(book[device], gone);
    LeftMeans(book[device], gone);
    LeftMembers(book[device], gone);
    assert forall k :: 0 <= k < |left| ==> left[k] in left && left[k] in book[device];
  }

  function SameKeys(sent: Subscription): Subscription -> bool {
    (stored: Subscription) =>
      stored.endpoint == sent.endpoint && stored.p256dh == sent.p256dh && stored.auth == sent.auth
  }

  function All(book: Book, device: string): seq<Subscription> {
    if device in book then book[device] else []
  }

  /** A push service's `gone` answer takes exactly the subscription it was sent to: whatever was
      stored meanwhile under other keys, for this endpoint or another, stays. */
  lemma RenewalsSurvive(book: Book, device: string, sent: Subscription, other: string, s: Subscription)
    ensures var next := Removed(book, device, SameKeys(sent));
      (s in All(if next.Some? then next.value else book, other)
       <==> s in All(book, other)
            && !(other == device && s.endpoint == sent.endpoint && s.p256dh == sent.p256dh && s.auth == sent.auth))
  {
    if device in book {
      LeftMeans(book[device], SameKeys(sent));
      LeftMembers(book[device], SameKeys(sent));
    }
  }

  /** The book without what was picked. */
  function Pruned(book: Book, device: string, gone: Subscription -> bool): Book {
    var r := Removed(book, device, gone);
    if r.None? then book else r.value
  }

  /** The book with one more subscription of a device, which it already had or not. */
  function Subscribed(book: Book, device: string, reported: Subscription): Book {
    book[device := LastFour(Without(All(book, device), reported.endpoint) + [reported])]
  }

  /** What one more subscription does to a device's list: it goes last. The one with its endpoint goes,
      or of five the first; the others stay in their order. */
  ghost predicate Renews(was: seq<Subscription>, reported: Subscription, now: seq<Subscription>) {
    && (forall k :: 0 <= k < |was| && was[k].endpoint == reported.endpoint ==>
          now == was[..k] + was[k + 1..] + [reported])
    && (!Mentions(was, reported.endpoint) ==> now == (if |was| < 4 then was else was[1..]) + [reported])
  }

  lemma {:induction false} WithoutOne(list: seq<Subscription>, k: nat)
    requires Distinct(list) && k < |list|
    ensures Without(list, list[k].endpoint) == list[..k] + list[k + 1..]
  {
    var head, rest := list[0], list[1..];
    var endpoint := list[k].endpoint;
    assert list == [head] + rest;
    LeftHead(head, rest, At(endpoint));
    DistinctHead(head, rest);
    if k == 0 {
      NothingLeftOut(rest, At(endpoint));
    } else {
      assert rest[k - 1] == list[k];
      WithoutOne(rest, k - 1);
      assert list[..k] == [head] + rest[..k - 1] && list[k + 1..] == rest[k..];
    }
  }

  lemma SubscribedRenews(book: Book, device: string, reported: Subscription, valid: Validity)
    requires AllKept(book, valid)
    ensures Renews(All(book, device), reported, Subscribed(book, device, reported)[device])
  {
    var was := All(book, device);
    forall k | 0 <= k < |was| && was[k].endpoint == reported.endpoint
      ensures Subscribed(book, device, reported)[device] == was[..k] + was[k + 1..] + [reported]
    {
      WithoutOne(was, k);
    }
    if !Mentions(was, reported.endpoint) {
      NothingLeftOut(was, At(reported.endpoint));
    }
  }

  /** Whether a removal changes anything: exactly if it picks something. */
  lemma PrunedExactly(book: Book, device: string, gone: Subscription -> bool)
    ensures Pruned(book, device, gone) != book <==> exists s :: s in All(book, device) && gone(s)
    ensures Removed(book, device, gone).None? <==> Pruned(book, device, gone) == book
    ensures forall s :: s in All(Pruned(book, device, gone), device) ==> !gone(s)
  {
    if device in book {
      LeftMeans(book[device], gone);
      LeftMembers(book[device], gone);
      var left := Left(book[device], gone);
      if left == book[device] {
        assert forall s :: s in book[device] ==> s in left;
      } else if forall s :: s in book[device] ==> !gone(s) {
        NothingLeftOut(book[device], gone);
      }
    }
  }

  // ---------- the object ----------

  /** The subscription part of `Push`: `disk` is what `push.json` holds. */
  class Push {
    var subscriptions: Book
    var disk: Book
    const valid: Validity

    ghost predicate Ready()
      reads this
    {
      AllKept(subscriptions, valid)
    }

    /** What is stored of devices that are gone, and what no longer validates, is left out;
        `known` is `None` when the device file is unreadable, and then counts every device. */
    constructor (stored: Book, known: Option<set<string>>, valid: Validity)
      ensures Ready() && this.valid == valid
      ensures forall device :: device in subscriptions <==>
                && device in stored && (known.None? || device in known.value)
                && Tidied(stored[device], valid) != []
      ensures forall device :: device in subscriptions ==> subscriptions[device] == Tidied(stored[device], valid)
      ensures disk == stored
    {
      this.valid := valid;
      subscriptions := map device |
        device in stored && (known.None? || device in known.value) && Tidied(stored[device], valid) != []
        :: Tidied(stored[device], valid);
      disk := stored;
      new;
      forall device | device in subscriptions ensures Kept(subscriptions[device], valid) {
        TidiedMeans(stored[device], valid);
      }
    }

    /** Writes the file, and on success adopts it. */
    method Saved(next: Book, outcome: D.WriteOutcome) returns (saved: bool)
      requires Ready() && AllKept(next, valid)
      modifies this
      ensures Ready()
      ensures saved == outcome.Saved?
      ensures subscriptions == if saved then next else old(subscriptions)
      ensures disk == if outcome.FailedOld? then old(disk) else next
    {
      match outcome {
        case Saved => disk := next; subscriptions := next; saved := true;
        case FailedOld(_) => saved := false;
        case FailedNew(_) => disk := next; saved := false;
      }
    }

    /** One more browser of the device, or a renewal: it is stored last, the others of the device
        keep their order, and of five the one subscribed longest ago goes. */
    method Subscribe(device: string, reported: Subscription, outcome: D.WriteOutcome) returns (changed: bool)
      requires Ready()
      modifies this
      ensures Ready()
      ensures changed == (valid(reported) && outcome.Saved?)
      ensures changed ==>
                && device in subscriptions && subscriptions == old(subscriptions)[device := subscriptions[device]]
                && Renews(All(old(subscriptions), device), reported, subscriptions[device])
                && subscriptions == Subscribed(old(subscriptions), device, reported)
      ensures !changed ==> subscriptions == old(subscriptions)
    {
      if !valid(reported) {
        return false;
      }
      var list := All(subscriptions, device);
      var tidied := Tidy(list + [reported], valid);
      TidiedMeans(list + [reported], valid);
      assert reported in list + [reported];
      if device in subscriptions { KeptIsTidy(list, valid); }
      ValidMore(list, reported, valid);
      ValidMeans(list, valid);
      LastOfEachMeans(list);
      LastOfEachMore(list, reported);
      SubscribedRenews(subscriptions, device, reported, valid);
      changed := Saved(subscriptions[device := tidied], outcome);
    }

    method Remove(device: string, gone: Subscription -> bool, outcome: D.WriteOutcome) returns (changed: bool)
      requires Ready()
      modifies this
      ensures Ready()
      ensures changed == (Removed(old(subscriptions), device, gone).Some? && outcome.Saved?)
      ensures subscriptions == if changed then Removed(old(subscriptions), device, gone).value else old(subscriptions)
    {
      if device !in subscriptions {
        return false;
      }
      var list := subscriptions[device];
      var left: seq<Subscription> := [];
      var k := 0;
      while k < |list|
        invariant k <= |list| && left + Left(list[k..], gone) == Left(list, gone)
      {
        if !gone(list[k]) {
          left := left + [list[k]];
        }
        k := k + 1;
      }
      assert left == Left(list, gone);
      if |left| == |list| {
        return false;
      }
      RemovedMeans(subscriptions, device, gone, valid);
      changed := Saved(if left == [] then subscriptions - {device} else subscriptions[device := left], outcome);
    }

    /** Drops the whole entry of a device. */
    method Forget(device: string, outcome: D.WriteOutcome) returns (changed: bool)
      requires Ready()
      modifies this
      ensures Ready()
      ensures changed == (device in old(subscriptions) && outcome.Saved?)
      ensures subscriptions == if changed then old(subscriptions) - {device} else old(subscriptions)
    {
      if device !in subscriptions {
        return false;
      }
      changed := Saved(subscriptions - {device}, outcome);
    }

    /** The push service no longer knows what the message was sent to. */
    method Expire(device: string, sent: Subscription, outcome: D.WriteOutcome) returns (changed: bool)
      requires Ready()
      modifies this
      ensures Ready()
      ensures forall other, s :: s in All(old(subscriptions), other) && !(other == device && SameKeys(sent)(s)) ==>
                s in All(subscriptions, other)
      ensures changed || outcome.Saved? ==> forall s :: s in All(subscriptions, device) ==> !SameKeys(sent)(s)
      ensures subscriptions
              == if outcome.Saved? then Pruned(old(subscriptions), device, SameKeys(sent)) else old(subscriptions)
    {
      PrunedExactly(subscriptions, device, SameKeys(sent));
      forall other, s ensures
        var next := Removed(subscriptions, device, SameKeys(sent));
        (s in All(if next.Some? then next.value else subscriptions, other)
         <==> s in All(subscriptions, other) && !(other == device && SameKeys(sent)(s)))
      {
        RenewalsSurvive(subscriptions, device, sent, other, s);
      }
      changed := Remove(device, SameKeys(sent), outcome);
    }
  }
}
