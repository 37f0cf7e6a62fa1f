/** What the desktop hears of the node: after every poll the last it was told is what the status said
    (`poll` in src-tauri/companion-net/node.go). */
module NodeEvents {
  import opened Wrappers
  import opened CertLoop

  /** The state the last `state` event told, with the name that waits for an approval; at first neither. */
  function StateHeard(said: seq<Event>): (string, string) {
    if said == [] then ("", "")
    else
      var last := said[|said| - 1];
      if last.StateEvent? then (last.backend, last.dnsName) else StateHeard(said[..|said| - 1])
  }

  /** The page of the last login prompt. */
  function PromptHeard(said: seq<Event>): Option<string> {
    if said == [] then None
    else
      var last := said[|said| - 1];
      if last.Login? then Some(last.url) else PromptHeard(said[..|said| - 1])
  }

  function RunsHeard(said: seq<Event>): Option<Info> {
    if said == [] then None
    else
      var last := said[|said| - 1];
      if last.Runs? then Some(last.info) else RunsHeard(said[..|said| - 1])
  }

  /** What the node remembers having said is what was heard last. */
  ghost predicate Follows(n: Node) {
    && StateHeard(n.said) == (n.backend, n.pending)
    && (n.authUrl != "" ==> PromptHeard(n.said) == Some(n.authUrl))
    && (n.info.Some? ==> RunsHeard(n.said) == n.info)
    && (forall k :: 0 <= k < |n.said| && n.said[k].Login? ==> n.said[k].url != "")
  }

  lemma OneMore(said: seq<Event>, event: Event)
    ensures StateHeard(said + [event]) == if event.StateEvent? then (event.backend, event.dnsName) else StateHeard(said)
    ensures PromptHeard(said + [event]) == if event.Login? then Some(event.url) else PromptHeard(said)
    ensures RunsHeard(said + [event]) == if event.Runs? then Some(event.info) else RunsHeard(said)
  {
    assert (said + [event])[..|said|] == said;
  }

  /** The name under which a machine waits to be approved. */
  function Waiting(st: Status): string {
    if st.backend == NEEDS_APPROVAL && st.self.Some? then Name(st.self.value) else ""
  }

  /** One more state is told, and then one more prompt. */
  lemma StateFollows(n: Node, st: Status)
    requires Follows(n)
    ensures Follows(n.(backend := st.backend, pending := Waiting(st),
                       said := n.said + [StateEvent(st.backend, Waiting(st))]))
  {
    OneMore(n.said, StateEvent(st.backend, Waiting(st)));
  }

  lemma PromptFollows(n: Node, url: string)
    requires Follows(n)
    ensures Follows(n.(authUrl := url, said := if url != "" && url != n.authUrl then n.said + [Login(url)] else n.said))
  {
    if url != "" && url != n.authUrl {
      OneMore(n.said, Login(url));
      hide StateHeard, PromptHeard, RunsHeard;
    }
  }

  lemma NotedFollows(n: Node, st: Status)
    requires Follows(n)
    ensures Follows(Noted(n, st)) && Noted(n, st).info == n.info
    ensures Noted(n, st).backend == st.backend && Noted(n, st).authUrl == st.authUrl
    ensures Noted(n, st).pending == Waiting(st)
  {
    var told := n.(backend := st.backend, pending := Waiting(st),
                   said := n.said + [StateEvent(st.backend, Waiting(st))]);
    var state := if st.backend != n.backend || Waiting(st) != n.pending then told else n;
    StateFollows(n, st);
    assert Noted(n, st)
           == state.(authUrl := st.authUrl,
                     said := if st.authUrl != "" && st.authUrl != state.authUrl then state.said + [Login(st.authUrl)]
                             else state.said);
    hide Follows, Noted;
    PromptFollows(state, st.authUrl);
  }

  lemma SyncedSaysNothing(n: Node, info: Info)
    requires Callable(n)
    ensures Synced(n, info).said == n.said && Synced(n, info).info == n.info
    ensures Synced(n, info).backend == n.backend && Synced(n, info).authUrl == n.authUrl
    ensures Synced(n, info).pending == n.pending
  {
  }

  /** What is heard last once this status has been read. */
  ghost predicate Tells(said: seq<Event>, st: Status) {
    && StateHeard(said) == (st.backend, Waiting(st))
    && (st.authUrl != "" ==> PromptHeard(said) == Some(st.authUrl))
    && (st.backend == RUNNING && st.self.Some? && st.self.value != "" ==>
          RunsHeard(said) == Some(Info(Name(st.self.value),
                                       if st.owner.Some? then st.owner.value.0 else "",
                                       if st.owner.Some? then st.owner.value.1 else "",
                                       st.httpsCap && Certifiable(st.certDomains, Name(st.self.value)),
                                       st.magicDns)))
  }

  lemma NamedFollows(n: Node, info: Info)
    requires Follows(n)
    ensures Follows(Named(n, info)) && RunsHeard(Named(n, info).said) == Some(info)
    ensures StateHeard(Named(n, info).said) == StateHeard(n.said)
    ensures PromptHeard(Named(n, info).said) == PromptHeard(n.said)
  {
    OneMore(n.said, Runs(info));
  }

  lemma SaysTheSame(n: Node, v: Node)
    requires Follows(n) && v.said == n.said && v.backend == n.backend && v.authUrl == n.authUrl
    requires v.pending == n.pending && (v.info == n.info || v.info.None?)
    ensures Follows(v)
  {
  }

  lemma PollFollows(n: Node, answer: Option<Status>)
    requires Follows(n) && Callable(n)
    ensures Follows(Polled(n, answer))
    ensures answer.Some? ==> Tells(Polled(n, answer).said, answer.value)
  {
    if answer.Some? {
      var st, v := answer.value, Polled(n, answer);
      var noted := Noted(n, st);
      NotedFollows(n, st);
      NotesUntouched(n, st);
      if st.backend == RUNNING && InfoOf(st).Some? {
        var info := InfoOf(st).value;
        assert v == Synced(Named(noted, info), info);
        SyncedSaysNothing(Named(noted, info), info);
        hide Noted, Synced, Polled, Follows, Named;
        NamedFollows(noted, info);
        SaysTheSame(Named(noted, info), v);
      } else {
        SaysTheSame(noted, v);
      }
    }
  }

  lemma StepFollows(w: World, a: Action)
    requires Follows(w.node) && Enabled(w, a)
    ensures Follows(Do(w, a).node)
  {
    match a
    case Poll(answer) => PollFollows(w.node, answer);
    case Report(loop) => OneMore(w.node.said, Cert(loop, w.loops[loop].at.report));
    case _ =>
  }

  lemma {:induction false} RunFollows(ws: seq<World>, acts: seq<Action>, k: nat)
    requires Run(ws, acts) && k < |ws|
    ensures Follows(ws[k].node)
  {
    if k > 0 {
      RunFollows(ws, acts, k - 1);
      StepFollows(ws[k - 1], acts[k - 1]);
    }
  }

  /** After every poll that read a status, the state, the login page and the node that were told last
      are those of the status; and no prompt was without a page. */
  lemma DesktopFollows(ws: seq<World>, acts: seq<Action>, k: nat)
    requires Run(ws, acts) && k < |acts| && acts[k].Poll? && acts[k].answer.Some?
    ensures Tells(ws[k + 1].node.said, acts[k].answer.value)
    ensures Login("") !in ws[k + 1].node.said
  {
    RunFollows(ws, acts, k);
    assert Enabled(ws[k], acts[k]);
    PollFollows(ws[k].node, acts[k].answer);
  }

  /** Nothing of the status is left to tell. */
  predicate Settled(n: Node, st: Status) {
    && n.backend == st.backend && n.pending == Waiting(st) && n.authUrl == st.authUrl
    && (st.backend == RUNNING && InfoOf(st).Some? ==> n.info == InfoOf(st))
  }

  lemma Settles(n: Node, st: Status)
    requires Callable(n)
    ensures Settled(Polled(n, Some(st)), st)
  {
    if st.backend == RUNNING && InfoOf(st).Some? {
      SyncedSaysNothing(Named(Noted(n, st), InfoOf(st).value), InfoOf(st).value);
    }
  }

  lemma SettledSaysNothing(n: Node, st: Status)
    requires Callable(n) && Settled(n, st)
    ensures Polled(n, Some(st)).said == n.said
  {
    NotesUntouched(n, st);
    if st.backend == RUNNING && InfoOf(st).Some? {
      SyncedSaysNothing(Named(Noted(n, st), InfoOf(st).value), InfoOf(st).value);
    }
  }

  /** The same status again is no news. */
  lemma NoNews(n: Node, answer: Option<Status>)
    requires Callable(n)
    ensures Polled(Polled(n, answer), answer).said == Polled(n, answer).said
  {
    if answer.Some? {
      Settles(n, answer.value);
      hide Polled, Settled;
      SettledSaysNothing(Polled(n, answer), answer.value);
    }
  }

  // ---------- the certificate ----------

  /** The last `cert` event: which loop it was, and what it said. */
  function CertHeard(said: seq<Event>): Option<(nat, Report)> {
    if said == [] then None
    else
      var last := said[|said| - 1];
      if last.Cert? then Some((last.loop, last.report)) else CertHeard(said[..|said| - 1])
  }

  lemma CertMore(said: seq<Event>, event: Event)
    ensures CertHeard(said + [event]) == if event.Cert? then Some((event.loop, event.report)) else CertHeard(said)
  {
    assert (said + [event])[..|said|] == said;
  }

  /** A certificate that counts as ready was told, and nothing since. */
  ghost predicate ReadyTold(n: Node) {
    n.certReady ==> CertHeard(n.said).Some? && CertHeard(n.said).value.1.Ready?
  }

  lemma NotedTold(n: Node, st: Status)
    ensures CertHeard(Noted(n, st).said) == CertHeard(n.said)
  {
    var pending := Waiting(st);
    CertMore(n.said, StateEvent(st.backend, pending));
    CertMore(n.said, Login(st.authUrl));
    CertMore(n.said + [StateEvent(st.backend, pending)], Login(st.authUrl));
  }

  lemma PollTold(n: Node, answer: Option<Status>)
    requires Callable(n)
    ensures CertHeard(Polled(n, answer).said) == CertHeard(n.said)
    ensures Polled(n, answer).certReady ==> n.certReady
  {
    if answer.Some? {
      var st := answer.value;
      NotedTold(n, st);
      NotesUntouched(n, st);
      if st.backend == RUNNING && InfoOf(st).Some? {
        var noted, info := Noted(n, st), InfoOf(st).value;
        CertMore(noted.said, Runs(info));
        SyncedSaysNothing(Named(noted, info), info);
      }
    }
  }

  /** Whenever `serve` would go on, the last the desktop has heard of certificates is that one is ready. */
  lemma {:induction false} ReadyIsTold(ws: seq<World>, acts: seq<Action>, k: nat)
    requires Run(ws, acts) && k < |ws|
    ensures ReadyTold(ws[k].node)
    ensures Announces(ws[k].node).Some? ==>
              CertHeard(ws[k].node.said).Some? && CertHeard(ws[k].node.said).value.1.Ready?
  {
    if k > 0 {
      ReadyIsTold(ws, acts, k - 1);
      var w, a := ws[k - 1], acts[k - 1];
      assert Enabled(w, a) && ws[k] == Do(w, a);
      match a {
        case Poll(answer) => PollTold(w.node, answer);
        case Report(loop) => CertMore(w.node.said, Cert(loop, w.loops[loop].at.report));
        case _ =>
      }
    }
  }
}
