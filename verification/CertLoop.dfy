/** The sidecar's status poll and its certificate loops (src-tauri/companion-net/node.go). */
module CertLoop {
  import opened Wrappers

  const RUNNING := "Running"
  const NEEDS_APPROVAL := "NeedsMachineAuth"

  datatype Info = Info(dnsName: string, login: string, displayName: string, httpsCapable: bool, magicDns: bool)

  /** `self` is the node's own DNS name, if the status has one; `owner` its login and display name. */
  datatype Status = Status(
    backend: string,
    authUrl: string,
    self: Option<string>,
    owner: Option<(string, string)>,
    magicDns: bool,
    httpsCap: bool,
    certDomains: seq<string>)

  datatype Report = Pending | Ready(notAfter: int) | Failed(why: string)

  /** Of a `cert` event, whose loop it comes from is history. */
  datatype Event = StateEvent(backend: string, dnsName: string) | Login(url: string) | Runs(info: Info)
    | Cert(loop: nat, report: Report)

  /** `node`, and what happened to it: the name each certificate loop was started for, which
      of them were cancelled, and the events. A loop's number is its place in `started`. */
  datatype Node = Node(
    backend: string,
    authUrl: string,
    pending: string,
    info: Option<Info>,
    certFor: string,
    certCancel: Option<nat>,
    certReady: bool,
    started: seq<string>,
    cancelled: set<nat>,
    said: seq<Event>)

  const INITIAL := Node("", "", "", None, "", None, false, [], {}, [])

  function Low(c: char): char {
    if 'A' <= c <= 'Z' then c + 32 as char else c
  }

  function Lower(s: string): string {
    seq(|s|, i requires 0 <= i < |s| => Low(s[i]))
  }

  function TrimDot(s: string): string {
    if s != "" && s[|s| - 1] == '.' then s[..|s| - 1] else s
  }

  function Name(dnsName: string): string {
    Lower(TrimDot(dnsName))
  }

  predicate Certifiable(domains: seq<string>, name: string) {
    exists d :: d in domains && Name(d) == name
  }

  function InfoOf(st: Status): Option<Info> {
    if st.self.None? || st.self.value == "" then None
    else
      var name := Name(st.self.value);
      Some(Info(name,
                if st.owner.Some? then st.owner.value.0 else "",
                if st.owner.Some? then st.owner.value.1 else "",
                st.httpsCap && Certifiable(st.certDomains, name),
                st.magicDns))
  }

  /** A cancel function is there to be called while a loop's name is. */
  predicate Callable(n: Node) {
    n.certFor != "" ==> n.certCancel.Some?
  }

  function Stopped(n: Node): Node
    requires Callable(n)
  {
    if n.certFor == "" then n
    else n.(cancelled := n.cancelled + {n.certCancel.value}, certFor := "", certCancel := None, certReady := false)
  }

  function Synced(n: Node, info: Info): (r: Node)
    requires Callable(n)
    ensures Callable(r)
  {
    var a := if !info.httpsCapable || n.certFor != info.dnsName then Stopped(n) else n;
    if !info.httpsCapable || a.certFor != "" then a
    else a.(certFor := info.dnsName, certCancel := Some(|a.started|), started := a.started + [info.dnsName])
  }

  function Noted(n: Node, st: Status): Node {
    var pending := if st.backend == NEEDS_APPROVAL && st.self.Some? then Name(st.self.value) else "";
    var a := if st.backend != n.backend || pending != n.pending
             then n.(backend := st.backend, pending := pending, said := n.said + [StateEvent(st.backend, pending)])
             else n;
    var b := if st.authUrl != "" && st.authUrl != a.authUrl then a.(said := a.said + [Login(st.authUrl)]) else a;
    b.(authUrl := st.authUrl)
  }

  function Named(n: Node, info: Info): Node {
    if n.info == Some(info) then n else n.(info := Some(info), said := n.said + [Runs(info)])
  }

  /** One poll; `None` is a status that could not be read. */
  function Polled(n: Node, answer: Option<Status>): (r: Node)
    requires Callable(n)
    ensures Callable(r)
  {
    match answer
    case None => n
    case Some(st) =>
      var noted := Noted(n, st);
      if st.backend != RUNNING then Stopped(noted.(info := None))
      else
        match InfoOf(st)
        case None => noted
        case Some(info) => Synced(Named(noted, info), info)
  }

  /** `over`: the node's own context has ended, and with it that of every loop. */
  function Reported(n: Node, loop: nat, report: Report, over: bool): Node {
    if over || loop in n.cancelled then n
    else n.(certReady := report.Ready?, said := n.said + [Cert(loop, report)])
  }

  /** Whether `serve` would go on, and the name it would announce. */
  function Announces(n: Node): Option<string> {
    if n.backend == RUNNING && n.info.Some? && n.certReady then Some(n.info.value.dnsName) else None
  }

  method InfoFromStatus(st: Status) returns (info: Option<Info>)
    ensures info == InfoOf(st)
  {
    if st.self.None? || st.self.value == "" {
      return None;
    }
    var name := Name(st.self.value);
    var capable := false;
    if st.httpsCap {
      for k := 0 to |st.certDomains|
        invariant capable <==> Certifiable(st.certDomains[..k], name)
      {
        assert st.certDomains[..k + 1] == st.certDomains[..k] + [st.certDomains[k]];
        if Name(st.certDomains[k]) == name {
          capable := true;
        }
      }
      assert st.certDomains[..|st.certDomains|] == st.certDomains;
    }
    var login, displayName := "", "";
    if st.owner.Some? {
      login, displayName := st.owner.value.0, st.owner.value.1;
    }
    info := Some(Info(name, login, displayName, capable, st.magicDns));
  }

  class Poller {
    var backend: string
    var authUrl: string
    var pending: string
    var info: Option<Info>
    var certFor: string
    var certCancel: Option<nat>
    var certReady: bool
    var started: seq<string>
    var cancelled: set<nat>
    var said: seq<Event>

    function Snapshot(): Node
      reads this
    {
      Node(backend, authUrl, pending, info, certFor, certCancel, certReady, started, cancelled, said)
    }

    constructor ()
      ensures Snapshot() == INITIAL
    {
      backend, authUrl, pending, info, certFor, certCancel := "", "", "", None, "", None;
      certReady, started, cancelled, said := false, [], {}, [];
    }

    method Poll(answer: Option<Status>) returns (running: bool)
      requires Callable(Snapshot())
      modifies this
      ensures Snapshot() == Polled(old(Snapshot()), answer)
      ensures running <==> answer.Some? && answer.value.backend == RUNNING && InfoOf(answer.value).Some?
    {
      if answer.None? {
        return false;
      }
      var st := answer.value;
      Note(st);
      if st.backend != RUNNING {
        info := None;
        StopCert();
        return false;
      }
      var seen := InfoFromStatus(st);
      if seen.None? {
        return false;
      }
      if info != seen {
        info := seen;
        said := said + [Runs(seen.value)];
      }
      SyncCert(seen.value);
      running := true;
    }

    /** The first part of `poll`: the state and the login prompt. */
    method Note(st: Status)
      modifies this
      ensures Snapshot() == Noted(old(Snapshot()), st)
    {
      var waiting := "";
      if st.backend == NEEDS_APPROVAL && st.self.Some? {
        waiting := Name(st.self.value);
      }
      if st.backend != backend || waiting != pending {
        backend, pending := st.backend, waiting;
        said := said + [StateEvent(st.backend, waiting)];
      }
      if st.authUrl != "" && st.authUrl != authUrl {
        said := said + [Login(st.authUrl)];
      }
      authUrl := st.authUrl;
    }

    method SyncCert(seen: Info)
      requires Callable(Snapshot())
      modifies this
      ensures Snapshot() == Synced(old(Snapshot()), seen)
    {
      if !seen.httpsCapable || certFor != seen.dnsName {
        StopCert();
      }
      if !seen.httpsCapable || certFor != "" {
        return;
      }
      certFor, certCancel := seen.dnsName, Some(|started|);
      started := started + [seen.dnsName];
    }

    method StopCert()
      requires Callable(Snapshot())
      modifies this
      ensures Snapshot() == Stopped(old(Snapshot()))
    {
      if certFor != "" {
        cancelled := cancelled + {certCancel.value};
        certFor, certCancel, certReady := "", None, false;
      }
    }

    method ReportCert(loop: nat, report: Report, over: bool)
      modifies this
      ensures Snapshot() == Reported(old(Snapshot()), loop, report, over)
    {
      if over || loop in cancelled {
        return;
      }
      certReady := report.Ready?;
      said := said + [Cert(loop, report)];
    }
  }

  // ---------- polls and loops interleave ----------

  /** A loop is about to report, waits for the certificate, waits to try again, or has returned. */
  datatype At = Reporting(report: Report) | Asking | Sleeping | Returned

  /** `last` is what it last got to report. */
  datatype Loop = Loop(at: At, last: Option<Report>)

  datatype World = World(node: Node, loops: seq<Loop>, over: bool)

  datatype Action =
    | Poll(answer: Option<Status>)
    | Report(loop: nat)
    | Answered(loop: nat, outcome: Result<int>)
    | Wake(loop: nat)
    | NodeEnds

  predicate Ended(w: World, loop: nat) {
    w.over || loop in w.node.cancelled
  }

  predicate Enabled(w: World, a: Action) {
    match a
    case Poll(_) => Callable(w.node)
    case Report(loop) => loop < |w.loops| && w.loops[loop].at.Reporting?
    case Answered(loop, _) => loop < |w.loops| && w.loops[loop].at.Asking?
    case Wake(loop) => loop < |w.loops| && w.loops[loop].at.Sleeping?
    case NodeEnds => true
  }

  function AfterReport(report: Report): At {
    match report
    case Pending => Asking
    case Ready(_) => Returned
    case Failed(_) => Sleeping
  }

  function Do(w: World, a: Action): World
    requires Enabled(w, a)
  {
    match a
    case Poll(answer) =>
      var node := Polled(w.node, answer);
      w.(node := node,
         loops := if |node.started| > |w.node.started| then w.loops + [Loop(Reporting(Pending), None)] else w.loops)
    case Report(loop) =>
      var report := w.loops[loop].at.report;
      w.(node := Reported(w.node, loop, report, w.over),
         loops := w.loops[loop := Loop(AfterReport(report),
                                       if Ended(w, loop) then w.loops[loop].last else Some(report))])
    case Answered(loop, outcome) =>
      var report := match outcome case Ok(notAfter) => Ready(notAfter) case Err(why) => Failed(why);
      w.(loops := w.loops[loop := w.loops[loop].(at := Reporting(report))])
    case Wake(loop) =>
      w.(loops := w.loops[loop := w.loops[loop].(at := if Ended(w, loop) then Returned else Reporting(Pending))])
    case NodeEnds => w.(over := true)
  }

  ghost predicate Start(w: World) {
    w == World(INITIAL, [], false)
  }

  /** The loops nothing has cancelled. */
  function Alive(n: Node): set<nat> {
    set k | 0 <= k < |n.started| && k !in n.cancelled
  }

  predicate Capable(n: Node) {
    n.info.Some? && n.info.value.httpsCapable
  }

  ghost predicate Sane(w: World) {
    && Callable(w.node)
    && |w.loops| == |w.node.started|
    && (forall k :: k in w.node.cancelled ==> k < |w.node.started|)
    && (w.node.certCancel.Some? ==> w.node.certCancel.value < |w.node.started|)
  }

  /** A node that is HTTPS capable has exactly one live loop, the one it knows of, which works for
      its present name; any other has none. A certificate is ready when that loop said so
      last. */
  ghost predicate Kept(w: World) {
    && (w.node.certFor != "" <==> Capable(w.node))
    && (!Capable(w.node) ==> Alive(w.node) == {} && !w.node.certReady)
    && (Capable(w.node) ==> Alone(w))
  }

  ghost predicate Alone(w: World) {
    && w.node.certCancel.Some?
    && var loop := w.node.certCancel.value;
       && loop < |w.node.started| && loop < |w.loops|
       && Alive(w.node) == {loop}
       && w.node.started[loop] == w.node.certFor
       && w.node.info.Some? && w.node.info.value.dnsName == w.node.certFor
       && w.node.certReady == (w.loops[loop].last.Some? && w.loops[loop].last.value.Ready?)
  }

  /** The status that breaks it: the node is HTTPS capable under the name ".", of which nothing
      is left when the dot is cut, and an empty name means that no loop runs. */
  predicate Nameless(answer: Option<Status>) {
    && answer.Some? && answer.value.backend == RUNNING && answer.value.self == Some(".")
    && answer.value.httpsCap && Certifiable(answer.value.certDomains, "")
  }

  predicate NamelessStep(a: Action) {
    a.Poll? && Nameless(a.answer)
  }

  lemma SaneStep(w: World, a: Action)
    requires Sane(w) && Enabled(w, a)
    ensures Sane(Do(w, a))
  {
    if a.Poll? { PollIsSane(w, a.answer); }
  }

  lemma PollIsSane(w: World, answer: Option<Status>)
    requires Sane(w)
    ensures Sane(Do(w, Poll(answer)))
  {
    if answer.Some? {
      NotesUntouched(w.node, answer.value);
      if InfoOf(answer.value).Some? {
        LoopsUntouched(w.node, answer.value, InfoOf(answer.value).value);
      }
    }
  }

  lemma AliveWithout(n: Node)
    requires Callable(n)
    ensures Alive(Stopped(n)) == if n.certFor == "" then Alive(n) else Alive(n) - {n.certCancel.value}
  {
  }

  lemma AliveWith(n: Node, info: Info)
    requires Callable(n) && (forall k :: k in n.cancelled ==> k < |n.started|)
    requires info.httpsCapable && n.certFor == ""
    ensures Alive(Synced(n, info)) == Alive(n) + {|n.started|}
  {
  }

  /** What a poll does before it gets to the certificate leaves the loops alone. */
  lemma LoopsUntouched(n: Node, st: Status, info: Info)
    ensures Named(Noted(n, st), info)
            == n.(backend := Noted(n, st).backend, authUrl := Noted(n, st).authUrl, pending := Noted(n, st).pending,
                  said := Named(Noted(n, st), info).said, info := Some(info))
  {
  }

  lemma NotesUntouched(n: Node, st: Status)
    ensures Noted(n, st)
            == n.(backend := Noted(n, st).backend, authUrl := Noted(n, st).authUrl, pending := Noted(n, st).pending,
                  said := Noted(n, st).said)
  {
  }

  lemma NameIsEmpty(dnsName: string)
    requires dnsName != ""
    ensures Name(dnsName) == "" <==> dnsName == "."
  {
  }

  /** A poll keeps it exactly when its status is not that one. */
  lemma PollExactly(w: World, answer: Option<Status>)
    requires Sane(w) && Kept(w)
    ensures Kept(Do(w, Poll(answer))) <==> !Nameless(answer)
  {
    if answer.Some? {
      var st := answer.value;
      var next := Do(w, Poll(answer));
      if st.backend != RUNNING {
        StopKeeps(w, answer);
      } else if InfoOf(st).Some? {
        var info := InfoOf(st).value;
        LoopsUntouched(w.node, st, info);
        NameIsEmpty(st.self.value);
        SyncKeeps(w, Named(Noted(w.node, st), info), info, next);
      }
    }
  }

  lemma StopKeeps(w: World, answer: Option<Status>)
    requires Sane(w) && Kept(w) && answer.Some? && answer.value.backend != RUNNING
    ensures Kept(Do(w, Poll(answer)))
  {
    AliveWithout(w.node);
  }

  lemma SyncKeeps(w: World, n: Node, info: Info, next: World)
    requires Sane(w) && Kept(w)
    requires n.info == Some(info) && n.certFor == w.node.certFor && n.certCancel == w.node.certCancel
    requires n.started == w.node.started && n.cancelled == w.node.cancelled && n.certReady == w.node.certReady
    requires next.node == Synced(n, info)
    requires next.loops
             == if |next.node.started| > |n.started| then w.loops + [Loop(Reporting(Pending), None)] else w.loops
    ensures Kept(next) <==> info.httpsCapable ==> info.dnsName != ""
  {
    AliveWithout(n);
    assert Alive(n) == Alive(w.node);
    var a := if !info.httpsCapable || n.certFor != info.dnsName then Stopped(n) else n;
    if info.httpsCapable && a.certFor == "" {
      AliveWith(a, info);
    }
  }

  lemma ReportKeeps(w: World, a: Action)
    requires Sane(w) && Kept(w) && Enabled(w, a) && a.Report?
    ensures Kept(Do(w, a))
  {
    assert Alive(Do(w, a).node) == Alive(w.node);
    assert !Ended(w, a.loop) ==> a.loop in Alive(w.node);
  }

  lemma KeptExactly(w: World, a: Action)
    requires Sane(w) && Kept(w) && Enabled(w, a)
    ensures Kept(Do(w, a)) <==> !NamelessStep(a)
  {
    match a
    case Poll(answer) => PollExactly(w, answer);
    case Report(_) => ReportKeeps(w, a);
    case _ =>
  }

  // ---------- every run ----------

  ghost predicate Run(ws: seq<World>, acts: seq<Action>) {
    && |ws| == |acts| + 1 && Start(ws[0])
    && forall k :: 0 <= k < |acts| ==> Enabled(ws[k], acts[k]) && ws[k + 1] == Do(ws[k], acts[k])
  }

  lemma {:induction false} RunIsSane(ws: seq<World>, acts: seq<Action>, k: nat)
    requires Run(ws, acts) && k < |ws|
    ensures Sane(ws[k])
  {
    if k > 0 {
      RunIsSane(ws, acts, k - 1);
      SaneStep(ws[k - 1], acts[k - 1]);
    }
  }

  lemma {:induction false} KeptUntil(ws: seq<World>, acts: seq<Action>, k: nat)
    requires Run(ws, acts) && k < |ws|
    requires forall j :: 0 <= j < k ==> !NamelessStep(acts[j])
    ensures Kept(ws[k])
  {
    if k > 0 {
      KeptUntil(ws, acts, k - 1);
      RunIsSane(ws, acts, k - 1);
      KeptExactly(ws[k - 1], acts[k - 1]);
    } else {
      assert Alive(INITIAL) == {};
    }
  }

  /** Over a whole run, HTTPS capability and a single live loop go together if and only if the
      node is never capable under the name ".". */
  lemma OneLoopExactly(ws: seq<World>, acts: seq<Action>)
    requires Run(ws, acts)
    ensures (forall k :: 0 <= k < |ws| ==> Kept(ws[k])) <==> (forall k :: 0 <= k < |acts| ==> !NamelessStep(acts[k]))
  {
    if forall k :: 0 <= k < |acts| ==> !NamelessStep(acts[k]) {
      forall k | 0 <= k < |ws| ensures Kept(ws[k]) { KeptUntil(ws, acts, k); }
    }
    if forall k :: 0 <= k < |ws| ==> Kept(ws[k]) {
      forall k | 0 <= k < |acts| ensures !NamelessStep(acts[k]) {
        RunIsSane(ws, acts, k);
        assert Kept(ws[k]) && Kept(ws[k + 1]);
        KeptExactly(ws[k], acts[k]);
      }
    }
  }

  /** What `serve` announces is the name the certificate is for. */
  lemma ServesUnderItsCertificate(ws: seq<World>, acts: seq<Action>, k: nat) returns (loop: nat)
    requires Run(ws, acts) && k < |ws| && Announces(ws[k].node).Some?
    requires forall j :: 0 <= j < k ==> !NamelessStep(acts[j])
    ensures Alive(ws[k].node) == {loop} && loop < |ws[k].node.started| && loop < |ws[k].loops|
    ensures ws[k].node.started[loop] == Announces(ws[k].node).value
    ensures ws[k].loops[loop].last.Some? && ws[k].loops[loop].last.value.Ready?
  {
    KeptUntil(ws, acts, k);
    loop := ws[k].node.certCancel.value;
  }

  lemma RunsWhileNamed(w: World, a: Action)
    requires Enabled(w, a) && (w.node.info.Some? ==> w.node.backend == RUNNING)
    ensures Do(w, a).node.info.Some? ==> Do(w, a).node.backend == RUNNING
  {
    if a.Poll? && a.answer.Some? { NotesUntouched(w.node, a.answer.value); }
  }

  lemma {:induction false} StaysNamed(ws: seq<World>, acts: seq<Action>, k: nat)
    requires Run(ws, acts) && k < |ws|
    ensures ws[k].node.info.Some? ==> ws[k].node.backend == RUNNING
  {
    hide Do, Enabled;
    if k > 0 {
      StaysNamed(ws, acts, k - 1);
      RunsWhileNamed(ws[k - 1], acts[k - 1]);
    }
  }

  /** `serve` goes on, and announces this name, exactly if it is the node's and its one live loop has
      the certificate for it. */
  lemma AnnouncesExactly(ws: seq<World>, acts: seq<Action>, k: nat, name: string)
    requires Run(ws, acts) && k < |ws|
    requires forall j :: 0 <= j < k ==> !NamelessStep(acts[j])
    ensures Announces(ws[k].node) == Some(name) <==>
              && ws[k].node.info.Some? && ws[k].node.info.value.dnsName == name
              && exists loop :: HasCertificate(ws[k], loop, name)
  {
    KeptUntil(ws, acts, k);
    StaysNamed(ws, acts, k);
    var w := ws[k];
    if Announces(w.node) == Some(name) { assert HasCertificate(w, w.node.certCancel.value, name); }
    if loop :| HasCertificate(w, loop, name) { assert loop in Alive(w.node); }
  }

  /** The loop is the live one, for this name, and what it said last is that the certificate is there. */
  predicate HasCertificate(w: World, loop: nat, name: string) {
    && Alive(w.node) == {loop} && loop < |w.node.started| && loop < |w.loops|
    && w.node.started[loop] == name
    && w.loops[loop].last.Some? && w.loops[loop].last.value.Ready?
  }

  /** What a status says of the certificate: the name to have one for, if any. */
  function Wanted(st: Status): Option<string> {
    if st.backend == RUNNING && InfoOf(st).Some? && InfoOf(st).value.httpsCapable
    then Some(InfoOf(st).value.dnsName) else None
  }

  /** The status says nothing of it: the node runs, and does not have its own name yet. */
  predicate Undecided(st: Status) {
    st.backend == RUNNING && InfoOf(st).None?
  }

  lemma SyncedExactly(n: Node, info: Info)
    requires Callable(n) && (n.certCancel.Some? ==> n.certCancel.value !in n.cancelled)
    requires info.httpsCapable ==> info.dnsName != ""
    ensures var r := Synced(n, info);
            && (r.started != n.started <==> info.httpsCapable && n.certFor != info.dnsName)
            && (r.cancelled != n.cancelled <==> n.certFor != "" && (!info.httpsCapable || n.certFor != info.dnsName))
  {
  }

  /** A loop is started exactly when a name is wanted that has none, and ended exactly when its name is
      wanted no more: a poll that finds things as they were leaves it alone. */
  lemma LoopsFollowTheName(ws: seq<World>, acts: seq<Action>, k: nat)
    requires Run(ws, acts) && k < |acts| && acts[k].Poll? && acts[k].answer.Some?
    requires forall j :: 0 <= j <= k ==> !NamelessStep(acts[j])
    ensures var n := ws[k].node;
            var v := ws[k + 1].node;
            var has := if Capable(n) then Some(n.info.value.dnsName) else None;
            var wants := if Undecided(acts[k].answer.value) then has else Wanted(acts[k].answer.value);
            && (v.started != n.started <==> wants.Some? && wants != has)
            && (v.cancelled != n.cancelled <==> has.Some? && wants != has)
  {
    KeptUntil(ws, acts, k);
    var w, st := ws[k], acts[k].answer.value;
    assert Enabled(w, acts[k]) && ws[k + 1].node == Polled(w.node, Some(st));
    assert w.node.certCancel.Some? && Capable(w.node) ==> w.node.certCancel.value in Alive(w.node);
    NotesUntouched(w.node, st);
    if st.backend == RUNNING && InfoOf(st).Some? {
      var info := InfoOf(st).value;
      LoopsUntouched(w.node, st, info);
      NameIsEmpty(st.self.value);
      hide InfoOf, Noted;
      if w.node.certFor == "" {
        assert !Capable(w.node);
        SyncedAnew(Named(Noted(w.node, st), info), info);
      } else {
        SyncedExactly(Named(Noted(w.node, st), info), info);
      }
    }
  }

  lemma SyncedAnew(n: Node, info: Info)
    requires Callable(n) && n.certFor == "" && (info.httpsCapable ==> info.dnsName != "")
    ensures Synced(n, info).started != n.started <==> info.httpsCapable
    ensures Synced(n, info).cancelled == n.cancelled
  {
  }

  lemma EndedStays(w: World, a: Action, loop: nat)
    requires Enabled(w, a) && Ended(w, loop)
    ensures Ended(Do(w, a), loop)
  {
  }

  /** A loop that was cancelled changes nothing and says nothing any more, in any run. */
  lemma {:induction false} CancelledIsMute(ws: seq<World>, acts: seq<Action>, i: nat, k: nat, loop: nat)
    requires Run(ws, acts) && i <= k < |acts| && Ended(ws[i], loop)
    ensures Ended(ws[k], loop)
    ensures acts[k] == Report(loop) ==> ws[k + 1].node == ws[k].node
    ensures acts[k] == Wake(loop) ==> ws[k + 1].loops[loop].at.Returned?
  {
    if i < k {
      CancelledIsMute(ws, acts, i, k - 1, loop);
      EndedStays(ws[k - 1], acts[k - 1], loop);
    }
    assert Enabled(ws[k], acts[k]) && ws[k + 1] == Do(ws[k], acts[k]);
  }

  // ---------- the name "." ----------

  const DOT_STATUS := Status(RUNNING, "", Some("."), None, true, true, ["."])

  const AWAY_STATUS := Status("NeedsLogin", "", None, None, false, false, [])

  lemma DotPoll(n: Node)
    requires n.certFor == ""
    ensures var r := Polled(n, Some(DOT_STATUS));
            r.certFor == "" && r.started == n.started + [""] && r.cancelled == n.cancelled
  {
    assert "." in DOT_STATUS.certDomains && Name(".") == "" && Certifiable(DOT_STATUS.certDomains, "");
    LoopsUntouched(n, DOT_STATUS, InfoOf(DOT_STATUS).value);
  }

  lemma AwayPoll(n: Node)
    requires n.certFor == ""
    ensures var r := Polled(n, Some(AWAY_STATUS));
            r.info.None? && r.started == n.started && r.cancelled == n.cancelled
  {
  }

  lemma TwoAlive(n: Node)
    requires n.started == [""] + [""] && n.cancelled == {}
    ensures Alive(n) == {0, 1}
  {
  }

  lemma IsRun(ws: seq<World>, acts: seq<Action>)
    requires |ws| == 4 && |acts| == 3 && Start(ws[0])
    requires forall k :: 0 <= k < 3 ==> acts[k].Poll? && Callable(ws[k].node)
    requires ws[1] == Do(ws[0], acts[0]) && ws[2] == Do(ws[1], acts[1]) && ws[3] == Do(ws[2], acts[2])
    ensures Run(ws, acts)
  {
  }

  /** Two polls under that name start two loops, neither of which a later login prompt ends. */
  lemma DotLoops(w0: World) returns (ws: seq<World>, acts: seq<Action>)
    requires Start(w0)
    ensures Run(ws, acts) && |ws| == 4
    ensures Alive(ws[2].node) == {0, 1} && Alive(ws[3].node) == {0, 1} && ws[3].node.info.None?
  {
    var dot, away := Poll(Some(DOT_STATUS)), Poll(Some(AWAY_STATUS));
    var w1 := Do(w0, dot);
    assert w1.node.certFor == "" && w1.node.started == [""] && w1.node.cancelled == {} by { DotPoll(w0.node); }
    var w2 := Do(w1, dot);
    assert w2.node.certFor == "" && w2.node.started == [""] + [""] && w2.node.cancelled == {} by { DotPoll(w1.node); }
    var w3 := Do(w2, away);
    assert w3.node.info.None? && w3.node.started == [""] + [""] && w3.node.cancelled == {} by { AwayPoll(w2.node); }
    TwoAlive(w2.node);
    TwoAlive(w3.node);
    ws, acts := [w0, w1, w2, w3], [dot, dot, away];
    IsRun(ws, acts);
  }

  // ---------- a certificate at the second try ----------

  const GOOD_STATUS := Status(RUNNING, "", Some("a"), None, true, true, ["a"])

  predicate Single(w: World) {
    |w.loops| == 1 && Fine(w)
  }

  predicate Fine(w: World) {
    && !w.over && w.node.cancelled == {}
    && w.node.backend == RUNNING && w.node.info.Some? && w.node.info.value.dnsName == "a"
  }

  /** A run that has come to its one loop being at this point. */
  ghost predicate Reaches(ws: seq<World>, acts: seq<Action>, at: At) {
    Run(ws, acts) && Single(ws[|acts|]) && ws[|acts|].loops[0].at == at
  }

  /** One more step of the loop. */
  lemma Next(ws: seq<World>, acts: seq<Action>, at: At, a: Action) returns (longer: seq<World>)
    requires Reaches(ws, acts, at)
    requires match a
             case Report(0) => at.Reporting?
             case Wake(0) => at.Sleeping?
             case Answered(0, _) => at.Asking?
             case _ => false
    ensures Reaches(longer, acts + [a],
                    match a
                    case Report(_) => AfterReport(at.report)
                    case Answered(_, Ok(notAfter)) => Reporting(Ready(notAfter))
                    case Answered(_, Err(why)) => Reporting(Failed(why))
                    case _ => Reporting(Pending))
    ensures a.Report? && at.report.Ready? ==> Announces(longer[|acts| + 1].node) == Some("a")
  {
    var w := ws[|acts|];
    assert Enabled(w, a);
    longer := ws + [Do(w, a)];
    hide Start;
  }

  /** A run in which the first request fails, the loop tries again, and `serve` can go on. */
  lemma SecondTryRun(why: string, notAfter: int, w0: World) returns (ws: seq<World>, acts: seq<Action>)
    requires Start(w0)
    ensures Run(ws, acts) && |acts| == 8 && Announces(ws[8].node) == Some("a")
    ensures acts[2] == Answered(0, Err(why)) && acts[6] == Answered(0, Ok(notAfter))
  {
    GoodPoll(w0);
    ws, acts := [w0, Do(w0, Poll(Some(GOOD_STATUS)))], [Poll(Some(GOOD_STATUS))];
    hide Do, Enabled, Start, Announces, Single;
    assert Reaches(ws, acts, Reporting(Pending));
    hide Run;
    ws := Next(ws, acts, Reporting(Pending), Report(0));
    ws := Next(ws, acts + [Report(0)], Asking, Answered(0, Err(why)));
    acts := acts + [Report(0)] + [Answered(0, Err(why))];
    ws := Next(ws, acts, Reporting(Failed(why)), Report(0));
    ws := Next(ws, acts + [Report(0)], Sleeping, Wake(0));
    acts := acts + [Report(0)] + [Wake(0)];
    ws := Next(ws, acts, Reporting(Pending), Report(0));
    ws := Next(ws, acts + [Report(0)], Asking, Answered(0, Ok(notAfter)));
    acts := acts + [Report(0)] + [Answered(0, Ok(notAfter))];
    ws := Next(ws, acts, Reporting(Ready(notAfter)), Report(0));
    acts := acts + [Report(0)];
  }

  lemma GoodPoll(w0: World)
    requires Start(w0)
    ensures Enabled(w0, Poll(Some(GOOD_STATUS)))
    ensures var w := Do(w0, Poll(Some(GOOD_STATUS))); Single(w) && w.loops == [Loop(Reporting(Pending), None)]
  {
    assert Name("a") == "a" && "a" in GOOD_STATUS.certDomains && Certifiable(GOOD_STATUS.certDomains, "a");
    LoopsUntouched(w0.node, GOOD_STATUS, InfoOf(GOOD_STATUS).value);
  }
}
