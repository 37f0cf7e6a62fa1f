/** How much of a flood of lines is printed: the sidecar's own limiter
    (src-tauri/companion-net/ratelog.go) and the desktop's relay of the sidecar's stderr
    (src-tauri/src/companion_net.rs, `relay_stderr`). */
module LogLimits {
  import opened Wrappers

  /** What reaches the log. The rest of a line is history: when it passed, when the window it
      passed in had opened, and how often the limiter had been closed by then. */
  datatype Entry = Line(text: string, at: int, since: int, era: nat) | Summary(count: nat)

  /** Every line is accounted for exactly once, in order: by itself, or in a summary. */
  predicate Accounts(log: seq<Entry>, lines: seq<string>)
    decreases |log|
  {
    if log == [] then lines == []
    else
      var last := log[|log| - 1];
      var front := log[..|log| - 1];
      match last
      case Line(text, _, _, _) => lines != [] && lines[|lines| - 1] == text && Accounts(front, lines[..|lines| - 1])
      case Summary(n) => 0 < n <= |lines| && Accounts(front, lines[..|lines| - n])
  }

  lemma AccountsLine(log: seq<Entry>, lines: seq<string>, text: string, at: int, since: int, era: nat)
    requires Accounts(log, lines)
    ensures Accounts(log + [Line(text, at, since, era)], lines + [text])
  {
    assert (log + [Line(text, at, since, era)])[..|log|] == log;
    assert (lines + [text])[..|lines|] == lines;
  }

  lemma AccountsSummary(log: seq<Entry>, lines: seq<string>, n: nat)
    requires 0 < n <= |lines| && Accounts(log, lines[..|lines| - n])
    ensures Accounts(log + [Summary(n)], lines)
  {
    assert (log + [Summary(n)])[..|log|] == log;
  }

  datatype Pass = Pass(at: int, since: int, era: nat)

  function Passes(log: seq<Entry>): seq<Pass>
    decreases |log|
  {
    if log == [] then []
    else
      var last := log[|log| - 1];
      Passes(log[..|log| - 1]) + if last.Line? then [Pass(last.at, last.since, last.era)] else []
  }

  lemma PassesMore(log: seq<Entry>, e: Entry)
    ensures Passes(log + [e]) == Passes(log) + if e.Line? then [Pass(e.at, e.since, e.era)] else []
  {
    assert (log + [e])[..|log|] == log;
  }

  // ---------- the sidecar's limiter ----------

  /** `timer` is when the armed timer goes off. `era` (how often it was closed) and `written`
      (every line so far) are history. */
  datatype Log = Log(
    start: Option<int>,
    passed: nat,
    dropped: nat,
    timer: Option<int>,
    closed: bool,
    out: seq<Entry>,
    era: nat,
    written: seq<string>)

  const EMPTY := Log(None, 0, 0, None, false, [], 0, [])

  datatype Limit = Limit(max: nat, window: int)

  function Summarised(l: Log): Log {
    var said := if l.dropped > 0 then l.(out := l.out + [Summary(l.dropped)]) else l;
    said.(passed := 0, dropped := 0)
  }

  function Rolled(l: Log, c: Limit, now: int): Log {
    if l.start.None? || now - l.start.value < c.window then l else Summarised(l).(start := None)
  }

  function Counted(l: Log, c: Limit, now: int, text: string): Log
    requires l.start.Some?
  {
    var noted := l.(written := l.written + [text]);
    if l.passed < c.max then
      noted.(passed := l.passed + 1, out := l.out + [Line(text, now, l.start.value, l.era)])
    else
      noted.(dropped := l.dropped + 1,
             timer := if l.dropped == 0 && !l.closed then Some(l.start.value + c.window) else l.timer)
  }

  function Wrote(l: Log, c: Limit, now: int, text: string): Log {
    var rolled := Rolled(l, c, now);
    Counted(if rolled.start.None? then rolled.(start := Some(now)) else rolled, c, now, text)
  }

  function Closed(l: Log): Log {
    Summarised(l.(closed := true, timer := None, era := l.era + 1)).(start := None)
  }

  /** `Fire` is the armed timer going off; `Late` one that was stopped too late to matter. */
  datatype Op = Write(now: int, text: string) | Fire(now: int) | Late(now: int) | Close

  predicate Possible(l: Log, clock: int, op: Op) {
    match op
    case Write(now, _) => clock <= now
    case Fire(now) => clock <= now && l.timer.Some? && l.timer.value <= now
    case Late(now) => clock <= now
    case Close => true
  }

  function Done(l: Log, c: Limit, op: Op): Log {
    match op
    case Write(now, text) => Wrote(l, c, now, text)
    case Fire(now) => Rolled(l.(timer := None), c, now)
    case Late(now) => Rolled(l, c, now)
    case Close => Closed(l)
  }

  function Clock(clock: int, op: Op): int {
    if op.Close? then clock else op.now
  }

  /** All lines but the last `dropped` ones are in the log. */
  predicate AllBut(out: seq<Entry>, written: seq<string>, dropped: nat) {
    dropped <= |written| && Accounts(out, written[..|written| - dropped])
  }

  function Said(out: seq<Entry>, dropped: nat): seq<Entry> {
    if dropped > 0 then out + [Summary(dropped)] else out
  }

  lemma SummaryAccounts(out: seq<Entry>, written: seq<string>, dropped: nat)
    requires AllBut(out, written, dropped)
    ensures AllBut(Said(out, dropped), written, 0) && Passes(Said(out, dropped)) == Passes(out)
  {
    PassesMore(out, Summary(dropped));
    assert written[..|written|] == written;
    if dropped > 0 { AccountsSummary(out, written, dropped); }
  }

  lemma PassAccounts(out: seq<Entry>, written: seq<string>, text: string, at: int, since: int, era: nat)
    requires AllBut(out, written, 0)
    ensures AllBut(out + [Line(text, at, since, era)], written + [text], 0)
    ensures Passes(out + [Line(text, at, since, era)]) == Passes(out) + [Pass(at, since, era)]
  {
    PassesMore(out, Line(text, at, since, era));
    assert written[..|written|] == written && (written + [text])[..|written| + 1] == written + [text];
    AccountsLine(out, written, text, at, since, era);
  }

  lemma DropAccounts(out: seq<Entry>, written: seq<string>, dropped: nat, text: string)
    requires AllBut(out, written, dropped)
    ensures AllBut(out, written + [text], dropped + 1)
  {
    assert (written + [text])[..|written| - dropped] == written[..|written| - dropped];
  }

  /** The counting: what is still counted comes last, and has a timer until the close. */
  predicate Counts(l: Log, c: Limit) {
    && AllBut(l.out, l.written, l.dropped)
    && (l.dropped > 0 ==> l.start.Some? && l.passed >= c.max)
    && (l.dropped > 0 && !l.closed ==> l.timer == Some(l.start.value + c.window))
    && (l.start.None? ==> l.passed == 0)
  }

  /** The windows between two closes: apart from each other, at most `max` lines in each. A
      window that opens after a close comes after what has passed before. The last `passed`
      lines are those of the window that is open. */
  ghost predicate Windows(p: seq<Pass>, start: Option<int>, passed: nat, era: nat, c: Limit, clock: int) {
    && passed <= |p| && passed <= c.max
    && (start.None? ==> passed == 0)
    && (start.Some? ==> start.value <= clock)
    && (forall i :: 0 <= i < |p| ==>
          p[i].since <= p[i].at < p[i].since + c.window && p[i].at <= clock && p[i].era <= era)
    && (forall i, j :: 0 <= i < j < |p| ==> Follows(p[i], p[j], c))
    && (forall i, j :: 0 <= i && i + c.max <= j < |p| ==> !SameWindow(p[i], p[j]))
    && (forall i :: |p| - passed <= i < |p| ==> start.Some? && p[i].since == start.value && p[i].era == era)
    && (forall i :: 0 <= i < |p| - passed ==> Ended(p[i], if start.Some? then start.value else clock, era, c))
  }

  predicate SameWindow(a: Pass, b: Pass) {
    a.since == b.since && a.era == b.era
  }

  predicate Follows(a: Pass, b: Pass, c: Limit) {
    && a.at <= b.at && a.era <= b.era
    && (if a.era == b.era then a.since == b.since || a.since + c.window <= b.since else a.at <= b.since)
  }

  /** The line's window had ended at that time, or a close has ended it. */
  predicate Ended(a: Pass, time: int, era: nat, c: Limit) {
    if a.era == era then a.since + c.window <= time else a.at <= time
  }

  lemma WindowCloses(p: seq<Pass>, start: int, passed: nat, era: nat, c: Limit, clock: int, now: int)
    requires Windows(p, Some(start), passed, era, c, clock) && c.window > 0
    requires clock <= now && now - start >= c.window
    ensures Windows(p, None, 0, era, c, now)
  {
  }

  /** A close starts over, whatever window is open. */
  lemma AnotherEra(p: seq<Pass>, start: Option<int>, passed: nat, era: nat, c: Limit, clock: int)
    requires Windows(p, start, passed, era, c, clock)
    ensures Windows(p, None, 0, era + 1, c, clock)
  {
  }

  lemma WindowOpens(p: seq<Pass>, era: nat, c: Limit, now: int)
    requires Windows(p, None, 0, era, c, now)
    ensures Windows(p, Some(now), 0, era, c, now)
  {
  }

  lemma WindowStays(p: seq<Pass>, start: Option<int>, passed: nat, era: nat, c: Limit, clock: int, now: int)
    requires Windows(p, start, passed, era, c, clock) && clock <= now
    ensures Windows(p, start, passed, era, c, now)
  {
  }

  lemma LinePasses(p: seq<Pass>, start: int, passed: nat, era: nat, c: Limit, now: int)
    requires Windows(p, Some(start), passed, era, c, now) && c.window > 0
    requires passed < c.max && now - start < c.window
    ensures Windows(p + [Pass(now, start, era)], Some(start), passed + 1, era, c, now)
  {
    var q := p + [Pass(now, start, era)];
    forall i, j | 0 <= i && i + c.max <= j < |q| ensures !SameWindow(q[i], q[j]) {
      if j == |p| { assert i < |p| - passed && Ended(p[i], start, era, c); }
    }
    forall i, j | 0 <= i < j < |q| ensures Follows(q[i], q[j], c) {
      if j == |p| && i < |p| - passed { assert Ended(p[i], start, era, c); }
    }
  }

  lemma RolledCounts(l: Log, c: Limit, now: int)
    requires AllBut(l.out, l.written, l.dropped) && (l.start.None? ==> l.passed == 0 && l.dropped == 0)
    ensures Passes(Rolled(l, c, now).out) == Passes(l.out)
    ensures Counts(l, c) || (l.start.Some? && now - l.start.value >= c.window) ==> Counts(Rolled(l, c, now), c)
  {
    SummaryAccounts(l.out, l.written, l.dropped);
  }

  lemma CountedCounts(l: Log, c: Limit, now: int, text: string)
    requires Counts(l, c) && l.start.Some?
    ensures Counts(Counted(l, c, now, text), c)
  {
    if l.passed < c.max {
      PassAccounts(l.out, l.written, text, now, l.start.value, l.era);
    } else {
      DropAccounts(l.out, l.written, l.dropped, text);
    }
  }

  lemma CountsStep(l: Log, c: Limit, op: Op)
    requires Counts(l, c) && c.window > 0
    requires op.Fire? ==> l.timer.Some? && l.timer.value <= op.now
    ensures Counts(Done(l, c, op), c)
  {
    match op {
      case Write(now, text) =>
        RolledCounts(l, c, now);
        var rolled := Rolled(l, c, now);
        CountedCounts(if rolled.start.None? then rolled.(start := Some(now)) else rolled, c, now, text);
      case Fire(now) => RolledCounts(l.(timer := None), c, now);
      case Late(now) => RolledCounts(l, c, now);
      case Close => SummaryAccounts(l.out, l.written, l.dropped);
    }
  }

  ghost predicate InWindows(l: Log, c: Limit, clock: int) {
    Windows(Passes(l.out), l.start, l.passed, l.era, c, clock)
  }

  lemma RolledWindows(l: Log, c: Limit, clock: int, now: int)
    requires InWindows(l, c, clock) && c.window > 0 && clock <= now
    requires AllBut(l.out, l.written, l.dropped)
    ensures InWindows(Rolled(l, c, now), c, now) && Rolled(l, c, now).era == l.era
    ensures Rolled(l, c, now).start.Some? ==> now - Rolled(l, c, now).start.value < c.window
  {
    SummaryAccounts(l.out, l.written, l.dropped);
    if l.start.Some? && now - l.start.value >= c.window {
      WindowCloses(Passes(l.out), l.start.value, l.passed, l.era, c, clock, now);
    } else {
      WindowStays(Passes(l.out), l.start, l.passed, l.era, c, clock, now);
    }
  }

  lemma CountedWindows(l: Log, c: Limit, now: int, text: string)
    requires InWindows(l, c, now) && c.window > 0 && l.start.Some? && now - l.start.value < c.window
    ensures InWindows(Counted(l, c, now, text), c, now)
  {
    if l.passed < c.max {
      PassesMore(l.out, Line(text, now, l.start.value, l.era));
      LinePasses(Passes(l.out), l.start.value, l.passed, l.era, c, now);
    }
  }

  lemma WindowsStep(l: Log, c: Limit, clock: int, op: Op)
    requires InWindows(l, c, clock) && Counts(l, c) && c.window > 0
    requires Possible(l, clock, op)
    ensures InWindows(Done(l, c, op), c, Clock(clock, op))
  {
    hide Windows;
    if op.Close? {
      SummaryAccounts(l.out, l.written, l.dropped);
      AnotherEra(Passes(l.out), l.start, l.passed, l.era, c, clock);
    } else {
      var now := op.now;
      RolledWindows(l, c, clock, now);
      RolledWindows(l.(timer := None), c, clock, now);
      if op.Write? {
        var rolled := Rolled(l, c, now);
        if rolled.start.None? {
          assert rolled.passed == 0;
          WindowOpens(Passes(rolled.out), rolled.era, c, now);
        }
        CountedWindows(if rolled.start.None? then rolled.(start := Some(now)) else rolled, c, now, op.text);
      }
    }
  }

  // ---------- every run of the limiter ----------

  ghost predicate Run(ls: seq<Log>, ops: seq<Op>, clocks: seq<int>, c: Limit) {
    && |ls| == |clocks| == |ops| + 1 && ls[0] == EMPTY && c.window > 0
    && forall k :: 0 <= k < |ops| ==>
         && Possible(ls[k], clocks[k], ops[k])
         && ls[k + 1] == Done(ls[k], c, ops[k])
         && clocks[k + 1] == Clock(clocks[k], ops[k])
  }

  lemma {:induction false} RunCounts(ls: seq<Log>, ops: seq<Op>, clocks: seq<int>, c: Limit, k: nat)
    requires Run(ls, ops, clocks, c) && k < |ls|
    ensures Counts(ls[k], c)
  {
    if k > 0 {
      RunCounts(ls, ops, clocks, c, k - 1);
      assert Possible(ls[k - 1], clocks[k - 1], ops[k - 1]);
      CountsStep(ls[k - 1], c, ops[k - 1]);
    }
  }

  lemma {:induction false} RunWindows(ls: seq<Log>, ops: seq<Op>, clocks: seq<int>, c: Limit, k: nat)
    requires Run(ls, ops, clocks, c) && k < |ls|
    ensures InWindows(ls[k], c, clocks[k])
  {
    if k > 0 {
      RunWindows(ls, ops, clocks, c, k - 1);
      RunCounts(ls, ops, clocks, c, k - 1);
      assert Possible(ls[k - 1], clocks[k - 1], ops[k - 1]);
      WindowsStep(ls[k - 1], c, clocks[k - 1], ops[k - 1]);
    }
  }

  /** Nothing is lost: at any time every line written is in the log, in a summary there, or
      still counted. What is still counted has a timer armed for the end of its window, and
      that timer reports it; after a close nothing is left to report. */
  lemma NothingIsLost(ls: seq<Log>, ops: seq<Op>, clocks: seq<int>, c: Limit, k: nat)
    requires Run(ls, ops, clocks, c) && k < |ls|
    ensures ls[k].dropped <= |ls[k].written|
    ensures Accounts(ls[k].out, ls[k].written[..|ls[k].written| - ls[k].dropped])
    ensures ls[k].dropped > 0 && !ls[k].closed ==>
              ls[k].start.Some? && ls[k].timer == Some(ls[k].start.value + c.window)
    ensures k < |ops| && (ops[k].Close? || (ops[k].Fire? && ls[k].dropped > 0 && !ls[k].closed)) ==>
              ls[k + 1].dropped == 0 && Accounts(ls[k + 1].out, ls[k + 1].written)
  {
    RunCounts(ls, ops, clocks, c, k);
    if k < |ops| {
      RunCounts(ls, ops, clocks, c, k + 1);
      assert Possible(ls[k], clocks[k], ops[k]);
      assert ls[k + 1].written[..|ls[k + 1].written|] == ls[k + 1].written;
    }
  }

  /** After a close no timer is armed any more, whatever is still written. */
  lemma {:induction false} NoTimerOnceClosed(ls: seq<Log>, ops: seq<Op>, clocks: seq<int>, c: Limit, i: nat, k: nat)
    requires Run(ls, ops, clocks, c) && i < |ops| && ops[i].Close? && i < k < |ls|
    ensures ls[k].closed && ls[k].timer.None?
  {
    assert ls[i + 1] == Done(ls[i], c, ops[i]);
    if k > i + 1 {
      NoTimerOnceClosed(ls, ops, clocks, c, i, k - 1);
      assert ls[k] == Done(ls[k - 1], c, ops[k - 1]);
    }
  }

  /** How many of the operations are closes. */
  function Closes(ops: seq<Op>): nat {
    if ops == [] then 0 else Closes(ops[..|ops| - 1]) + if ops[|ops| - 1].Close? then 1 else 0
  }

  lemma {:induction false} EraCounts(ls: seq<Log>, ops: seq<Op>, clocks: seq<int>, c: Limit, k: nat)
    requires Run(ls, ops, clocks, c) && k < |ls|
    ensures ls[k].era == Closes(ops[..k])
  {
    if k > 0 {
      EraCounts(ls, ops, clocks, c, k - 1);
      assert ops[..k][..k - 1] == ops[..k - 1];
      assert Possible(ls[k - 1], clocks[k - 1], ops[k - 1]);
    }
  }

  lemma Apart(p: seq<Pass>, start: Option<int>, passed: nat, era: nat, c: Limit, clock: int, i: nat, m: nat, j: nat)
    requires Windows(p, start, passed, era, c, clock) && 0 < c.max && i + c.max <= m <= j < |p|
    ensures !SameWindow(p[i], p[m]) && Follows(p[i], p[m], c) && (m < j ==> Follows(p[m], p[j], c))
    ensures p[i].at < p[i].since + c.window && p[m].since <= p[m].at
  {
  }

  /** A window's length lies between the opening of one line's window and a later line if more
      than `max` lines pass per close in between, and `max` more. */
  lemma {:induction false} OneWindowOn(p: seq<Pass>, start: Option<int>, passed: nat, era: nat, c: Limit, clock: int,
                                       i: nat, j: nat, closes: nat)
    requires Windows(p, start, passed, era, c, clock) && c.max > 0
    requires i + (1 + closes) * c.max <= j < |p| && p[j].era <= p[i].era + closes
    ensures p[j].at >= p[i].since + c.window
    decreases closes
  {
    assert (1 + closes) * c.max == c.max + closes * c.max;
    var m := i + c.max;
    Apart(p, start, passed, era, c, clock, i, m, j);
    hide Windows;
    if p[m].era > p[i].era {
      OneWindowOn(p, start, passed, era, c, clock, m, j, closes - 1);
    }
  }

  lemma {:induction false} TwoWindowsOn(p: seq<Pass>, start: Option<int>, passed: nat, era: nat, c: Limit, clock: int,
                                        i: nat, j: nat, closes: nat)
    requires Windows(p, start, passed, era, c, clock) && c.max > 0
    requires i + (2 + closes) * c.max <= j < |p| && p[j].era <= p[i].era + closes
    ensures p[j].at > p[i].at + c.window
    decreases closes
  {
    assert (2 + closes) * c.max == c.max + (1 + closes) * c.max;
    var m := i + c.max;
    Apart(p, start, passed, era, c, clock, i, m, j);
    hide Windows;
    if p[m].era > p[i].era {
      assert (1 + closes) * c.max == (2 + (closes - 1)) * c.max;
      TwoWindowsOn(p, start, passed, era, c, clock, m, j, closes - 1);
    } else {
      OneWindowOn(p, start, passed, era, c, clock, m, j, closes);
    }
  }

  /** With a clock that does not go back: if `closes` closes fall between two lines that pass, and
      at least `(2 + closes) * max` passes, the lines are more than a window apart. So at most
      `2 * max` lines pass in any interval of one window's length without a close in it, and `max`
      more for each close. */
  lemma FloodIsBounded(ls: seq<Log>, ops: seq<Op>, clocks: seq<int>, c: Limit,
                       k: nat, i: nat, j: nat, closes: nat, gap: nat)
    requires Run(ls, ops, clocks, c) && k < |ls| && c.max > 0
    requires gap == (2 + closes) * c.max && i + gap <= j < |Passes(ls[k].out)|
    requires Passes(ls[k].out)[j].era <= Passes(ls[k].out)[i].era + closes
    ensures Passes(ls[k].out)[j].at - Passes(ls[k].out)[i].at > c.window
  {
    RunWindows(ls, ops, clocks, c, k);
    TwoWindowsOn(Passes(ls[k].out), ls[k].start, ls[k].passed, ls[k].era, c, clocks[k], i, j, closes);
  }

  /** In particular `2 * max` until the close, and `3 * max` in a run with one. */
  lemma FloodInOneService(ls: seq<Log>, ops: seq<Op>, clocks: seq<int>, c: Limit,
                          k: nat, i: nat, j: nat, closes: nat, gap: nat)
    requires Run(ls, ops, clocks, c) && k < |ls| && c.max > 0 && Closes(ops[..k]) == closes
    requires gap == (2 + closes) * c.max && i + gap <= j < |Passes(ls[k].out)|
    ensures Passes(ls[k].out)[j].at - Passes(ls[k].out)[i].at > c.window
  {
    assert |clocks| == |ls|;
    hide Run, InWindows, Passes, Closes;
    EraCounts(ls, ops, clocks, c, k);
    RunWindows(ls, ops, clocks, c, k);
    InEra(ls[k], c, clocks[k], j);
    FloodIsBounded(ls, ops, clocks, c, k, i, j, closes, gap);
  }

  lemma InEra(l: Log, c: Limit, clock: int, j: nat)
    requires InWindows(l, c, clock) && j < |Passes(l.out)|
    ensures Passes(l.out)[j].era <= l.era
  {
  }

  // ---------- the bound is reached ----------

  ghost predicate Reached(c: Limit, l: Log, clock: int, closes: nat) {
    exists ls: seq<Log>, ops: seq<Op>, clocks: seq<int> ::
      Run(ls, ops, clocks, c) && ls[|ops|] == l && clocks[|ops|] == clock && Closes(ops) == closes
  }

  lemma Extended(ls: seq<Log>, ops: seq<Op>, clocks: seq<int>, c: Limit, op: Op)
    requires Run(ls, ops, clocks, c) && Possible(ls[|ops|], clocks[|ops|], op)
    ensures Run(ls + [Done(ls[|ops|], c, op)], ops + [op], clocks + [Clock(clocks[|ops|], op)], c)
    ensures Closes(ops + [op]) == Closes(ops) + if op.Close? then 1 else 0
  {
    hide Done, Possible;
    assert (ops + [op])[..|ops|] == ops;
    var ls', ops', clocks' := ls + [Done(ls[|ops|], c, op)], ops + [op], clocks + [Clock(clocks[|ops|], op)];
    forall k | 0 <= k < |ops'|
      ensures Possible(ls'[k], clocks'[k], ops'[k]) && ls'[k + 1] == Done(ls'[k], c, ops'[k])
      ensures clocks'[k + 1] == Clock(clocks'[k], ops'[k])
    {
    }
  }

  lemma ReachedOn(c: Limit, l: Log, clock: int, closes: nat, op: Op)
    requires Reached(c, l, clock, closes) && Possible(l, clock, op)
    ensures Reached(c, Done(l, c, op), Clock(clock, op), closes + if op.Close? then 1 else 0)
  {
    var ls: seq<Log>, ops: seq<Op>, clocks: seq<int> :|
      Run(ls, ops, clocks, c) && ls[|ops|] == l && clocks[|ops|] == clock && Closes(ops) == closes;
    Lengths(ls, ops, clocks, c);
    hide Run, Done, Possible;
    Extended(ls, ops, clocks, c, op);
    var ls', ops', clocks' := ls + [Done(l, c, op)], ops + [op], clocks + [Clock(clock, op)];
    assert ls'[|ops'|] == Done(l, c, op) && clocks'[|ops'|] == Clock(clock, op);
  }

  lemma Lengths(ls: seq<Log>, ops: seq<Op>, clocks: seq<int>, c: Limit)
    requires Run(ls, ops, clocks, c)
    ensures |ls| == |clocks| == |ops| + 1
  {
  }

  /** How many lines still pass at this time. */
  function Room(l: Log, c: Limit, at: int): int {
    if l.start.None? || at - l.start.value >= c.window then c.max else c.max - l.passed
  }

  /** Nothing is dropped so far, and all that has passed is within one window's length of 0. */
  ghost predicate Tight(l: Log, c: Limit, lines: nat) {
    && l.dropped == 0 && (l.start.None? ==> l.passed == 0)
    && |Passes(l.out)| == lines
    && forall i :: 0 <= i < lines ==> 0 <= Passes(l.out)[i].at <= c.window
  }

  lemma OneWrite(c: Limit, l: Log, lines: nat, at: int)
    requires c.window > 0 && 0 <= at <= c.window && Tight(l, c, lines) && Room(l, c, at) > 0
    ensures var v := Done(l, c, Write(at, "")); Tight(v, c, lines + 1) && Room(v, c, at) == Room(l, c, at) - 1
  {
    var start := if l.start.None? || at - l.start.value >= c.window then at else l.start.value;
    PassesMore(l.out, Line("", at, start, l.era));
    hide Passes;
  }

  lemma {:induction false} Writes(c: Limit, l: Log, lines: nat, clock: int, at: int, closes: nat, m: nat)
    returns (v: Log)
    requires c.window > 0 && 0 <= at <= c.window && clock <= at && Tight(l, c, lines) && m <= Room(l, c, at)
    requires Reached(c, l, clock, closes) && m > 0
    ensures Reached(c, v, at, closes) && Tight(v, c, lines + m) && Room(v, c, at) == Room(l, c, at) - m
    decreases m
  {
    OneWrite(c, l, lines, at);
    hide Done, Tight, Room, Reached;
    ReachedOn(c, l, clock, closes, Write(at, ""));
    v := Done(l, c, Write(at, ""));
    if m > 1 { v := Writes(c, v, lines + 1, at, at, closes, m - 1); }
  }

  lemma AfterClose(c: Limit, l: Log, lines: nat, at: int)
    requires Tight(l, c, lines)
    ensures Tight(Done(l, c, Close), c, lines) && Room(Done(l, c, Close), c, at) == c.max
  {
  }

  lemma TwoBursts(c: Limit) returns (l: Log)
    requires c.max > 0 && c.window > 0
    ensures Reached(c, l, c.window, 0) && Tight(l, c, 2 * c.max)
  {
    var none: seq<Op> := [];
    assert Run([EMPTY], none, [0], c) && [EMPTY][|none|] == EMPTY && [0][|none|] == 0 && Closes(none) == 0;
    assert Reached(c, EMPTY, 0, 0) && Tight(EMPTY, c, 0) && Room(EMPTY, c, 0) == c.max;
    var first := Writes(c, EMPTY, 0, 0, 0, 0, c.max);
    assert Room(first, c, c.window) == c.max by { FullAgain(c, first); }
    l := Writes(c, first, c.max, 0, c.window, 0, c.max);
  }

  lemma FullAgain(c: Limit, l: Log)
    requires c.max > 0 && c.window > 0 && Reached(c, l, 0, 0) && Room(l, c, 0) == 0
    ensures Room(l, c, c.window) == c.max
  {
    assert l.start.Some?;
    var ls: seq<Log>, ops: seq<Op>, clocks: seq<int> :|
      Run(ls, ops, clocks, c) && ls[|ops|] == l && clocks[|ops|] == 0 && Closes(ops) == 0;
    RunWindows(ls, ops, clocks, c, |ops|);
    assert l.start.value <= 0;
  }

  lemma {:induction false} Bursts(c: Limit, closes: nat) returns (l: Log)
    requires c.max > 0 && c.window > 0
    ensures Reached(c, l, c.window, closes) && Tight(l, c, (2 + closes) * c.max)
  {
    if closes == 0 {
      l := TwoBursts(c);
    } else {
      var before := Bursts(c, closes - 1);
      var lines: nat := (2 + (closes - 1)) * c.max;
      AfterClose(c, before, lines, c.window);
      hide Done, Tight, Room, Reached;
      ReachedOn(c, before, c.window, closes - 1, Close);
      l := Writes(c, Done(before, c, Close), lines, c.window, c.window, closes, c.max);
      assert lines + c.max == (2 + closes) * c.max;
    }
  }

  /** For every limit and every number of closes there is a run in which that many lines pass within
      one window's length. */
  lemma FloodIsReached(c: Limit, closes: nat) returns (ls: seq<Log>, ops: seq<Op>, clocks: seq<int>)
    requires c.max > 0 && c.window > 0
    ensures Run(ls, ops, clocks, c) && Closes(ops) == closes
    ensures |Passes(ls[|ops|].out)| == (2 + closes) * c.max
    ensures forall i, j :: 0 <= i <= j < (2 + closes) * c.max ==>
              Passes(ls[|ops|].out)[j].at - Passes(ls[|ops|].out)[i].at <= c.window
  {
    var l := Bursts(c, closes);
    var ls': seq<Log>, ops': seq<Op>, clocks': seq<int> :|
      Run(ls', ops', clocks', c) && ls'[|ops'|] == l && clocks'[|ops'|] == c.window && Closes(ops') == closes;
    ls, ops, clocks := ls', ops', clocks';
    hide Run, Closes, Passes;
  }

  /** In every run with that many closes at most `bound` lines pass in an interval of one window's
      length: of more, the outer two are further apart. */
  ghost predicate Bounds(c: Limit, closes: nat, bound: nat) {
    forall ls: seq<Log>, ops: seq<Op>, clocks: seq<int>, k: nat, i: nat, j: nat ::
      Run(ls, ops, clocks, c) && Closes(ops) == closes && k < |ls| && Beyond(ls[k], i, j, bound) ==>
        Further(ls[k], i, j, c)
  }

  predicate Beyond(l: Log, i: nat, j: nat, bound: nat) {
    i + bound <= j < |Passes(l.out)|
  }

  predicate Further(l: Log, i: nat, j: nat, c: Limit) {
    i <= j < |Passes(l.out)| && Passes(l.out)[j].at - Passes(l.out)[i].at > c.window
  }

  lemma {:induction false} FewerCloses(ops: seq<Op>, k: nat)
    requires k <= |ops|
    ensures Closes(ops[..k]) <= Closes(ops)
    decreases |ops|
  {
    if k == |ops| {
      assert ops[..k] == ops;
    } else {
      assert ops[..|ops| - 1][..k] == ops[..k];
      FewerCloses(ops[..|ops| - 1], k);
    }
  }

  lemma BoundHolds(c: Limit, closes: nat, bound: nat, gap: nat,
                   ls: seq<Log>, ops: seq<Op>, clocks: seq<int>, k: nat, i: nat, j: nat)
    requires c.max > 0 && gap == (2 + closes) * c.max && gap <= bound
    requires Run(ls, ops, clocks, c) && Closes(ops) == closes && k < |ls| && Beyond(ls[k], i, j, bound)
    ensures Further(ls[k], i, j, c)
  {
    Lengths(ls, ops, clocks, c);
    hide Run, Closes, Passes, InWindows;
    FewerCloses(ops, k);
    EraCounts(ls, ops, clocks, c, k);
    RunWindows(ls, ops, clocks, c, k);
    InEra(ls[k], c, clocks[k], j);
    FloodIsBounded(ls, ops, clocks, c, k, i, j, closes, gap);
  }

  /** How many lines may pass in an interval of one window's length, in runs with that many closes:
      `(2 + closes) * max`, and no less. */
  lemma FloodExactly(c: Limit, closes: nat, bound: nat)
    requires c.max > 0 && c.window > 0
    ensures Bounds(c, closes, bound) <==> bound >= (2 + closes) * c.max
  {
    var gap: nat := (2 + closes) * c.max;
    if bound >= gap {
      forall ls: seq<Log>, ops: seq<Op>, clocks: seq<int>, k: nat, i: nat, j: nat
        | Run(ls, ops, clocks, c) && Closes(ops) == closes && k < |ls| && Beyond(ls[k], i, j, bound)
        ensures Further(ls[k], i, j, c)
      {
        BoundHolds(c, closes, bound, gap, ls, ops, clocks, k, i, j);
      }
    } else {
      var ls, ops, clocks := FloodIsReached(c, closes);
      Lengths(ls, ops, clocks, c);
      assert Beyond(ls[|ops|], 0, bound, bound) && !Further(ls[|ops|], 0, bound, c);
    }
  }

  /** `limitedLog`, one method per locked section; `out` is what its logger has printed. */
  class LimitedLog {
    const max: nat
    const window: int
    var start: Option<int>
    var passed: nat
    var dropped: nat
    var timer: Option<int>
    var closed: bool
    var out: seq<Entry>
    var era: nat
    ghost var written: seq<string>

    ghost function Snapshot(): Log
      reads this
    {
      Log(start, passed, dropped, timer, closed, out, era, written)
    }

    ghost function Config(): Limit {
      Limit(max, window)
    }

    constructor (max: nat, window: int)
      ensures Snapshot() == EMPTY && Config() == Limit(max, window)
    {
      this.max, this.window := max, window;
      start, passed, dropped, timer, closed, out, era, written := None, 0, 0, None, false, [], 0, [];
    }

    method Write(now: int, text: string)
      modifies this
      ensures Snapshot() == Wrote(old(Snapshot()), Config(), now, text)
    {
      Roll(now);
      if start.None? {
        start := Some(now);
      }
      written := written + [text];
      if passed < max {
        passed := passed + 1;
        out := out + [Line(text, now, start.value, era)];
        return;
      }
      if dropped == 0 && !closed {
        timer := Some(start.value + window);
      }
      dropped := dropped + 1;
    }

    method Roll(now: int)
      modifies this
      ensures Snapshot() == Rolled(old(Snapshot()), Config(), now)
    {
      if start.None? || now - start.value < window {
        return;
      }
      Summarise();
      start := None;
    }

    method Summarise()
      modifies this
      ensures Snapshot() == Summarised(old(Snapshot()))
    {
      if dropped > 0 {
        out := out + [Summary(dropped)];
      }
      passed, dropped := 0, 0;
    }

    /** The timer; `armed` unless it had been stopped too late. */
    method Expire(now: int, armed: bool)
      modifies this
      ensures Snapshot() == Rolled(if armed then old(Snapshot()).(timer := None) else old(Snapshot()), Config(), now)
    {
      if armed {
        timer := None;
      }
      Roll(now);
    }

    method Close()
      modifies this
      ensures Snapshot() == Closed(old(Snapshot()))
    {
      closed := true;
      timer := None;
      era := era + 1;
      Summarise();
      start := None;
    }
  }

  // ---------- the desktop's relay ----------

  /** What the relay's wait ends with: a line, or (while it counts dropped ones) its timer. */
  datatype Item = Arrives(now: int, text: string) | Elapses(now: int)

  function Texts(items: seq<Item>): seq<string>
    decreases |items|
  {
    if items == [] then []
    else
      var last := items[|items| - 1];
      Texts(items[..|items| - 1]) + if last.Arrives? then [last.text] else []
  }

  ghost predicate Forward(items: seq<Item>, from: int) {
    && (items != [] ==> from <= items[0].now)
    && forall i, j :: 0 <= i < j < |items| ==> items[i].now <= items[j].now
  }

  datatype Relay = Relay(log: seq<Entry>, since: int, written: nat, dropped: nat)

  function Reported(r: Relay): Relay {
    r.(log := Said(r.log, r.dropped), dropped := 0)
  }

  function Took(r: Relay, item: Item, c: Limit): Relay {
    var rolled := if item.now >= r.since + c.window then Reported(r) else r;
    match item
    case Elapses(_) => rolled
    case Arrives(now, text) =>
      var current := if now >= r.since + c.window then rolled.(since := now, written := 0) else rolled;
      if current.written < c.max then
        current.(log := current.log + [Line(text, now, current.since, 0)], written := current.written + 1)
      else current.(dropped := current.dropped + 1)
  }

  /** The relay after these items. */
  function Relayed(items: seq<Item>, opening: int, c: Limit): Relay
    decreases |items|
  {
    if items == [] then Relay([], opening, 0, 0)
    else Took(Relayed(items[..|items| - 1], opening, c), items[|items| - 1], c)
  }

  /** Its log at the end. */
  function RelayLog(items: seq<Item>, opening: int, c: Limit): seq<Entry> {
    Reported(Relayed(items, opening, c)).log
  }

  method RelayStderr(items: seq<Item>, opening: int, limit: nat, window: int) returns (log: seq<Entry>)
    ensures log == RelayLog(items, opening, Limit(limit, window))
  {
    var since, written, dropped := opening, 0, 0;
    log := [];
    var k := 0;
    while k < |items|
      invariant k <= |items|
      invariant Relay(log, since, written, dropped) == Relayed(items[..k], opening, Limit(limit, window))
    {
      var item := items[k];
      assert items[..k + 1][..k] == items[..k];
      if item.now >= since + window {
        if dropped > 0 {
          log := log + [Summary(dropped)];
          dropped := 0;
        }
        if item.Arrives? {
          since, written := item.now, 0;
        }
      }
      if item.Arrives? {
        if written < limit {
          log := log + [Line(item.text, item.now, since, 0)];
          written := written + 1;
        } else {
          dropped := dropped + 1;
        }
      }
      k := k + 1;
    }
    assert items[..k] == items;
    if dropped > 0 {
      log := log + [Summary(dropped)];
    }
  }

  ghost predicate Relaying(r: Relay, texts: seq<string>, c: Limit, clock: int) {
    && AllBut(r.log, texts, r.dropped) && (r.dropped > 0 ==> r.written >= c.max)
    && Windows(Passes(r.log), Some(r.since), r.written, 0, c, clock)
  }

  lemma ReportedRelays(r: Relay, texts: seq<string>, c: Limit, clock: int)
    requires Relaying(r, texts, c, clock)
    ensures Relaying(Reported(r), texts, c, clock)
  {
    hide Windows;
    SummaryAccounts(r.log, texts, r.dropped);
  }

  lemma WaitRelays(r: Relay, texts: seq<string>, c: Limit, clock: int, now: int)
    requires Relaying(r, texts, c, clock) && clock <= now
    ensures Relaying(r, texts, c, now)
  {
    WindowStays(Passes(r.log), Some(r.since), r.written, 0, c, clock, now);
  }

  lemma OpenRelays(r: Relay, texts: seq<string>, c: Limit, now: int)
    requires Relaying(r, texts, c, now) && c.window > 0 && now >= r.since + c.window && r.dropped == 0
    ensures Relaying(r.(since := now, written := 0), texts, c, now)
  {
    hide Accounts;
    WindowCloses(Passes(r.log), r.since, r.written, 0, c, now, now);
    WindowOpens(Passes(r.log), 0, c, now);
  }

  lemma LineRelays(r: Relay, texts: seq<string>, text: string, c: Limit, now: int)
    requires Relaying(r, texts, c, now) && c.window > 0 && now < r.since + c.window
    ensures if r.written < c.max then
              Relaying(r.(log := r.log + [Line(text, now, r.since, 0)], written := r.written + 1),
                       texts + [text], c, now)
            else Relaying(r.(dropped := r.dropped + 1), texts + [text], c, now)
  {
    if r.written < c.max {
      LinePasses(Passes(r.log), r.since, r.written, 0, c, now);
      hide Windows, Accounts;
      PassAccounts(r.log, texts, text, now, r.since, 0);
    } else {
      hide Windows, Accounts;
      DropAccounts(r.log, texts, r.dropped, text);
    }
  }

  lemma ArrivalRelays(r: Relay, texts: seq<string>, text: string, c: Limit, now: int)
    requires Relaying(r, texts, c, now) && c.window > 0 && now < r.since + c.window
    ensures Relaying(Took(r, Arrives(now, text), c), texts + [text], c, now)
  {
    hide Relaying, Said;
    LineRelays(r, texts, text, c, now);
  }

  /** A line after the window's end is taken like one in a window that opens with it. */
  lemma LateIsFirst(r: Relay, text: string, c: Limit, now: int)
    requires c.window > 0 && now >= r.since + c.window
    ensures Took(r, Arrives(now, text), c) == Took(Reported(r).(since := now, written := 0), Arrives(now, text), c)
  {
    hide Said;
  }

  lemma TookRelays(r: Relay, texts: seq<string>, item: Item, c: Limit, clock: int)
    requires Relaying(r, texts, c, clock) && c.window > 0 && clock <= item.now
    ensures Relaying(Took(r, item, c), texts + (if item.Arrives? then [item.text] else []), c, item.now)
  {
    WaitRelays(r, texts, c, clock, item.now);
    ReportedRelays(r, texts, c, item.now);
    assert Reported(r).dropped == 0 && Reported(r).since == r.since;
    if item.Elapses? {
      assert texts + [] == texts;
    } else if item.now < r.since + c.window {
      hide Relaying, Took, Reported;
      ArrivalRelays(r, texts, item.text, c, item.now);
    } else {
      LateIsFirst(r, item.text, c, item.now);
      hide Relaying, Took, Reported;
      OpenRelays(Reported(r), texts, c, item.now);
      ArrivalRelays(Reported(r).(since := item.now, written := 0), texts, item.text, c, item.now);
    }
  }

  lemma {:induction false} RelayedMeans(items: seq<Item>, opening: int, c: Limit)
    requires c.window > 0 && Forward(items, opening)
    ensures Relaying(Relayed(items, opening, c), Texts(items), c,
                     if items == [] then opening else items[|items| - 1].now)
    decreases |items|
  {
    if items == [] {
      var none: seq<Entry> := [];
      assert AllBut(none, [], 0);
    } else {
      var front := items[..|items| - 1];
      RelayedMeans(front, opening, c);
      TookRelays(Relayed(front, opening, c), Texts(front), items[|items| - 1], c,
                 if front == [] then opening else front[|front| - 1].now);
    }
  }

  /** Every line of the sidecar's stderr is in the log or in one of its summaries, exactly once and
      in order; at most `max` lines pass per window, and windows do not overlap. */
  lemma RelayIsFaithful(items: seq<Item>, opening: int, c: Limit)
    requires c.window > 0 && Forward(items, opening)
    ensures Accounts(RelayLog(items, opening, c), Texts(items))
    ensures var p := Passes(RelayLog(items, opening, c));
            && (forall i :: 0 <= i < |p| ==> p[i].since <= p[i].at < p[i].since + c.window)
            && (forall i, j :: 0 <= i < j < |p| ==> p[i].since == p[j].since || p[i].since + c.window <= p[j].since)
            && (forall i, j :: 0 <= i && i + c.max <= j < |p| && i < j ==> p[i].since + c.window <= p[j].since)
  {
    var r := Relayed(items, opening, c);
    var clock := if items == [] then opening else items[|items| - 1].now;
    RelayedMeans(items, opening, c);
    ReportedRelays(r, Texts(items), c, clock);
    assert Texts(items)[..|Texts(items)|] == Texts(items);
    hide Accounts, Relayed, Texts, Passes, Reported;
    WindowsApart(Reported(r), Texts(items), c, clock);
  }

  lemma WindowsApart(r: Relay, lines: seq<string>, c: Limit, clock: int)
    requires Relaying(r, lines, c, clock)
    ensures var p := Passes(r.log);
            && (forall i :: 0 <= i < |p| ==> p[i].since <= p[i].at < p[i].since + c.window)
            && (forall i, j :: 0 <= i < j < |p| ==> p[i].since == p[j].since || p[i].since + c.window <= p[j].since)
            && (forall i, j :: 0 <= i && i + c.max <= j < |p| && i < j ==> p[i].since + c.window <= p[j].since)
  {
    hide Passes, AllBut;
    var p := Passes(r.log);
    forall i, j | 0 <= i < j < |p|
      ensures p[i].since == p[j].since || p[i].since + c.window <= p[j].since
      ensures i + c.max <= j ==> p[i].since + c.window <= p[j].since
    {
      assert Follows(p[i], p[j], c) && p[i].era == 0 && p[j].era == 0;
      assert i + c.max <= j ==> !SameWindow(p[i], p[j]);
    }
  }

  /** What a window dropped is reported when the timer goes off at its end, not with a later line:
      from then on the log accounts for all that came before. */
  lemma TimerReports(items: seq<Item>, opening: int, c: Limit, k: nat)
    requires c.window > 0 && Forward(items, opening) && k < |items|
    requires items[k].Elapses? && items[k].now >= Relayed(items[..k], opening, c).since + c.window
    ensures var then_ := Relayed(items[..k + 1], opening, c);
            && then_.dropped == 0 && Accounts(then_.log, Texts(items[..k]))
            && then_.log <= RelayLog(items, opening, c)
  {
    assert items[..k + 1][..k] == items[..k];
    RelayedMeans(items[..k], opening, c);
    var r := Relayed(items[..k], opening, c);
    SummaryAccounts(r.log, Texts(items[..k]), r.dropped);
    assert Texts(items[..k])[..|Texts(items[..k])|] == Texts(items[..k]);
    LogGrows(items, opening, c, k + 1);
  }

  lemma {:induction false} LogGrows(items: seq<Item>, opening: int, c: Limit, k: nat)
    requires k <= |items|
    ensures Relayed(items[..k], opening, c).log <= Relayed(items, opening, c).log
    decreases |items|
  {
    if k == |items| {
      assert items[..k] == items;
    } else {
      var front := items[..|items| - 1];
      assert front[..k] == items[..k];
      LogGrows(front, opening, c, k);
    }
  }
}
