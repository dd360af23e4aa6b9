/** The browser's view of a run: a deduplicating fold over reconnecting event streams. */
module Client {
  import opened Store
  import opened Stream

  datatype UiStatus = Waiting | Working | Finished | Broken

  datatype Item = Item(seqNo: nat, kind: Kind, caption: Option<string>)

  datatype Message = Message(seqNo: nat, steps: seq<Item>, status: UiStatus, text: string, worker: Option<string>)

  const WARNING := "\U{26A0}\U{FE0F} "

  // The page registers no listener for run_cancelled.
  predicate Listened(e: Doc) {
    !e.kind.RunCancelled?
  }

  predicate IsStep(e: Doc) {
    e.kind.ModelTurn? || e.kind.ToolCall? || e.kind.ToolResult?
  }

  // The plain effect of one event on the message.
  function Update(m: Message, e: Doc): Message {
    var steps := if IsStep(e) then m.steps + [Item(e.seqNo, e.kind, e.detail)] else m.steps;
    var m' := m.(seqNo := e.seqNo, steps := steps);
    match e.kind
    case RunStarted => m'.(status := Working, worker := if e.detail.Some? then e.detail else m.worker)
    case RunDone => m'.(status := Finished, text := if e.detail.Some? then e.detail.value else "Done.")
    case RunFailed => m'.(status := Broken, text := WARNING + if e.detail.Some? then e.detail.value else "The run failed.")
    case _ => m'
  }

  // The handler: drop what was seen, apply the rest.
  function OnEvent(m: Message, e: Doc): Message {
    if !Listened(e) || e.seqNo <= m.seqNo then m else Update(m, e)
  }

  predicate Closes(e: Doc) {
    e.kind.RunDone? || e.kind.RunFailed?
  }

  // The page's state for one run: its message, and whether it still listens.
  datatype Page = Page(message: Message, open: bool)

  function Receive(p: Page, e: Doc): Page {
    if !p.open then p else Page(OnEvent(p.message, e), !Closes(e))
  }

  function ReceiveAll(p: Page, es: seq<Doc>): Page
    decreases |es|
  {
    if es == [] then p else ReceiveAll(Receive(p, es[0]), es[1..])
  }

  const EMPTY := Message(0, [], Waiting, "", None)

  // The plain fold over the listened-to events of the log up to a sequence number.
  function Fold(log: seq<Doc>, upTo: nat): Message {
    if log == [] then EMPTY
    else
      var front, e := log[..|log| - 1], log[|log| - 1];
      if Listened(e) && e.seqNo <= upTo then Update(Fold(front, upTo), e) else Fold(front, upTo)
  }

  predicate Agrees(log: seq<Doc>, m: Message) {
    m == Fold(log, m.seqNo)
  }

  // No listened-to event lies in between.
  predicate Adjacent(log: seq<Doc>, low: nat, high: nat) {
    forall d :: d in log && Listened(d) ==> d.seqNo <= low || d.seqNo >= high
  }

  lemma {:induction false} FoldStable(log: seq<Doc>, low: nat, high: nat)
    requires low <= high && forall d :: d in log && Listened(d) ==> d.seqNo <= low || d.seqNo > high
    ensures Fold(log, low) == Fold(log, high)
  {
    if log != [] {
      var front := log[..|log| - 1];
      assert log[|log| - 1] in log && forall d :: d in front ==> d in log;
      FoldStable(front, low, high);
    }
  }

  lemma {:induction false} FoldNext(log: seq<Doc>, low: nat, e: Doc)
    requires Ascending(log) && e in log && Listened(e) && low < e.seqNo && Adjacent(log, low, e.seqNo)
    ensures Fold(log, e.seqNo) == Update(Fold(log, low), e)
  {
    var front, last := log[..|log| - 1], log[|log| - 1];
    assert log == front + [last];
    if last == e {
      FoldStable(front, low, e.seqNo);
    } else {
      FoldNext(front, low, e);
    }
  }

  // The listened-to part of a slice: nothing that is listened to is left out.
  predicate Heard(log: seq<Doc>, start: nat, part: seq<Doc>) {
    && Ascending(part)
    && (forall e :: e in part ==> e in log && start < e.seqNo)
    && (forall d, e :: d in log && Listened(d) && e in part && start < d.seqNo <= e.seqNo ==> d in part)
  }

  // Receiving the next event of a stream that started at or before what was seen.
  lemma ReceiveKeeps(log: seq<Doc>, start: nat, part: seq<Doc>, p: Page)
    requires Ascending(log) && Agrees(log, p.message)
    requires part != [] && Heard(log, start, part) && start <= p.message.seqNo
    ensures Agrees(log, Receive(p, part[0]).message)
  {
    var e := part[0];
    FirstAndRest(part);
    if p.open && Listened(e) && p.message.seqNo < e.seqNo {
      FoldNext(log, p.message.seqNo, e);
    }
  }

  lemma RestIsHeard(log: seq<Doc>, start: nat, part: seq<Doc>)
    requires part != [] && Heard(log, start, part)
    ensures Heard(log, if Listened(part[0]) then part[0].seqNo else start, part[1..])
  {
    FirstAndRest(part);
  }

  lemma {:induction false} StreamKeeps(log: seq<Doc>, start: nat, part: seq<Doc>, p: Page)
    requires Ascending(log) && Agrees(log, p.message)
    requires Heard(log, start, part) && start <= p.message.seqNo
    ensures Agrees(log, ReceiveAll(p, part).message)
    ensures ReceiveAll(p, part).message.seqNo >= p.message.seqNo
    decreases |part|
  {
    if !p.open {
      ClosedPage(p, part);
    } else if part != [] {
      var p' := Receive(p, part[0]);
      ReceiveKeeps(log, start, part, p);
      RestIsHeard(log, start, part);
      StreamKeeps(log, if Listened(part[0]) then part[0].seqNo else start, part[1..], p');
    }
  }

  lemma {:induction false} ClosedPage(p: Page, part: seq<Doc>)
    requires !p.open
    ensures ReceiveAll(p, part) == p
    decreases |part|
  {
    if part != [] {
      ClosedPage(p, part[1..]);
    }
  }

  // One connection: the lastSeq it asked for, and what of its stream arrived.
  datatype Connection = Connection(start: nat, received: seq<Doc>)

  function Reconnect(p: Page, cs: seq<Connection>): Page {
    if cs == [] then p else ReceiveAll(Reconnect(p, cs[..|cs| - 1]), cs[|cs| - 1].received)
  }

  // Each connection starts at or before what the page has seen by then, and delivers
  // without gaps as far as it gets.
  predicate GoodConnections(log: seq<Doc>, p: Page, cs: seq<Connection>) {
    cs == [] ||
    var last := cs[|cs| - 1];
    && GoodConnections(log, p, cs[..|cs| - 1])
    && Heard(log, last.start, last.received)
    && last.start <= Reconnect(p, cs[..|cs| - 1]).message.seqNo
  }

  /** Main result. After any number of reconnects whose streams overlap arbitrarily, break off
      anywhere, and start at or before what the page has seen, the page's message (its steps,
      status, text and worker) is the plain fold over the listened-to events of the log, up to
      its own sequence number; and no step occurs twice. */
  lemma {:induction false} ViewAgreesWithLog(log: seq<Doc>, cs: seq<Connection>)
    requires Ascending(log) && (forall e :: e in log ==> e.seqNo > 0)
    requires GoodConnections(log, Page(EMPTY, true), cs)
    ensures var m := Reconnect(Page(EMPTY, true), cs).message;
            Agrees(log, m) && Shows(log, m.seqNo, m)
  {
    if cs == [] {
      FoldOfNothing(log);
    } else {
      var before, last := Reconnect(Page(EMPTY, true), cs[..|cs| - 1]), cs[|cs| - 1];
      ViewAgreesWithLog(log, cs[..|cs| - 1]);
      StreamKeeps(log, last.start, last.received, before);
    }
    FoldShows(log, Reconnect(Page(EMPTY, true), cs).message.seqNo);
  }

  predicate NoDuplicates(m: Message) {
    && (forall i, k :: 0 <= i < k < |m.steps| ==> m.steps[i].seqNo < m.steps[k].seqNo)
    && (forall i :: 0 <= i < |m.steps| ==> m.steps[i].seqNo <= m.seqNo)
  }

  lemma {:induction false} FoldOfNothing(log: seq<Doc>)
    requires forall e :: e in log ==> e.seqNo > 0
    ensures Fold(log, 0) == EMPTY
  {
    if log != [] {
      assert log[|log| - 1] in log && forall e :: e in log[..|log| - 1] ==> e in log;
      FoldOfNothing(log[..|log| - 1]);
    }
  }

  lemma {:induction false} FoldSteps(log: seq<Doc>, n: nat)
    requires Ascending(log)
    ensures NoDuplicates(Fold(log, n))
    ensures Fold(log, n) == EMPTY || (log != [] && Fold(log, n).seqNo <= log[|log| - 1].seqNo)
  {
    if log != [] {
      FoldSteps(log[..|log| - 1], n);
    }
  }

  // ---------- nothing that arrives is ignored ----------

  lemma {:induction false} PartIsHeeded(p: Page, part: seq<Doc>)
    requires p.open
    ensures var q := ReceiveAll(p, part);
            && q.message.seqNo >= p.message.seqNo
            && (q.open <==> forall e :: e in part ==> e.kind != RunDone && e.kind != RunFailed)
            && (q.open ==> forall e :: e in part && e.kind != RunCancelled ==> e.seqNo <= q.message.seqNo)
            && (!q.open ==> exists e :: e in part && Closes(e) && e.seqNo <= q.message.seqNo)
    decreases |part|
  {
    if part != [] {
      var p', rest := Receive(p, part[0]), part[1..];
      assert part == [part[0]] + rest;
      if p'.open {
        PartIsHeeded(p', rest);
      } else {
        ClosedPage(p', rest);
        assert part[0] in part;
      }
    }
  }

  /** The page stays open until a run_done or run_failed arrives; as long as it is open its number has
      reached every listened-to event that arrived, and when it closes it has reached the final one. */
  lemma {:induction false} ArrivalsAreHeeded(cs: seq<Connection>)
    ensures var q := Reconnect(Page(EMPTY, true), cs);
            && (q.open <==> forall i, e :: 0 <= i < |cs| && e in cs[i].received ==> e.kind != RunDone && e.kind != RunFailed)
            && (q.open ==> forall i, e :: 0 <= i < |cs| && e in cs[i].received && e.kind != RunCancelled ==> e.seqNo <= q.message.seqNo)
            && (!q.open ==> exists i, e :: 0 <= i < |cs| && e in cs[i].received && Closes(e) && e.seqNo <= q.message.seqNo)
  {
    if cs != [] {
      var front, last := cs[..|cs| - 1], cs[|cs| - 1];
      ArrivalsAreHeeded(front);
      var p := Reconnect(Page(EMPTY, true), front);
      if p.open {
        PartIsHeeded(p, last.received);
      } else {
        ClosedPage(p, last.received);
        var i, e :| 0 <= i < |front| && e in front[i].received && Closes(e) && e.seqNo <= p.message.seqNo;
        assert cs[i] == front[i];
      }
    }
  }

  // ---------- what the message shows ----------

  datatype Topic = Status | Text | Worker

  // The kinds of event that say something on the topic.
  predicate Tells(topic: Topic, e: Doc) {
    match topic
    case Status => e.kind == RunStarted || e.kind == RunDone || e.kind == RunFailed
    case Text => e.kind == RunDone || e.kind == RunFailed
    case Worker => e.kind == RunStarted && e.detail.Some?
  }

  // The k-th event is the last one up to number n on this topic.
  predicate LastOf(log: seq<Doc>, n: nat, topic: Topic, k: int) {
    && 0 <= k < |log| && Tells(topic, log[k]) && log[k].seqNo <= n
    && forall i :: k < i < |log| && log[i].seqNo <= n ==> !Tells(topic, log[i])
  }

  predicate NoneOf(log: seq<Doc>, n: nat, topic: Topic) {
    forall i :: 0 <= i < |log| && log[i].seqNo <= n ==> !Tells(topic, log[i])
  }

  predicate IsStepKind(k: Kind) {
    k == ModelTurn || k == ToolCall || k == ToolResult
  }

  // Done, failed or running as the last event says that tells it; waiting before any does.
  ghost predicate ShowsStatus(log: seq<Doc>, n: nat, status: UiStatus) {
    && (NoneOf(log, n, Status) ==> status == Waiting)
    && forall k :: LastOf(log, n, Status, k) ==>
         status == (if log[k].kind == RunDone then Finished else if log[k].kind == RunFailed then Broken else Working)
  }

  // The summary of a finished run, the error of a failed one.
  ghost predicate ShowsText(log: seq<Doc>, n: nat, text: string) {
    && (NoneOf(log, n, Text) ==> text == "")
    && forall k :: LastOf(log, n, Text, k) ==>
         text == TextOf(log[k])
  }

  function TextOf(e: Doc): string {
    if e.kind == RunDone then SummaryOf(e) else ErrorOf(e)
  }

  function SummaryOf(e: Doc): string {
    if e.detail == None then "Done." else e.detail.value
  }

  function ErrorOf(e: Doc): string {
    WARNING + if e.detail == None then "The run failed." else e.detail.value
  }

  // The worker that last named itself.
  ghost predicate ShowsWorker(log: seq<Doc>, n: nat, worker: Option<string>) {
    && (NoneOf(log, n, Worker) ==> worker == None)
    && forall k :: LastOf(log, n, Worker, k) ==> worker == log[k].detail
  }

  // Exactly the model turns, tool calls and tool results.
  predicate ShowsSteps(log: seq<Doc>, n: nat, steps: seq<Item>) {
    && (forall x :: x in steps ==> Doc(x.seqNo, x.kind, x.caption) in log && IsStepKind(x.kind) && x.seqNo <= n)
    && (forall i :: 0 <= i < |log| && IsStepKind(log[i].kind) && log[i].seqNo <= n ==>
          Item(log[i].seqNo, log[i].kind, log[i].detail) in steps)
  }

  ghost predicate Shows(log: seq<Doc>, n: nat, m: Message) {
    && ShowsStatus(log, n, m.status) && ShowsText(log, n, m.text) && ShowsWorker(log, n, m.worker)
    && ShowsSteps(log, n, m.steps) && NoDuplicates(m)
  }

  // One more event: it is the last on the topic, or nothing changes.
  lemma OneMoreEvent(log: seq<Doc>, n: nat, topic: Topic)
    requires log != []
    ensures var front, e := log[..|log| - 1], log[|log| - 1];
            if e.seqNo <= n && Tells(topic, e) then
              !NoneOf(log, n, topic) && forall k :: LastOf(log, n, topic, k) ==> k == |log| - 1
            else (NoneOf(log, n, topic) <==> NoneOf(front, n, topic)) && forall k :: LastOf(log, n, topic, k) ==> LastOf(front, n, topic, k)
  {
    var front := log[..|log| - 1];
    forall k | LastOf(log, n, topic, k) && k < |front|
      ensures LastOf(front, n, topic, k) && log[|log| - 1] == log[|front|]
    {
      assert forall i :: 0 <= i < |front| ==> front[i] == log[i];
    }
  }

  lemma StatusGrows(log: seq<Doc>, n: nat, m: Message)
    requires log != [] && ShowsStatus(log[..|log| - 1], n, m.status)
    ensures var e := log[|log| - 1]; ShowsStatus(log, n, if e.seqNo <= n then Update(m, e).status else m.status)
  {
    OneMoreEvent(log, n, Status);
    assert forall k :: 0 <= k < |log| - 1 ==> log[..|log| - 1][k] == log[k];
  }

  lemma TextGrows(log: seq<Doc>, n: nat, m: Message)
    requires log != [] && ShowsText(log[..|log| - 1], n, m.text)
    ensures var e := log[|log| - 1]; ShowsText(log, n, if e.seqNo <= n then Update(m, e).text else m.text)
  {
    var front, e := log[..|log| - 1], log[|log| - 1];
    OneMoreEvent(log, n, Text);
    if e.seqNo <= n && Tells(Text, e) {
      assert Update(m, e).text == TextOf(e);
    } else {
      assert e.seqNo <= n ==> Update(m, e).text == m.text;
      forall k | LastOf(log, n, Text, k)
        ensures m.text == TextOf(log[k])
      {
        assert LastOf(front, n, Text, k) && front[k] == log[k];
      }
    }
  }

  lemma WorkerGrows(log: seq<Doc>, n: nat, m: Message)
    requires log != [] && ShowsWorker(log[..|log| - 1], n, m.worker)
    ensures var e := log[|log| - 1]; ShowsWorker(log, n, if e.seqNo <= n then Update(m, e).worker else m.worker)
  {
    OneMoreEvent(log, n, Worker);
    assert forall k :: 0 <= k < |log| - 1 ==> log[..|log| - 1][k] == log[k];
  }

  lemma {:induction false} FoldTells(log: seq<Doc>, n: nat)
    ensures ShowsStatus(log, n, Fold(log, n).status)
    ensures ShowsText(log, n, Fold(log, n).text)
    ensures ShowsWorker(log, n, Fold(log, n).worker)
  {
    if log != [] {
      var m := Fold(log[..|log| - 1], n);
      FoldTells(log[..|log| - 1], n);
      StatusGrows(log, n, m);
      TextGrows(log, n, m);
      WorkerGrows(log, n, m);
    }
  }

  lemma {:induction false} FoldLists(log: seq<Doc>, n: nat)
    ensures ShowsSteps(log, n, Fold(log, n).steps)
  {
    if log != [] {
      var front, e := log[..|log| - 1], log[|log| - 1];
      FoldLists(front, n);
      assert log == front + [e];
      if IsStepKind(e.kind) && e.seqNo <= n {
        NewStep(front, e, n, Fold(front, n).steps);
      } else {
        NoStep(front, e, n, Fold(front, n).steps);
      }
    }
  }

  /** What the fold means, event by event: its status is what the last run_started, run_done or
      run_failed says, its text the summary or the error of the last run_done or run_failed, its worker
      the last one that named itself, and its steps are exactly the turns, calls and results, in order. */
  lemma FoldShows(log: seq<Doc>, n: nat)
    requires Ascending(log)
    ensures Shows(log, n, Fold(log, n))
  {
    FoldTells(log, n);
    FoldLists(log, n);
    FoldSteps(log, n);
  }

  lemma NewStep(front: seq<Doc>, e: Doc, n: nat, steps: seq<Item>)
    requires ShowsSteps(front, n, steps) && IsStepKind(e.kind) && e.seqNo <= n
    ensures ShowsSteps(front + [e], n, steps + [Item(e.seqNo, e.kind, e.detail)])
  {
    var item := Item(e.seqNo, e.kind, e.detail);
    forall x | x in steps + [item]
      ensures Doc(x.seqNo, x.kind, x.caption) in front + [e] && IsStepKind(x.kind) && x.seqNo <= n
    {
      if x in steps {
        assert Doc(x.seqNo, x.kind, x.caption) in front;
      } else {
        assert x == item && Doc(x.seqNo, x.kind, x.caption) == e;
      }
    }
  }

  lemma NoStep(front: seq<Doc>, e: Doc, n: nat, steps: seq<Item>)
    requires ShowsSteps(front, n, steps) && !(IsStepKind(e.kind) && e.seqNo <= n)
    ensures ShowsSteps(front + [e], n, steps)
  {
  }

  lemma SliceIsHeard(log: seq<Doc>, start: nat, part: seq<Doc>, n: nat)
    requires Slice(log, start, part) && n <= |part|
    ensures Heard(log, start, part[..n])
  {
    forall d, e | d in log && Listened(d) && e in part[..n] && start < d.seqNo <= e.seqNo
      ensures d in part[..n]
    {
      assert e in part && d in part;
      var i :| 0 <= i < |part| && part[i] == d;
      var k :| 0 <= k < n && part[k] == e;
    }
  }

  /** End to end, from an empty page: one session of the server's stream that was never overtaken,
      broken off anywhere, leaves the page with the fold of the stored log. */
  lemma StreamToPage(states: seq<Stream.State>, steps: seq<Stream.Step>, n: nat, cut: nat)
    requires Stream.Session(states, steps) && n < |states| && states[0].lastSeq == 0
    requires Ascending(states[0].log) && (forall e :: e in states[n].log ==> e.seqNo > 0)
    requires forall m :: 0 <= m < n ==> Stream.InOrder(states[m], steps[m]) && !Stream.Overtakes(states[m], steps[m])
    requires cut <= |states[n].conn.sent|
    ensures var m := ReceiveAll(Page(EMPTY, true), states[n].conn.sent[..cut]).message;
            Agrees(states[n].log, m) && Shows(states[n].log, m.seqNo, m)
  {
    LogAscends(states, steps, n);
    assert Stream.Distinct(states[0].log);
    Stream.SessionSendsSlice(states, steps, n);
    SliceIsHeard(states[n].log, 0, states[n].conn.sent, cut);
    FoldOfNothing(states[n].log);
    StreamKeeps(states[n].log, 0, states[n].conn.sent[..cut], Page(EMPTY, true));
    FoldShows(states[n].log, ReceiveAll(Page(EMPTY, true), states[n].conn.sent[..cut]).message.seqNo);
  }

  lemma {:induction false} LogAscends(states: seq<Stream.State>, steps: seq<Stream.Step>, n: nat)
    requires Stream.Session(states, steps) && n < |states| && Ascending(states[0].log)
    requires forall m :: 0 <= m < n ==> Stream.InOrder(states[m], steps[m])
    ensures Ascending(states[n].log)
  {
    if n > 0 {
      LogAscends(states, steps, n - 1);
      assert Stream.Enabled(states[n - 1], steps[n - 1]);
    }
  }

  // ---------- reconnecting to a growing log ----------

  // One visit to the server: its session up to a point, and how much of what was sent arrived.
  datatype Visit = Visit(states: seq<Stream.State>, steps: seq<Stream.Step>, n: nat, cut: nat)

  ghost predicate GoodVisit(v: Visit) {
    && Stream.Session(v.states, v.steps) && v.n < |v.states| && Ascending(v.states[0].log)
    && (forall m :: 0 <= m < v.n ==> Stream.InOrder(v.states[m], v.steps[m]) && !Stream.Overtakes(v.states[m], v.steps[m]))
    && v.cut <= |v.states[v.n].conn.sent|
  }

  // The stored log when the visit ends.
  function LogAt(v: Visit): seq<Doc>
    requires v.n < |v.states|
  {
    v.states[v.n].log
  }

  function Arrived(v: Visit): Connection
    requires v.n < |v.states| && v.cut <= |v.states[v.n].conn.sent|
  {
    Connection(v.states[0].lastSeq, v.states[v.n].conn.sent[..v.cut])
  }

  ghost predicate GoodVisits(vs: seq<Visit>) {
    forall i :: 0 <= i < |vs| ==> GoodVisit(vs[i])
  }

  function Connections(vs: seq<Visit>): (cs: seq<Connection>)
    requires GoodVisits(vs)
    ensures |cs| == |vs|
  {
    if vs == [] then [] else Connections(vs[..|vs| - 1]) + [Arrived(vs[|vs| - 1])]
  }

  // Each visit finds the log of the one before, or a longer one, and asks for no more than what
  // follows the page's own state.
  ghost predicate Successive(vs: seq<Visit>)
    requires GoodVisits(vs)
  {
    vs == [] ||
    var front, v := vs[..|vs| - 1], vs[|vs| - 1];
    && Successive(front)
    && (front != [] ==> LogAt(front[|front| - 1]) <= v.states[0].log)
    && v.states[0].lastSeq <= Reconnect(Page(EMPTY, true), Connections(front)).message.seqNo
  }

  // What was gapless in an earlier log is gapless in a later one.
  lemma HeardLater(log: seq<Doc>, later: seq<Doc>, start: nat, part: seq<Doc>)
    requires log <= later && Ascending(later) && Heard(log, start, part)
    ensures Heard(later, start, part)
  {
    forall d, e | d in later && Listened(d) && e in part && start < d.seqNo <= e.seqNo
      ensures d in part
    {
      var i :| 0 <= i < |later| && later[i] == d;
      var k :| 0 <= k < |log| && log[k] == e;
      assert later[k] == e && i <= k && log[i] == d;
    }
  }

  lemma {:induction false} LogGrows(states: seq<Stream.State>, steps: seq<Stream.Step>, n: nat)
    requires Stream.Session(states, steps) && n < |states|
    ensures states[0].log <= states[n].log
  {
    if n > 0 {
      LogGrows(states, steps, n - 1);
      assert Stream.Enabled(states[n - 1], steps[n - 1]);
    }
  }

  lemma VisitIsHeard(v: Visit, later: seq<Doc>)
    requires GoodVisit(v) && LogAt(v) <= later && Ascending(later)
    ensures Heard(later, Arrived(v).start, Arrived(v).received)
  {
    assert Stream.Distinct(v.states[0].log);
    Stream.SessionSendsSlice(v.states, v.steps, v.n);
    SliceIsHeard(LogAt(v), v.states[0].lastSeq, v.states[v.n].conn.sent, v.cut);
    HeardLater(LogAt(v), later, v.states[0].lastSeq, Arrived(v).received);
  }

  lemma {:induction false} VisitsAreGood(vs: seq<Visit>, later: seq<Doc>)
    requires GoodVisits(vs) && Successive(vs) && Ascending(later)
    requires vs != [] ==> LogAt(vs[|vs| - 1]) <= later
    ensures GoodConnections(later, Page(EMPTY, true), Connections(vs))
  {
    if vs != [] {
      var front, v := vs[..|vs| - 1], vs[|vs| - 1];
      LogGrows(v.states, v.steps, v.n);
      VisitsAreGood(front, later);
      VisitIsHeard(v, later);
      assert Connections(vs)[..|vs| - 1] == Connections(front);
    }
  }

  /** End to end: whatever is committed while the page is away, and wherever its streams break off,
      after any number of visits to the server that were never overtaken the page shows the fold of
      the log as stored at the end, and what that means. */
  lemma VisitsToPage(vs: seq<Visit>)
    requires vs != [] && GoodVisits(vs) && Successive(vs)
    requires forall e :: e in LogAt(vs[|vs| - 1]) ==> e.seqNo > 0
    ensures var m := Reconnect(Page(EMPTY, true), Connections(vs)).message;
            Agrees(LogAt(vs[|vs| - 1]), m) && Shows(LogAt(vs[|vs| - 1]), m.seqNo, m)
  {
    var v := vs[|vs| - 1];
    LogAscends(v.states, v.steps, v.n);
    VisitsAreGood(vs, LogAt(v));
    ViewAgreesWithLog(LogAt(v), Connections(vs));
  }

  // ---------- cancelled runs ----------

  predicate Unfinished(p: Page) {
    p.open && (p.message.status.Waiting? || p.message.status.Working?)
  }

  // The page ignores the event.
  lemma CancelledChangesNothing(p: Page, e: Doc)
    requires e.kind.RunCancelled?
    ensures Receive(p, e) == p
  {
  }

  lemma {:induction false} StaysUnfinished(p: Page, part: seq<Doc>)
    requires Unfinished(p) && forall e :: e in part ==> !Closes(e)
    ensures Unfinished(ReceiveAll(p, part))
    decreases |part|
  {
    if part != [] {
      assert part[0] in part && forall e :: e in part[1..] ==> e in part;
      StaysUnfinished(Receive(p, part[0]), part[1..]);
    }
  }

  /** A cancelled run is invisible: however often the page reconnects, as long as the log holds no
      run_done or run_failed, a run_cancelled included, the page keeps listening and shows the run
      as waiting or running for ever. */
  lemma {:induction false} CancelledIsInvisible(log: seq<Doc>, cs: seq<Connection>)
    requires GoodConnections(log, Page(EMPTY, true), cs)
    requires forall e :: e in log ==> !Closes(e)
    ensures Unfinished(Reconnect(Page(EMPTY, true), cs))
  {
    if cs != [] {
      CancelledIsInvisible(log, cs[..|cs| - 1]);
      StaysUnfinished(Reconnect(Page(EMPTY, true), cs[..|cs| - 1]), cs[|cs| - 1].received);
    }
  }
}
