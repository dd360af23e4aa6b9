/** The event stream of one run: backfill, live messages and overlapping polls, merged under one
    high-water mark. */
module Stream {
  import opened Store

  datatype Kind = RunStarted | ModelTurn | ToolCall | ToolResult | RunDone | RunFailed | RunCancelled

  // A stored event; `detail` stands for the payload field its reader uses.
  datatype Doc = Doc(seqNo: nat, kind: Kind, detail: Option<string>)

  predicate Ends(d: Doc) {
    d.kind.RunDone? || d.kind.RunFailed? || d.kind.RunCancelled?
  }

  predicate Ascending(ds: seq<Doc>) {
    forall i, k :: 0 <= i < k < |ds| ==> ds[i].seqNo < ds[k].seqNo
  }

  // ---------- the connection's own state ----------

  datatype Conn = Conn(sentSeq: nat, closed: bool, sent: seq<Doc>)

  function Push(c: Conn, e: Doc): Conn {
    if c.closed || e.seqNo <= c.sentSeq then c else c.(sentSeq := e.seqNo, sent := c.sent + [e])
  }

  function PushAll(c: Conn, es: seq<Doc>): Conn
    decreases |es|
  {
    if es == [] then c else PushAll(Push(c, es[0]), es[1..])
  }

  // The answer of a poll: send it, and close if it contains a terminal event.
  function Answer(c: Conn, es: seq<Doc>): Conn {
    var c' := PushAll(c, es);
    if exists e :: e in es && Ends(e) then c'.(closed := true) else c'
  }

  lemma {:induction false} PushAllKeepsClosed(c: Conn, es: seq<Doc>)
    ensures PushAll(c, es).closed == c.closed
    decreases |es|
  {
    if es != [] {
      PushAllKeepsClosed(Push(c, es[0]), es[1..]);
    }
  }

  class Handler {
    var sentSeq: nat
    var closed: bool
    var sent: seq<Doc>

    function View(): Conn
      reads this
    {
      Conn(sentSeq, closed, sent)
    }

    constructor (lastSeq: nat)
      ensures View() == Conn(lastSeq, false, [])
    {
      sentSeq, closed, sent := lastSeq, false, [];
    }

    method Send(e: Doc)
      modifies this
      ensures View() == Push(old(View()), e)
      ensures sent == if !closed && e.seqNo > old(sentSeq) then old(sent) + [e] else old(sent)
      ensures sentSeq == (if !closed && e.seqNo > old(sentSeq) then e.seqNo else old(sentSeq)) && closed == old(closed)
    {
      if closed || e.seqNo <= sentSeq { return; }
      sentSeq := e.seqNo;
      sent := sent + [e];
    }

    method SendAll(es: seq<Doc>)
      modifies this
      ensures View() == PushAll(old(View()), es)
    {
      for i := 0 to |es|
        invariant PushAll(View(), es[i..]) == PushAll(old(View()), es)
      {
        assert es[i..][0] == es[i] && es[i..][1..] == es[i + 1..];
        Send(es[i]);
      }
    }

    method PollAnswer(missed: seq<Doc>)
      modifies this
      ensures View() == Answer(old(View()), missed)
      ensures closed == (old(closed) || exists e :: e in missed && e.kind in {RunDone, RunFailed, RunCancelled})
    {
      PushAllKeepsClosed(View(), missed);
      SendAll(missed);
      var terminal := false;
      for i := 0 to |missed|
        invariant terminal <==> exists k :: 0 <= k < i && Ends(missed[k])
      {
        terminal := terminal || Ends(missed[i]);
      }
      if terminal {
        Cleanup();
      }
    }

    method Cleanup()
      modifies this`closed
      ensures View() == old(View()).(closed := true)
    {
      closed := true;
    }
  }

  // ---------- the stream against a growing log ----------

  // A query's result set, and the high-water mark it was asked for.
  datatype Snapshot = Snapshot(bound: nat, docs: seq<Doc>)

  datatype Phase = Opening | Backfilling(query: Snapshot) | Tailing

  datatype State = State(log: seq<Doc>, lastSeq: nat, conn: Conn, phase: Phase, polls: seq<Snapshot>)

  datatype Step =
    | Append(e: Doc)                // a worker commits an event
    | QueryBackfill(docs: seq<Doc>)
    | BackfillArrives
    | BackfillFails
    | Live(e: Doc)                  // a published message arrives: any stored event, late or repeated
    | Poll(docs: seq<Doc>)          // polls overlap: each may wait for its answer while others run
    | PollArrives(i: nat)
    | PollFails(i: nat)
    | Disconnect

  // Sorted by seq, and exactly the stored events above the bound.
  ghost predicate IsQuery(docs: seq<Doc>, log: seq<Doc>, bound: nat) {
    Ascending(docs) && forall e :: e in docs <==> e in log && e.seqNo > bound
  }

  ghost predicate Enabled(s: State, step: Step) {
    match step
    case Append(e) => forall d :: d in s.log ==> d.seqNo != e.seqNo
    case QueryBackfill(docs) => s.phase.Opening? && IsQuery(docs, s.log, s.lastSeq)
    case BackfillArrives => s.phase.Backfilling?
    case BackfillFails => s.phase.Backfilling?
    case Live(e) => s.phase.Tailing? && e in s.log
    case Poll(docs) => s.phase.Tailing? && !s.conn.closed && IsQuery(docs, s.log, s.conn.sentSeq)
    case PollArrives(i) => i < |s.polls|
    case PollFails(i) => i < |s.polls|
    case Disconnect => true
  }

  function Without(ps: seq<Snapshot>, i: nat): seq<Snapshot>
    requires i < |ps|
  {
    ps[..i] + ps[i + 1..]
  }

  function Apply(s: State, step: Step): State
    requires step.BackfillArrives? ==> s.phase.Backfilling?
    requires step.PollArrives? || step.PollFails? ==> step.i < |s.polls|
  {
    match step
    case Append(e) => s.(log := s.log + [e])
    case QueryBackfill(docs) => s.(phase := Backfilling(Snapshot(s.lastSeq, docs)))
    case BackfillArrives => s.(phase := Tailing, conn := PushAll(s.conn, s.phase.query.docs))
    case BackfillFails => s.(phase := Tailing)
    case Live(e) => s.(conn := Push(s.conn, e))
    case Poll(docs) => s.(polls := s.polls + [Snapshot(s.conn.sentSeq, docs)])
    case PollArrives(i) => s.(polls := Without(s.polls, i), conn := Answer(s.conn, s.polls[i].docs))
    case PollFails(i) => s.(polls := Without(s.polls, i))
    case Disconnect => s.(conn := s.conn.(closed := true))
  }

  ghost predicate Path(states: seq<State>, steps: seq<Step>) {
    && |states| == |steps| + 1
    && forall n {:trigger Enabled(states[n], steps[n])} ::
         0 <= n < |steps| ==> Enabled(states[n], steps[n]) && states[n + 1] == Apply(states[n], steps[n])
  }

  // A stream is opened against an existing log.
  ghost predicate Session(states: seq<State>, steps: seq<Step>) {
    && Path(states, steps)
    && states[0].conn == Conn(states[0].lastSeq, false, []) && states[0].phase == Opening && states[0].polls == []
  }

  // ---------- always: what is sent ascends ----------

  predicate SnapshotStored(log: seq<Doc>, docs: seq<Doc>) {
    Ascending(docs) && forall e :: e in docs ==> e in log
  }

  predicate Sending(log: seq<Doc>, lastSeq: nat, c: Conn) {
    && Ascending(c.sent)
    && (forall e :: e in c.sent ==> lastSeq < e.seqNo <= c.sentSeq && e in log)
    && lastSeq <= c.sentSeq
    && (c.sent == [] ==> c.sentSeq == lastSeq)
    && (c.sent != [] ==> c.sentSeq == c.sent[|c.sent| - 1].seqNo)
  }

  predicate Monotone(s: State) {
    && Sending(s.log, s.lastSeq, s.conn)
    && (s.phase.Backfilling? ==> SnapshotStored(s.log, s.phase.query.docs))
    && (forall i :: 0 <= i < |s.polls| ==> SnapshotStored(s.log, s.polls[i].docs))
  }

  lemma SendKeeps(log: seq<Doc>, lastSeq: nat, c: Conn, e: Doc)
    requires Sending(log, lastSeq, c) && e in log
    ensures Sending(log, lastSeq, Push(c, e))
  {
  }

  lemma {:induction false} SendAllKeeps(log: seq<Doc>, lastSeq: nat, c: Conn, es: seq<Doc>)
    requires Sending(log, lastSeq, c) && forall e :: e in es ==> e in log
    ensures Sending(log, lastSeq, PushAll(c, es))
    decreases |es|
  {
    if es != [] {
      SendKeeps(log, lastSeq, c, es[0]);
      SendAllKeeps(log, lastSeq, Push(c, es[0]), es[1..]);
    }
  }

  lemma MonotoneStep(s: State, step: Step)
    requires Monotone(s) && Enabled(s, step)
    ensures Monotone(Apply(s, step)) && Apply(s, step).lastSeq == s.lastSeq
  {
    match step
    case BackfillArrives => SendAllKeeps(s.log, s.lastSeq, s.conn, s.phase.query.docs);
    case PollArrives(i) =>
      assert SnapshotStored(s.log, s.polls[i].docs);
      SendAllKeeps(s.log, s.lastSeq, s.conn, s.polls[i].docs);
      FewerPolls(s, i, Answer(s.conn, s.polls[i].docs));
    case Live(e) => SendKeeps(s.log, s.lastSeq, s.conn, e);
    case Append(e) => LongerLog(s, e);
    case QueryBackfill(docs) =>
    case BackfillFails =>
    case Poll(docs) =>
    case PollFails(i) => FewerPolls(s, i, s.conn);
    case Disconnect =>
  }

  lemma FewerPolls(s: State, i: nat, c: Conn)
    requires Monotone(s) && i < |s.polls| && Sending(s.log, s.lastSeq, c)
    ensures Monotone(s.(polls := Without(s.polls, i), conn := c))
  {
  }

  lemma LongerLog(s: State, e: Doc)
    requires Monotone(s)
    ensures Monotone(s.(log := s.log + [e]))
  {
    var log := s.log + [e];
    assert forall d :: d in s.log ==> d in log;
    forall i | 0 <= i < |s.polls| ensures SnapshotStored(log, s.polls[i].docs) {
      assert SnapshotStored(s.log, s.polls[i].docs);
    }
  }

  /** Under every interleaving of backfill, live messages and overlapping polls, whatever the commit
      order of the log: the sent sequence numbers are strictly increasing and above lastSeq, every
      sent event is a stored one, and sentSeq is the last of them. */
  lemma {:induction false} SentAscends(states: seq<State>, steps: seq<Step>, n: nat)
    requires Session(states, steps) && n < |states|
    ensures Monotone(states[n]) && states[n].lastSeq == states[0].lastSeq
  {
    if n > 0 {
      SentAscends(states, steps, n - 1);
      assert Enabled(states[n - 1], steps[n - 1]);
      MonotoneStep(states[n - 1], steps[n - 1]);
    }
  }

  // ---------- one in-order emitter: nothing is skipped, unless a live message overtakes ----------

  predicate InOrder(s: State, step: Step) {
    step.Append? ==> forall d :: d in s.log ==> d.seqNo < step.e.seqNo
  }

  // A live message arrives while an earlier stored event has not been sent.
  predicate Overtakes(s: State, step: Step) {
    step.Live? && !s.conn.closed && exists d :: d in s.log && s.conn.sentSeq < d.seqNo < step.e.seqNo
  }

  predicate Skipped(s: State, d: Doc) {
    d in s.log && s.lastSeq < d.seqNo <= s.conn.sentSeq && d !in s.conn.sent
  }

  predicate Complete(log: seq<Doc>, lastSeq: nat, c: Conn) {
    forall d :: d in log && lastSeq < d.seqNo <= c.sentSeq ==> d in c.sent
  }

  // No stored event above the bound is missing from the snapshot, up to its last entry.
  predicate Dense(log: seq<Doc>, docs: seq<Doc>, bound: nat) {
    forall d, e :: d in log && e in docs && bound < d.seqNo <= e.seqNo ==> d in docs
  }

  predicate Distinct(log: seq<Doc>) {
    forall d, e :: d in log && e in log && d.seqNo == e.seqNo ==> d == e
  }

  lemma FirstAndRest(es: seq<Doc>)
    requires es != [] && Ascending(es)
    ensures Ascending(es[1..])
    ensures forall x :: x in es <==> x == es[0] || x in es[1..]
    ensures forall x :: x in es[1..] ==> es[0].seqNo < x.seqNo
  {
    assert es == [es[0]] + es[1..];
  }

  lemma PushKeepsComplete(log: seq<Doc>, lastSeq: nat, c: Conn, es: seq<Doc>, bound: nat)
    requires Distinct(log) && Complete(log, lastSeq, c) && bound <= c.sentSeq && !c.closed
    requires es != [] && SnapshotStored(log, es) && Dense(log, es, bound)
    ensures Complete(log, lastSeq, Push(c, es[0]))
  {
    var e, c' := es[0], Push(c, es[0]);
    assert e in es;
    FirstAndRest(es);
    forall d | d in log && lastSeq < d.seqNo <= c'.sentSeq
      ensures d in c'.sent
    {
      if d.seqNo > c.sentSeq {
        assert d in es && d == e;
      }
    }
  }

  lemma RestIsDense(log: seq<Doc>, c: Conn, es: seq<Doc>, bound: nat)
    requires bound <= c.sentSeq && !c.closed
    requires es != [] && SnapshotStored(log, es) && Dense(log, es, bound)
    ensures SnapshotStored(log, es[1..]) && Dense(log, es[1..], Push(c, es[0]).sentSeq)
  {
    FirstAndRest(es);
    forall d, e | d in log && e in es[1..] && Push(c, es[0]).sentSeq < d.seqNo <= e.seqNo
      ensures d in es[1..]
    {
      assert e in es && d in es;
    }
  }

  // Sending a dense snapshot keeps the stream complete, however stale the snapshot is.
  lemma {:induction false} PushAllDense(log: seq<Doc>, lastSeq: nat, c: Conn, es: seq<Doc>, bound: nat)
    requires Distinct(log) && Complete(log, lastSeq, c) && bound <= c.sentSeq
    requires SnapshotStored(log, es) && Dense(log, es, bound)
    ensures Complete(log, lastSeq, PushAll(c, es)) && PushAll(c, es).sentSeq >= c.sentSeq
    decreases |es|
  {
    if c.closed {
      ClosedSendsNothing(c, es);
    } else if es != [] {
      PushKeepsComplete(log, lastSeq, c, es, bound);
      RestIsDense(log, c, es, bound);
      PushAllDense(log, lastSeq, Push(c, es[0]), es[1..], Push(c, es[0]).sentSeq);
    }
  }

  lemma {:induction false} ClosedSendsNothing(c: Conn, es: seq<Doc>)
    requires c.closed
    ensures PushAll(c, es) == c
  {
    if es != [] {
      ClosedSendsNothing(c, es[1..]);
    }
  }

  predicate SnapshotFit(s: State, p: Snapshot) {
    Dense(s.log, p.docs, p.bound) && p.bound <= s.conn.sentSeq
  }

  // Everything a stream over an in-order log keeps until a live message overtakes.
  predicate Delivering(s: State) {
    && Distinct(s.log) && Complete(s.log, s.lastSeq, s.conn)
    && (s.phase.Backfilling? ==> SnapshotFit(s, s.phase.query))
    && forall i :: 0 <= i < |s.polls| ==> SnapshotFit(s, s.polls[i])
  }

  lemma DeliveringAppend(s: State, e: Doc)
    requires Monotone(s) && Delivering(s) && Enabled(s, Append(e)) && InOrder(s, Append(e))
    ensures Delivering(Apply(s, Append(e)))
  {
    var s' := Apply(s, Append(e));
    forall i | 0 <= i < |s'.polls|
      ensures SnapshotFit(s', s'.polls[i])
    {
      assert SnapshotFit(s, s.polls[i]) && SnapshotStored(s.log, s.polls[i].docs);
    }
  }

  lemma DeliveringArrival(s: State, p: Snapshot)
    requires Monotone(s) && Delivering(s) && SnapshotFit(s, p) && SnapshotStored(s.log, p.docs)
    ensures Complete(s.log, s.lastSeq, Answer(s.conn, p.docs)) && Answer(s.conn, p.docs).sentSeq >= s.conn.sentSeq
    ensures Complete(s.log, s.lastSeq, PushAll(s.conn, p.docs)) && PushAll(s.conn, p.docs).sentSeq >= s.conn.sentSeq
  {
    PushAllDense(s.log, s.lastSeq, s.conn, p.docs, p.bound);
  }

  lemma DeliveringPolls(s: State, s': State)
    requires Delivering(s) && s'.log == s.log && s'.conn.sentSeq >= s.conn.sentSeq
    requires forall i :: 0 <= i < |s'.polls| ==> SnapshotFit(s', s'.polls[i]) || s'.polls[i] in s.polls
    ensures forall i :: 0 <= i < |s'.polls| ==> SnapshotFit(s', s'.polls[i])
  {
  }

  lemma DeliveringStep(s: State, step: Step)
    requires Monotone(s) && Delivering(s) && Enabled(s, step) && InOrder(s, step) && !Overtakes(s, step)
    ensures Delivering(Apply(s, step))
  {
    if step.Append? {
      DeliveringAppend(s, step.e);
    } else if step.BackfillArrives? || step.PollArrives? {
      DeliveringAnswer(s, step);
    } else {
      var s' := Apply(s, step);
      assert Complete(s'.log, s'.lastSeq, s'.conn);
      DeliveringPolls(s, s');
    }
  }

  lemma DeliveringAnswer(s: State, step: Step)
    requires Monotone(s) && Delivering(s) && Enabled(s, step)
    requires step.BackfillArrives? || step.PollArrives?
    ensures Delivering(Apply(s, step))
  {
    if step.BackfillArrives? {
      DeliveringArrival(s, s.phase.query);
    } else {
      assert SnapshotFit(s, s.polls[step.i]) && SnapshotStored(s.log, s.polls[step.i].docs);
      DeliveringArrival(s, s.polls[step.i]);
    }
    DeliveringPolls(s, Apply(s, step));
  }

  // ---------- the exact condition ----------

  // The answer of a query carries the mark past a stored unsent event that it does not contain.
  predicate Passes(s: State, docs: seq<Doc>) {
    !s.conn.closed && !Dense(s.log, docs, s.conn.sentSeq)
  }

  // The step raises the mark past a stored unsent event, or commits an event at or below it.
  predicate Skips(s: State, step: Step) {
    match step
    case Append(e) => s.lastSeq < e.seqNo <= s.conn.sentSeq
    case Live(e) => Overtakes(s, step)
    case BackfillArrives => s.phase.Backfilling? && Passes(s, s.phase.query.docs)
    case PollArrives(i) => i < |s.polls| && Passes(s, s.polls[i].docs)
    case _ => false
  }

  // Once behind the high-water mark, an unsent event is never sent in this session.
  lemma SkippedStep(s: State, step: Step, d: Doc)
    requires Monotone(s) && Skipped(s, d) && Enabled(s, step)
    ensures Skipped(Apply(s, step), d)
  {
    match step
    case BackfillArrives => SkippedPush(s.conn, s.phase.query.docs, d);
    case PollArrives(i) => SkippedPush(s.conn, s.polls[i].docs, d);
    case Live(e) =>
    case Append(e) =>
    case QueryBackfill(docs) =>
    case BackfillFails =>
    case Poll(docs) =>
    case PollFails(i) =>
    case Disconnect =>
  }

  lemma {:induction false} SkippedPush(c: Conn, es: seq<Doc>, d: Doc)
    requires d.seqNo <= c.sentSeq && d !in c.sent
    ensures d.seqNo <= PushAll(c, es).sentSeq && d !in PushAll(c, es).sent
    decreases |es|
  {
    if es != [] {
      SkippedPush(Push(c, es[0]), es[1..], d);
    }
  }

  lemma {:induction false} PushAllReaches(c: Conn, es: seq<Doc>)
    requires !c.closed
    ensures PushAll(c, es).sentSeq >= c.sentSeq && forall e :: e in es ==> e.seqNo <= PushAll(c, es).sentSeq
    ensures forall d :: d in PushAll(c, es).sent ==> d in c.sent || d in es
    decreases |es|
  {
    if es != [] {
      PushAllReaches(Push(c, es[0]), es[1..]);
      assert forall x :: x in es ==> x == es[0] || x in es[1..];
    }
  }

  // An answer keeps the stream complete exactly if it passes nothing.
  lemma CompleteAnswer(s: State, docs: seq<Doc>)
    requires Monotone(s) && Distinct(s.log) && SnapshotStored(s.log, docs) && Complete(s.log, s.lastSeq, s.conn)
    ensures Complete(s.log, s.lastSeq, PushAll(s.conn, docs)) <==> !Passes(s, docs)
  {
    if s.conn.closed {
      ClosedSendsNothing(s.conn, docs);
    } else if Dense(s.log, docs, s.conn.sentSeq) {
      PushAllDense(s.log, s.lastSeq, s.conn, docs, s.conn.sentSeq);
    } else {
      var d, e :| d in s.log && e in docs && s.conn.sentSeq < d.seqNo <= e.seqNo && d !in docs;
      PushAllReaches(s.conn, docs);
      assert d !in PushAll(s.conn, docs).sent;
    }
  }

  lemma SkipsStep(s: State, step: Step)
    requires Monotone(s) && Distinct(s.log) && Enabled(s, step)
    ensures var s' := Apply(s, step);
      && Distinct(s'.log)
      && (Complete(s'.log, s'.lastSeq, s'.conn) <==> Complete(s.log, s.lastSeq, s.conn) && !Skips(s, step))
  {
    if !Complete(s.log, s.lastSeq, s.conn) {
      var d :| d in s.log && s.lastSeq < d.seqNo <= s.conn.sentSeq && d !in s.conn.sent;
      SkippedStep(s, step, d);
      assert Skipped(Apply(s, step), d);
    } else if step.Append? {
      AppendSkips(s, step.e);
    } else if step.Live? {
      LiveSkips(s, step.e);
    } else if step.BackfillArrives? {
      CompleteAnswer(s, s.phase.query.docs);
    } else if step.PollArrives? {
      assert SnapshotStored(s.log, s.polls[step.i].docs);
      CompleteAnswer(s, s.polls[step.i].docs);
    }
  }

  lemma AppendSkips(s: State, e: Doc)
    requires Monotone(s) && Enabled(s, Append(e)) && Complete(s.log, s.lastSeq, s.conn)
    ensures Complete(s.log + [e], s.lastSeq, s.conn) <==> !Skips(s, Append(e))
  {
    assert e in s.log + [e] && e !in s.log;
  }

  lemma LiveSkips(s: State, e: Doc)
    requires Monotone(s) && Distinct(s.log) && e in s.log && Complete(s.log, s.lastSeq, s.conn)
    ensures Complete(s.log, s.lastSeq, Push(s.conn, e)) <==> !Overtakes(s, Live(e))
  {
    if Overtakes(s, Live(e)) {
      var d :| d in s.log && s.conn.sentSeq < d.seqNo < e.seqNo;
      assert d !in Push(s.conn, e).sent;
    }
  }

  predicate NeverSkips(states: seq<State>, steps: seq<Step>, n: nat)
    requires n <= |steps| && n <= |states|
  {
    forall m :: 0 <= m < n ==> !Skips(states[m], steps[m])
  }

  lemma NeverSkipsYet(states: seq<State>, steps: seq<Step>, n: nat)
    requires n < |steps| && n < |states|
    ensures NeverSkips(states, steps, n + 1) <==> NeverSkips(states, steps, n) && !Skips(states[n], steps[n])
  {
  }

  lemma SkipsAt(states: seq<State>, steps: seq<Step>, n: nat)
    requires Path(states, steps) && n < |steps| && Monotone(states[n]) && Distinct(states[n].log)
    ensures var s, s' := states[n], states[n + 1];
      && Distinct(s'.log)
      && (Complete(s'.log, s'.lastSeq, s'.conn) <==> Complete(s.log, s.lastSeq, s.conn) && !Skips(s, steps[n]))
  {
    assert Enabled(states[n], steps[n]);
    SkipsStep(states[n], steps[n]);
  }

  /** Main result. Whatever the commit order, for every interleaving of backfill, live messages, stale
      and overlapping polls and failures: every stored event in (lastSeq, sentSeq] has been sent if and
      only if no step so far raised the mark past a stored unsent event or committed one at or below it. */
  lemma {:induction false} CompleteIffNothingSkipped(states: seq<State>, steps: seq<Step>, n: nat)
    requires Session(states, steps) && n < |states| && Distinct(states[0].log)
    ensures Distinct(states[n].log)
    ensures Complete(states[n].log, states[n].lastSeq, states[n].conn) <==> NeverSkips(states, steps, n)
  {
    if n > 0 {
      var m := n - 1;
      CompleteIffNothingSkipped(states, steps, m);
      SentAscends(states, steps, m);
      SkipsAt(states, steps, m);
      NeverSkipsYet(states, steps, m);
    }
  }

  lemma OvertakingSkips(s: State, step: Step)
    requires Monotone(s) && Enabled(s, step) && Overtakes(s, step)
    ensures exists d :: Skipped(Apply(s, step), d)
  {
    var d :| d in s.log && s.conn.sentSeq < d.seqNo < step.e.seqNo;
    assert Skipped(Apply(s, step), d);
  }

  /** With one in-order emitter only live messages skip: every stored event in (lastSeq, sentSeq] has
      been sent if and only if no live message ever arrived while an earlier stored event was unsent.
      In particular delivery by backfill and polls alone is complete. */
  lemma {:induction false} CompleteIffNotOvertaken(states: seq<State>, steps: seq<Step>, n: nat)
    requires Session(states, steps) && n < |states| && Distinct(states[0].log)
    requires forall m :: 0 <= m < n ==> InOrder(states[m], steps[m])
    ensures Complete(states[n].log, states[n].lastSeq, states[n].conn) <==>
            forall m :: 0 <= m < n ==> !Overtakes(states[m], steps[m])
    ensures Complete(states[n].log, states[n].lastSeq, states[n].conn) ==> Delivering(states[n])
  {
    if n > 0 {
      CompleteIffNotOvertaken(states, steps, n - 1);
      SentAscends(states, steps, n - 1);
      CompleteAt(states, steps, n - 1);
      NotOvertakenYet(states, steps, n);
    }
  }

  lemma CompleteAt(states: seq<State>, steps: seq<Step>, n: nat)
    requires Path(states, steps) && n < |steps| && Monotone(states[n]) && InOrder(states[n], steps[n])
    requires Complete(states[n].log, states[n].lastSeq, states[n].conn) ==> Delivering(states[n])
    ensures var s, s' := states[n], states[n + 1];
      && (Complete(s'.log, s'.lastSeq, s'.conn) <==> Complete(s.log, s.lastSeq, s.conn) && !Overtakes(s, steps[n]))
      && (Complete(s'.log, s'.lastSeq, s'.conn) ==> Delivering(s'))
  {
    assert Enabled(states[n], steps[n]);
    CompleteStep(states[n], steps[n]);
  }

  lemma NotOvertakenYet(states: seq<State>, steps: seq<Step>, n: nat)
    requires 0 < n <= |steps| && n <= |states|
    ensures (forall m :: 0 <= m < n ==> !Overtakes(states[m], steps[m])) <==>
            (forall m :: 0 <= m < n - 1 ==> !Overtakes(states[m], steps[m])) && !Overtakes(states[n - 1], steps[n - 1])
  {
  }

  lemma CompleteStep(s: State, step: Step)
    requires Monotone(s) && Enabled(s, step) && InOrder(s, step)
    requires Complete(s.log, s.lastSeq, s.conn) ==> Delivering(s)
    ensures var s' := Apply(s, step);
      && (Complete(s'.log, s'.lastSeq, s'.conn) <==> Complete(s.log, s.lastSeq, s.conn) && !Overtakes(s, step))
      && (Complete(s'.log, s'.lastSeq, s'.conn) ==> Delivering(s'))
  {
    if !Complete(s.log, s.lastSeq, s.conn) {
      var d :| d in s.log && s.lastSeq < d.seqNo <= s.conn.sentSeq && d !in s.conn.sent;
      SkippedStep(s, step, d);
      assert Skipped(Apply(s, step), d);
    } else if Overtakes(s, step) {
      OvertakingSkips(s, step);
    } else {
      DeliveringStep(s, step);
    }
  }

  // ---------- when a stream ends ----------

  // The client goes, or the answer of a poll holds a final event of the run.
  predicate EndsStream(s: State, step: Step) {
    || step.Disconnect?
    || (step.PollArrives? && step.i < |s.polls|
        && exists e :: e in s.polls[step.i].docs && e.kind in {RunDone, RunFailed, RunCancelled})
  }

  lemma ClosedStep(s: State, step: Step)
    requires Enabled(s, step)
    ensures Apply(s, step).conn.closed <==> s.conn.closed || EndsStream(s, step)
  {
    if step.BackfillArrives? {
      PushAllKeepsClosed(s.conn, s.phase.query.docs);
    } else if step.PollArrives? {
      PushAllKeepsClosed(s.conn, s.polls[step.i].docs);
    }
  }

  /** A stream is closed if and only if the client disconnected, or a poll was answered with a run_done,
      run_failed or run_cancelled event. Neither the backfill nor a live message closes it. */
  lemma {:induction false} ClosedIffEnded(states: seq<State>, steps: seq<Step>, n: nat)
    requires Session(states, steps) && n < |states|
    ensures states[n].conn.closed <==> exists m :: 0 <= m < n && EndsStream(states[m], steps[m])
  {
    if n > 0 {
      var m := n - 1;
      ClosedIffEnded(states, steps, m);
      assert Enabled(states[m], steps[m]);
      ClosedStep(states[m], steps[m]);
    }
  }

  // The answers under way lie above what the client had.
  predicate PollsAbove(s: State) {
    forall i, e :: 0 <= i < |s.polls| && e in s.polls[i].docs ==> s.lastSeq < e.seqNo
  }

  lemma PollsAboveStep(s: State, step: Step)
    requires Monotone(s) && PollsAbove(s) && Enabled(s, step)
    ensures PollsAbove(Apply(s, step))
  {
    var s' := Apply(s, step);
    forall i, e | 0 <= i < |s'.polls| && e in s'.polls[i].docs
      ensures s.lastSeq < e.seqNo
    {
      assert s'.polls[i] in s.polls || step.Poll?;
    }
  }

  // Some final event of the run lies within what was sent.
  ghost predicate FinalSent(s: State) {
    exists d :: d in s.log && Ends(d) && s.lastSeq < d.seqNo <= s.conn.sentSeq
  }

  lemma FinalSentStep(s: State, step: Step)
    requires Monotone(s) && PollsAbove(s) && Enabled(s, step) && !step.Disconnect?
    requires s.conn.closed ==> FinalSent(s)
    ensures Apply(s, step).conn.closed ==> FinalSent(Apply(s, step))
  {
    var s' := Apply(s, step);
    ClosedStep(s, step);
    if s.conn.closed {
      var d :| d in s.log && Ends(d) && s.lastSeq < d.seqNo <= s.conn.sentSeq;
      ClosedStays(s, step);
      assert d in s'.log;
    } else if s'.conn.closed {
      var docs := s.polls[step.i].docs;
      var d :| d in docs && Ends(d);
      PushAllReaches(s.conn, docs);
      assert SnapshotStored(s.log, docs);
      assert d in s'.log;
    }
  }

  lemma ClosedStays(s: State, step: Step)
    requires Enabled(s, step) && s.conn.closed
    ensures Apply(s, step).conn == s.conn
  {
    if step.BackfillArrives? {
      ClosedSendsNothing(s.conn, s.phase.query.docs);
    } else if step.PollArrives? {
      ClosedSendsNothing(s.conn, s.polls[step.i].docs);
    }
  }

  lemma {:induction false} ClosedHoldsFinal(states: seq<State>, steps: seq<Step>, n: nat)
    requires Session(states, steps) && n < |states|
    requires forall m :: 0 <= m < n ==> !steps[m].Disconnect?
    ensures PollsAbove(states[n]) && (states[n].conn.closed ==> FinalSent(states[n]))
  {
    if n > 0 {
      var m := n - 1;
      ClosedHoldsFinal(states, steps, m);
      SentAscends(states, steps, m);
      assert Enabled(states[m], steps[m]);
      PollsAboveStep(states[m], steps[m]);
      FinalSentStep(states[m], steps[m]);
    }
  }

  /** A stream that the server closed, and in which nothing was skipped, has delivered the run to its
      end: a final event, and every stored event between lastSeq and it. */
  lemma ClosedIsDelivered(states: seq<State>, steps: seq<Step>, n: nat)
    requires Session(states, steps) && n < |states| && Distinct(states[0].log)
    requires states[n].conn.closed && NeverSkips(states, steps, n)
    requires forall m :: 0 <= m < n ==> !steps[m].Disconnect?
    ensures exists d :: d in states[n].conn.sent && d.kind in {RunDone, RunFailed, RunCancelled}
                        && forall e :: e in states[n].log && states[n].lastSeq < e.seqNo <= d.seqNo ==> e in states[n].conn.sent
  {
    var s := states[n];
    ClosedHoldsFinal(states, steps, n);
    CompleteIffNothingSkipped(states, steps, n);
    var d :| d in s.log && Ends(d) && s.lastSeq < d.seqNo <= s.conn.sentSeq;
    assert d in s.conn.sent;
  }

  // The events a reader has received: the stored ones from `start` on, in order, none left out.
  predicate Slice(log: seq<Doc>, start: nat, part: seq<Doc>) {
    && Ascending(part)
    && (forall e :: e in part ==> e in log && start < e.seqNo)
    && (forall d, e :: d in log && e in part && start < d.seqNo <= e.seqNo ==> d in part)
  }

  /** What a session that was never overtaken has sent is a slice of the log, from its lastSeq. */
  lemma SessionSendsSlice(states: seq<State>, steps: seq<Step>, n: nat)
    requires Session(states, steps) && n < |states| && Distinct(states[0].log)
    requires forall m :: 0 <= m < n ==> InOrder(states[m], steps[m]) && !Overtakes(states[m], steps[m])
    ensures Slice(states[n].log, states[0].lastSeq, states[n].conn.sent)
  {
    SentAscends(states, steps, n);
    CompleteIffNotOvertaken(states, steps, n);
  }

  // ---------- the two ways to lose an event ----------

  const FIRST := Doc(1, RunStarted, None)
  const SECOND := Doc(2, ModelTurn, None)

  // A stream opened on an empty log whose backfill has arrived.
  lemma OpenedEmpty() returns (states: seq<State>, steps: seq<Step>)
    ensures Session(states, steps) && states[|steps|] == State([], 0, Conn(0, false, []), Tailing, [])
    ensures states[0].log == [] && (forall m :: 0 <= m < |steps| ==> InOrder(states[m], steps[m]) && !steps[m].Live?)
  {
    var s0 := State([], 0, Conn(0, false, []), Opening, []);
    var s1 := State([], 0, Conn(0, false, []), Backfilling(Snapshot(0, [])), []);
    var s2 := State([], 0, Conn(0, false, []), Tailing, []);
    states, steps := [s0, s1, s2], [QueryBackfill([]), BackfillArrives];
    forall n | 0 <= n < 2 ensures Enabled(states[n], steps[n]) && states[n + 1] == Apply(states[n], steps[n]) {
      if n == 0 { assert Enabled(s0, steps[0]); } else { assert Enabled(s1, steps[1]); }
    }
  }

  predicate NoLive(steps: seq<Step>) {
    forall m :: 0 <= m < |steps| ==> !steps[m].Live?
  }

  lemma More(states: seq<State>, steps: seq<Step>, step: Step) returns (states': seq<State>, steps': seq<Step>)
    requires Session(states, steps) && Enabled(states[|steps|], step)
    ensures Session(states', steps') && steps' == steps + [step] && states <= states'
    ensures states'[|steps'|] == Apply(states[|steps|], step)
    ensures (forall m :: 0 <= m < |steps| ==> InOrder(states[m], steps[m])) && InOrder(states[|steps|], step) ==>
              forall m :: 0 <= m < |steps'| ==> InOrder(states'[m], steps'[m])
    ensures NoLive(steps) && !step.Live? ==> NoLive(steps')
  {
    states', steps' := states + [Apply(states[|steps|], step)], steps + [step];
    forall n | 0 <= n < |steps'|
      ensures Enabled(states'[n], steps'[n]) && states'[n + 1] == Apply(states'[n], steps'[n])
    {
      if n < |steps| { assert Enabled(states[n], steps[n]); }
    }
  }

  /** The gap between backfill and subscription loses events: both are committed after the backfill
      query, only the second is published to the new subscriber, and the first is never sent. */
  lemma LiveOvertakesStored()
    ensures exists states: seq<State>, steps: seq<Step> ::
              Session(states, steps) && (forall m :: 0 <= m < |steps| ==> InOrder(states[m], steps[m]))
              && Skipped(states[|steps|], FIRST)
  {
    var states, steps := OpenedEmpty();
    states, steps := More(states, steps, Append(FIRST));
    states, steps := More(states, steps, Append(SECOND));
    states, steps := More(states, steps, Live(SECOND));
    assert Skipped(states[|steps|], FIRST);
  }

  lemma AnswerOne(c: Conn, e: Doc)
    requires !Ends(e)
    ensures Answer(c, [e]) == Push(c, e)
  {
    assert [e][1..] == [] && PushAll(Push(c, e), []) == Push(c, e);
    assert PushAll(c, [e]) == Push(c, e);
    assert forall x :: x in [e] ==> x == e;
  }

  /** Two emitters that insert out of order lose an event even without live messages. */
  lemma OutOfOrderCommitSkips()
    ensures exists states: seq<State>, steps: seq<Step> ::
              Session(states, steps) && NoLive(steps)
              && Skipped(states[|steps|], FIRST)
  {
    var states, steps := PolledSecond();
    states, steps := More(states, steps, Append(FIRST));
    assert Skipped(states[|steps|], FIRST);
  }

  lemma PolledSecond() returns (states: seq<State>, steps: seq<Step>)
    ensures Session(states, steps) && NoLive(steps)
    ensures states[|steps|] == State([SECOND], 0, Conn(2, false, [SECOND]), Tailing, [])
  {
    states, steps := PollingSecond();
    AnswerOne(Conn(0, false, []), SECOND);
    states, steps := More(states, steps, PollArrives(0));
  }

  lemma PollingSecond() returns (states: seq<State>, steps: seq<Step>)
    ensures Session(states, steps) && NoLive(steps)
    ensures states[|steps|] == State([SECOND], 0, Conn(0, false, []), Tailing, [Snapshot(0, [SECOND])])
  {
    states, steps := OpenedEmpty();
    states, steps := More(states, steps, Append(SECOND));
    states, steps := More(states, steps, Poll([SECOND]));
  }
}
