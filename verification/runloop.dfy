/** The agent loop: what one attempt does, and its imperative form. */
module RunLoop {
  import opened Store

  datatype Decision = CallTool(tool: string) | Conclude(summary: string)

  // Event documents of one run; payload fields that the loop or its readers use.
  datatype Ev =
    | RunStarted(worker: WorkerId)
    | ModelTurn(turn: nat)
    | ToolCall(tool: string, turn: nat)
    | ToolResult(tool: string, turn: nat, workspace: string)
    | RunDone(summary: Option<string>, turns: nat, toolCalls: nat)
    | RunFailed(timedOut: bool)
    | RunCancelled(turn: nat, toolCalls: nat)

  datatype Abort = NotAborted | TimedOut | CancelRequested

  // The injected collaborators: model decisions, turn cap, and the sandbox.
  datatype Env = Env(decide: nat -> Decision, maxTurns: int, sandbox: bool, workspace: string)

  // One effect of the loop, between two awaits.
  datatype Action =
    | Emit(ev: Ev)
    | ClaimBox
    | Exec(tool: string, turn: nat)   // run the tool in its container
    | Finish(status: Status)
    | ReleaseBox

  // ---------- idempotency.ts ----------

  datatype CompletedTurn = CompletedTurn(turn: nat, done: bool)

  // A run_done event has no `turn` in its payload, so it is filed under turn 0.
  function GetCompletedTurns(log: seq<Ev>): seq<CompletedTurn> {
    if log == [] then []
    else
      var rest := GetCompletedTurns(log[..|log| - 1]);
      match log[|log| - 1]
      case ToolResult(tool, turn, ws) => rest + [CompletedTurn(turn, false)]
      case RunDone(s, t, c) => rest + [CompletedTurn(0, true)]
      case _ => rest
  }

  // The first entry for the turn.
  function IsAlreadyExecuted(done: seq<CompletedTurn>, turn: nat): Option<CompletedTurn> {
    if done == [] then None
    else if done[0].turn == turn then Some(done[0])
    else IsAlreadyExecuted(done[1..], turn)
  }

  lemma {:induction false} LookupAppend(done: seq<CompletedTurn>, c: CompletedTurn, t: nat)
    ensures IsAlreadyExecuted(done + [c], t) ==
              if IsAlreadyExecuted(done, t).Some? then IsAlreadyExecuted(done, t)
              else if c.turn == t then Some(c) else None
  {
    if done != [] {
      LookupAppend(done[1..], c, t);
      assert (done + [c])[1..] == done[1..] + [c];
    } else {
      assert (done + [c])[1..] == [];
    }
  }

  // The result of this turn's tool is in the log.
  predicate Stored(log: seq<Ev>, t: nat) {
    exists p :: 0 <= p < |log| && log[p].ToolResult? && log[p].turn == t
  }

  // A run_done is in the log with no result of turn 0 before it.
  predicate Recognised(log: seq<Ev>) {
    exists p :: 0 <= p < |log| && log[p].RunDone? && forall q :: 0 <= q < p && log[q].ToolResult? ==> log[q].turn != 0
  }

  // Which turns of any log count as executed, and when the run counts as finished.
  lemma {:induction false} LookupMeans(log: seq<Ev>, t: nat)
    ensures var c := IsAlreadyExecuted(GetCompletedTurns(log), t);
            && (c.Some? <==> Stored(log, t) || (t == 0 && Recognised(log)))
            && (c.Some? ==> (c.value.done <==> t == 0 && Recognised(log)))
  {
    if log != [] {
      var front, last := log[..|log| - 1], log[|log| - 1];
      LookupMeans(front, t);
      assert forall p :: 0 <= p < |front| ==> front[p] == log[p];
      if last.ToolResult? {
        LookupAppend(GetCompletedTurns(front), CompletedTurn(last.turn, false), t);
      } else if last.RunDone? {
        LookupAppend(GetCompletedTurns(front), CompletedTurn(0, true), t);
      }
    }
  }

  // The loop asks for an abort and a decision at turn k, which lies under the cap: its result is not
  // stored, the run is not recognised as finished, and every earlier turn without a stored result went
  // through to its tool call.
  predicate Reached(env: Env, abort: nat -> Abort, log: seq<Ev>, k: nat) {
    k < env.maxTurns && !Stored(log, k) && !Recognised(log) && Passed(env, abort, log, k)
  }

  predicate Passed(env: Env, abort: nat -> Abort, log: seq<Ev>, k: nat) {
    forall i: nat :: i < k && !Stored(log, i) ==> abort(i).NotAborted? && env.decide(i).CallTool?
  }

  // Failed exactly if a turn that is reached times out, cancelled exactly if one is cancelled, else done.
  ghost predicate EndsAs(env: Env, abort: nat -> Abort, log: seq<Ev>, status: Status) {
    && status.Terminal()
    && (status == Failed <==> exists k: nat :: Reached(env, abort, log, k) && abort(k).TimedOut?)
    && (status == Cancelled <==> exists k: nat :: Reached(env, abort, log, k) && abort(k).CancelRequested?)
  }

  // The last event says so too; a run recognised as finished gets none.
  predicate Announced(last: Ev, status: Status, recognised: bool) {
    match status
    case Failed => last == RunFailed(true)
    case Cancelled => last.RunCancelled?
    case _ => last.RunDone? || recognised
  }

  // A turn that ends the loop decides the status.
  lemma EndsHere(env: Env, abort: nat -> Abort, log: seq<Ev>, k: nat)
    requires Reached(env, abort, log, k) && (!abort(k).NotAborted? || env.decide(k).Conclude?)
    ensures EndsAs(env, abort, log, StatusAt(abort(k)))
  {
    forall m: nat | Reached(env, abort, log, m)
      ensures m <= k && (m < k ==> abort(m).NotAborted?)
    {
    }
  }

  // So does the cap, and so does a run that is recognised as finished.
  lemma EndsQuietly(env: Env, abort: nat -> Abort, log: seq<Ev>, k: nat)
    requires Recognised(log) || (env.maxTurns <= k && Passed(env, abort, log, k))
    ensures EndsAs(env, abort, log, Done)
  {
    forall m: nat | Reached(env, abort, log, m)
      ensures abort(m).NotAborted?
    {
    }
  }

  function StatusAt(abort: Abort): Status {
    match abort
    case TimedOut => Failed
    case CancelRequested => Cancelled
    case NotAborted => Done
  }

  // ---------- one attempt ----------

  // What follows the model_turn event of a tool turn.
  function ToolTurnPlan(env: Env, tool: string, turn: nat, boxed: bool): seq<Action> {
    [Emit(ToolCall(tool, turn))]
    + (if env.sandbox && !boxed then [ClaimBox] else [])
    + [Exec(tool, turn), Emit(ToolResult(tool, turn, env.workspace))]
  }

  // The loop from `turn` on, as the list of its effects if nothing goes wrong.
  function Turns(env: Env, abort: nat -> Abort, done: seq<CompletedTurn>, turn: nat, calls: nat, boxed: bool): seq<Action>
    decreases env.maxTurns - turn
  {
    if turn >= env.maxTurns then [Emit(RunDone(None, turn, calls)), Finish(Done)]
    else match IsAlreadyExecuted(done, turn)
      case Some(c) => if c.done then [Finish(Done)] else Turns(env, abort, done, turn + 1, calls + 1, boxed)
      case None =>
        match abort(turn)
        case TimedOut => [Emit(RunFailed(true)), Finish(Failed)]
        case CancelRequested => [Emit(RunCancelled(turn, calls)), Finish(Cancelled)]
        case NotAborted =>
          match env.decide(turn)
          case Conclude(s) => [Emit(ModelTurn(turn)), Emit(RunDone(Some(s), turn + 1, calls)), Finish(Done)]
          case CallTool(tool) =>
            [Emit(ModelTurn(turn))] + ToolTurnPlan(env, tool, turn, boxed)
            + Turns(env, abort, done, turn + 1, calls + 1, boxed || env.sandbox)
  }

  function Body(env: Env, abort: nat -> Abort, worker: WorkerId, log: seq<Ev>): seq<Action> {
    [Emit(RunStarted(worker))] + Turns(env, abort, GetCompletedTurns(log), 0, 0, false)
  }

  // The finally block.
  function Cleanup(trace: seq<Action>): seq<Action> {
    if ClaimBox in trace then [ReleaseBox] else []
  }

  // What throws: one effect of the body (throwAt), the read of the completed turns, and, in the
  // catch block, the run_failed event and the final status. An effect may take place and then
  // throw (applied, finishApplied).
  datatype Faults = Faults(throwAt: Option<nat>, applied: bool, readThrows: bool,
                           noteLost: bool, finishThrows: bool, finishApplied: bool)

  const NO_FAULTS := Faults(None, false, false, false, false, false)

  // The effects of the body up to the one that throws. A claim that throws hands over no container.
  function Tried(body: seq<Action>, f: Faults): seq<Action>
    requires f.throwAt.Some? && f.throwAt.value < |body|
  {
    var k := f.throwAt.value;
    if f.applied && !body[k].ClaimBox? then body[..k + 1] else body[..k]
  }

  // The catch block: the lost event is swallowed.
  function Handled(f: Faults): seq<Action> {
    (if f.noteLost then [] else [Emit(RunFailed(false))])
    + if f.finishThrows && !f.finishApplied then [] else [Finish(Failed)]
  }

  // runLoop ends with an exception: run_started and the read lie outside the try, and the catch
  // block does not catch its own failing status write.
  predicate Rejects(body: seq<Action>, f: Faults) {
    || f.throwAt == Some(0) || f.readThrows
    || (f.throwAt.Some? && f.throwAt.value < |body| && f.finishThrows)
  }

  // The attempt under these faults; the finally block runs even if the catch block throws.
  function Attempt(body: seq<Action>, f: Faults): seq<Action> {
    if f.throwAt == Some(0) && body != [] then Tried(body, f)
    else if f.readThrows && body != [] then body[..1]
    else if f.throwAt.Some? && f.throwAt.value < |body| then
      var tried := Tried(body, f);
      tried + Handled(f) + Cleanup(tried)
    else body + Cleanup(body)
  }

  // The process dies before its crashAt-th effect.
  function Cut(trace: seq<Action>, crashAt: Option<nat>): seq<Action> {
    if crashAt.Some? && crashAt.value < |trace| then trace[..crashAt.value] else trace
  }

  function Emitted(trace: seq<Action>): seq<Ev> {
    if trace == [] then []
    else
      var last := trace[|trace| - 1];
      Emitted(trace[..|trace| - 1]) + if last.Emit? then [last.ev] else []
  }

  function StatusAfter(status: Status, trace: seq<Action>): Status {
    if trace == [] then status
    else
      var last := trace[|trace| - 1];
      if last.Finish? then last.status else StatusAfter(status, trace[..|trace| - 1])
  }

  // The shape of a turn that is neither skipped nor aborted.
  lemma LiveTurn(env: Env, abort: nat -> Abort, done: seq<CompletedTurn>, turn: nat, calls: nat, boxed: bool)
    requires turn < env.maxTurns && IsAlreadyExecuted(done, turn).None? && abort(turn).NotAborted?
    ensures var p := Turns(env, abort, done, turn, calls, boxed);
            && p != [] && p[0] == Emit(ModelTurn(turn))
            && match env.decide(turn)
               case Conclude(s) => p[1..] == [Emit(RunDone(Some(s), turn + 1, calls)), Finish(Done)]
               case CallTool(tool) =>
                 p[1..] == ToolTurnPlan(env, tool, turn, boxed)
                           + Turns(env, abort, done, turn + 1, calls + 1, boxed || env.sandbox)
  {
    var p := Turns(env, abort, done, turn, calls, boxed);
    match env.decide(turn)
    case Conclude(s) =>
    case CallTool(tool) =>
      var next := Turns(env, abort, done, turn + 1, calls + 1, boxed || env.sandbox);
      assert p == [Emit(ModelTurn(turn))] + (ToolTurnPlan(env, tool, turn, boxed) + next);
  }

  lemma EmittedOne(ev: Ev)
    ensures Emitted([Emit(ev)]) == [ev]
  {
    assert [Emit(ev)][..0] == [];
  }

  // Nothing after the crash point matters.
  lemma CrashedInBody(trace: seq<Action>, body: seq<Action>, f: Faults)
    requires |trace| <= |body| && trace == body[..|trace|]
    requires f.throwAt.Some? ==> |trace| <= f.throwAt.value
    requires f.readThrows ==> |trace| <= 1
    ensures trace == Cut(Attempt(body, f), Some(|trace|))
  {
  }

  // Some effect within the try block throws.
  predicate ThrewInTry(body: seq<Action>, f: Faults) {
    f.throwAt.Some? && 0 < f.throwAt.value < |body| && !f.readThrows
  }

  lemma CrashedInCatch(trace: seq<Action>, tried: seq<Action>, body: seq<Action>, f: Faults)
    requires ThrewInTry(body, f) && tried == Tried(body, f)
    requires tried <= trace <= tried + Handled(f)
    ensures trace == Cut(Attempt(body, f), Some(|trace|))
  {
    assert Attempt(body, f) == tried + Handled(f) + Cleanup(tried);
  }

  lemma ReleaseIsSilent(status: Status, trace: seq<Action>)
    ensures var t := trace + [ReleaseBox];
            && Emitted(t) == Emitted(trace) && StatusAfter(status, t) == StatusAfter(status, trace)
            && (ClaimBox in t <==> ClaimBox in trace)
  {
    assert (trace + [ReleaseBox])[..|trace|] == trace;
  }

  lemma TriedHere(trace: seq<Action>, plan: seq<Action>, f: Faults)
    requires f.throwAt == Some(|trace|) && plan != []
    ensures Tried(trace + plan, f) == trace + if f.applied && !plan[0].ClaimBox? then [plan[0]] else []
  {
  }

  // ---------- the imperative form ----------

  datatype Fault = Ok | Throws | Crashes

  datatype Outcome = Returned(status: Status) | Rejected | Dead

  class Execution {
    var log: seq<Ev>        // run_events of the run
    var status: Status      // of the run document
    var performed: nat
    var thrown: bool
    var holdsBox: bool
    const faults: Faults
    const crashAt: Option<nat>
    ghost const log0: seq<Ev>
    ghost const status0: Status
    ghost var trace: seq<Action>
    ghost var plan: seq<Action>  // what is still to come if nothing goes wrong

    constructor (log: seq<Ev>, status: Status, faults: Faults, crashAt: Option<nat>)
      ensures this.log == log0 == log && this.status == status0 == status
      ensures this.faults == faults && this.crashAt == crashAt
      ensures Valid() && trace == [] && !thrown && !holdsBox
    {
      this.log, log0, this.status, status0 := log, log, status, status;
      this.faults, this.crashAt := faults, crashAt;
      performed, thrown, holdsBox := 0, false, false;
      trace, plan := [], [];
    }

    // The store reflects the trace.
    ghost predicate Settled()
      reads this
    {
      && performed == |trace|
      && log == log0 + Emitted(trace) && status == StatusAfter(status0, trace)
      && (holdsBox <==> ClaimBox in trace)
    }

    // And no fault point has been passed.
    ghost predicate Valid()
      reads this
    {
      && Settled()
      && (crashAt.Some? ==> performed <= crashAt.value)
      && (!thrown && faults.throwAt.Some? ==> performed <= faults.throwAt.value)
      && (thrown ==> faults.throwAt.Some?)
    }

    // What was done and what is still to come.
    ghost function Whole(): seq<Action>
      reads this`trace, this`plan
    {
      trace + plan
    }

    // One awaited effect: it happens, throws, or the process dies before it.
    method Do(a: Action) returns (f: Fault)
      requires Valid() && plan != [] && plan[0] == a
      modifies this
      ensures Valid()
      ensures f.Crashes? ==> crashAt == Some(|trace|)
      ensures f.Throws? ==> !old(thrown) && faults.throwAt == Some(|old(trace)|) && trace == Tried(old(Whole()), faults)
      ensures Whole() == old(Whole()) && |trace| >= |old(trace)|
      ensures f.Ok? ==> trace == old(trace) + [a] && plan == old(plan)[1..]
      ensures f.Crashes? ==> trace == old(trace)
      ensures thrown == (old(thrown) || f.Throws?)
    {
      if crashAt == Some(performed) {
        return Crashes;
      }
      if !thrown && faults.throwAt == Some(performed) {
        f := Throws;
        Throw(a);
      } else {
        f := Ok;
        Perform(a);
      }
    }

    // The effect throws, and takes place or not.
    method Throw(a: Action)
      requires Valid() && !thrown && faults.throwAt == Some(|trace|) && crashAt != Some(|trace|)
      requires plan != [] && plan[0] == a
      modifies this
      ensures Valid() && thrown && trace == Tried(old(Whole()), faults)
      ensures Whole() == old(Whole()) && |trace| >= |old(trace)|
    {
      TriedHere(trace, plan, faults);
      thrown := true;
      if faults.applied && !a.ClaimBox? {
        Perform(a);
      }
    }

    // The effect takes place.
    method Perform(a: Action)
      requires Settled() && plan != [] && plan[0] == a
      modifies this`performed, this`trace, this`plan, this`log, this`status, this`holdsBox
      ensures Settled() && trace == old(trace) + [a] && plan == old(plan)[1..]
      ensures Whole() == old(Whole())
      ensures log == if a.Emit? then old(log) + [a.ev] else old(log)
      ensures status == if a.Finish? then a.status else old(status)
    {
      performed := performed + 1;
      trace, plan := trace + [a], plan[1..];
      assert trace[..|trace| - 1] == old(trace);
      if a.Emit? {
        log := log + [a.ev];
      } else if a.Finish? {
        status := a.status;
      } else if a.ClaimBox? {
        holdsBox := true;
      }
    }

    // Effects were taken from the front of the plan, up to the end or to a fault point.
    twostate predicate Progressed(f: Fault)
      reads this
    {
      && Valid() && Whole() == old(Whole()) && |trace| >= old(|trace|)
      && (f.Crashes? ==> crashAt == Some(|trace|))
      && (f.Throws? ==> faults.throwAt.Some? && faults.throwAt.value < |Whole()| && trace == Tried(Whole(), faults))
      && (f.Throws? ==> |old(trace)| <= faults.throwAt.value)
      && thrown == f.Throws?
    }

    // The last event and the final status of the run: the common end of every way out of the
    // turn loop that does not throw.
    method DoLast(a: Action, st: Status) returns (f: Fault)
      requires Valid() && !thrown && plan == [a, Finish(st)]
      modifies this
      ensures Progressed(f)
      ensures f.Ok? ==> plan == [] && status == st
      ensures f.Ok? && a.Emit? ==> log != [] && log[|log| - 1] == a.ev
    {
      f := Do(a);
      if f.Ok? {
        f := Do(Finish(st));
        assert f.Ok? ==> trace[|trace| - 1] == Finish(st);
      }
    }

    // One turn that the model answers with a tool call.
    method ToolTurn(env: Env, tool: string, turn: nat, ghost rest: seq<Action>) returns (f: Fault)
      requires Valid() && !thrown && plan == ToolTurnPlan(env, tool, turn, holdsBox) + rest
      modifies this
      ensures Progressed(f)
      ensures f.Ok? ==> plan == rest && holdsBox == (old(holdsBox) || env.sandbox)
    {
      ghost var tail := [Exec(tool, turn), Emit(ToolResult(tool, turn, env.workspace))] + rest;
      f := Do(Emit(ToolCall(tool, turn)));
      if !f.Ok? { return; }
      f := Provide(env, tail);
      if !f.Ok? { return; }
      f := Execute(tool, turn, env.workspace, rest);
    }

    // Claim a container if a sandbox is configured and none is held.
    method Provide(env: Env, ghost tail: seq<Action>) returns (f: Fault)
      requires Valid() && !thrown
      requires plan == (if env.sandbox && !holdsBox then [ClaimBox] else []) + tail
      requires tail != []
      modifies this
      ensures Progressed(f)
      ensures f.Ok? ==> plan == tail && holdsBox == (old(holdsBox) || env.sandbox)
    {
      f := Ok;
      if env.sandbox && !holdsBox {
        f := Do(ClaimBox);
      }
    }

    // Run the tool, then record its result.
    method Execute(tool: string, turn: nat, workspace: string, ghost rest: seq<Action>) returns (f: Fault)
      requires Valid() && !thrown && plan == [Exec(tool, turn), Emit(ToolResult(tool, turn, workspace))] + rest
      modifies this
      ensures Progressed(f)
      ensures f.Ok? ==> plan == rest && holdsBox == old(holdsBox)
    {
      f := Do(Exec(tool, turn));
      if !f.Ok? { return; }
      assert plan == [Emit(ToolResult(tool, turn, workspace))] + rest;
      f := Do(Emit(ToolResult(tool, turn, workspace)));
    }

    // One turn that is not skipped. `over`: it left the loop.
    method OneTurn(env: Env, abort: nat -> Abort, ghost done: seq<CompletedTurn>, turn: nat, toolCalls: nat)
      returns (f: Fault, over: bool)
      requires Valid() && !thrown && turn < env.maxTurns && IsAlreadyExecuted(done, turn).None?
      requires plan == Turns(env, abort, done, turn, toolCalls, holdsBox)
      modifies this
      ensures Progressed(f)
      ensures f.Ok? ==> (over <==> !abort(turn).NotAborted? || env.decide(turn).Conclude?)
      ensures f.Ok? && over ==> plan == [] && status == StatusAt(abort(turn))
      ensures f.Ok? && over ==> log != [] && Announced(log[|log| - 1], status, false)
      ensures f.Ok? && !over ==> plan == Turns(env, abort, done, turn + 1, toolCalls + 1, holdsBox)
    {
      over := true;
      if abort(turn).TimedOut? {
        f := DoLast(Emit(RunFailed(true)), Failed);
        return;
      }
      if abort(turn).CancelRequested? {
        f := DoLast(Emit(RunCancelled(turn, toolCalls)), Cancelled);
        return;
      }
      LiveTurn(env, abort, done, turn, toolCalls, holdsBox);
      ghost var next := Turns(env, abort, done, turn + 1, toolCalls + 1, holdsBox || env.sandbox);
      f, over := Think(env, turn, toolCalls, next);
    }

    // Announce the turn and ask the model.
    method Think(env: Env, turn: nat, toolCalls: nat, ghost next: seq<Action>) returns (f: Fault, over: bool)
      requires Valid() && !thrown && plan != [] && plan[0] == Emit(ModelTurn(turn))
      requires match env.decide(turn)
               case Conclude(summary) => plan[1..] == [Emit(RunDone(Some(summary), turn + 1, toolCalls)), Finish(Done)]
               case CallTool(tool) => plan[1..] == ToolTurnPlan(env, tool, turn, holdsBox) + next
      modifies this
      ensures Progressed(f)
      ensures over == env.decide(turn).Conclude?
      ensures f.Ok? && over ==> plan == [] && status == Done && log != [] && log[|log| - 1].RunDone?
      ensures f.Ok? && !over ==> plan == next && holdsBox == (old(holdsBox) || env.sandbox)
    {
      over := env.decide(turn).Conclude?;
      f := Do(Emit(ModelTurn(turn)));
      if f.Ok? {
        f, over := Obey(env, turn, toolCalls, next);
      }
    }

    // What the model's decision leads to.
    method Obey(env: Env, turn: nat, toolCalls: nat, ghost next: seq<Action>) returns (f: Fault, over: bool)
      requires Valid() && !thrown
      requires match env.decide(turn)
               case Conclude(summary) => plan == [Emit(RunDone(Some(summary), turn + 1, toolCalls)), Finish(Done)]
               case CallTool(tool) => plan == ToolTurnPlan(env, tool, turn, holdsBox) + next
      modifies this
      ensures Progressed(f)
      ensures over == env.decide(turn).Conclude?
      ensures f.Ok? && over ==> plan == [] && status == Done && log != [] && log[|log| - 1].RunDone?
      ensures f.Ok? && !over ==> plan == next && holdsBox == (old(holdsBox) || env.sandbox)
    {
      match env.decide(turn)
      case Conclude(summary) =>
        over := true;
        f := DoLast(Emit(RunDone(Some(summary), turn + 1, toolCalls)), Done);
      case CallTool(tool) =>
        over := false;
        f := ToolTurn(env, tool, turn, next);
    }

    // The try block: the turn loop and the final status.
    method TryTurns(env: Env, abort: nat -> Abort, ghost worker: WorkerId) returns (f: Fault)
      requires Valid() && !thrown && !holdsBox && trace == [Emit(RunStarted(worker))]
      requires plan == Turns(env, abort, GetCompletedTurns(log0), 0, 0, false)
      modifies this
      ensures Progressed(f)
      ensures f.Ok? ==> plan == [] && Reports(env, abort, Returned(status))
    {
      EmittedOne(RunStarted(worker));
      assert log == log0 + [RunStarted(worker)] && log[..|log| - 1] == log0;
      var done := GetCompletedTurns(log);
      var turn, over := 0, false;
      var toolCalls := 0;
      f := Ok;
      while turn < env.maxTurns
        invariant Valid() && !thrown && Whole() == old(Whole()) && |trace| >= 1
        invariant plan == Turns(env, abort, done, turn, toolCalls, holdsBox)
        invariant Passed(env, abort, log0, turn) && (turn > 0 ==> !Recognised(log0))
      {
        var already := IsAlreadyExecuted(done, turn);
        LookupMeans(log0, turn);
        if already.Some? {
          if already.value.done {
            break;
          }
        } else {
          f, over := OneTurn(env, abort, done, turn, toolCalls);
          if !f.Ok? { return; }
          if over {
            EndsHere(env, abort, log0, turn);
            return;
          }
        }
        toolCalls, turn := toolCalls + 1, turn + 1;
      }
      EndsQuietly(env, abort, log0, turn);
      f := Leave(env, turn, toolCalls);
    }

    // Past the loop: the final event of a capped run, and the status.
    method Leave(env: Env, turn: nat, toolCalls: nat) returns (f: Fault)
      requires Valid() && !thrown
      requires plan == if turn >= env.maxTurns then [Emit(RunDone(None, turn, toolCalls)), Finish(Done)] else [Finish(Done)]
      modifies this
      ensures Progressed(f)
      ensures f.Ok? ==> plan == [] && status == Done
      ensures f.Ok? && turn >= env.maxTurns ==> log != [] && log[|log| - 1].RunDone?
      ensures f.Ok? && turn < env.maxTurns ==> log == old(log)
    {
      if turn >= env.maxTurns {
        f := DoLast(Emit(RunDone(None, turn, toolCalls)), Done);
      } else {
        f := Do(Finish(Done));
        assert f.Ok? ==> trace[|trace| - 1] == Finish(Done) && trace[..|trace| - 1] == old(trace);
      }
    }

    // What a normal return reports: the stored status, which is failed after a throw, and otherwise says
    // how the first turn that was aborted or concluded ended the run, as its last event does.
    ghost predicate Reports(env: Env, abort: nat -> Abort, o: Outcome)
      reads this
    {
      o.Returned? ==>
        && o.status == status
        && (thrown ==> status == Failed && faults.throwAt.Some?)
        && (!thrown ==> EndsAs(env, abort, log0, status)
                        && log != [] && Announced(log[|log| - 1], status, Recognised(log0)))
    }

    /** runLoop, with its try, catch and finally: whatever throws and wherever the process dies, the
        effects are exactly those of the specified attempt, cut at the crash; the log and the status
        are what those effects make of the old ones; a normal return reports the stored status, which
        is failed if a turn timed out or something threw, cancelled if a turn was cancelled, and done
        otherwise; and an exception escapes exactly if run_started, the read of the completed turns, or
        the status write of the catch block threw. */
    method RunLoop(env: Env, abort: nat -> Abort, worker: WorkerId) returns (o: Outcome)
      requires Valid() && trace == [] && !thrown && !holdsBox
      modifies this
      ensures trace == Cut(Attempt(Body(env, abort, worker, log0), faults), crashAt)
      ensures !o.Dead? ==> (o.Rejected? <==> Rejects(Body(env, abort, worker, log0), faults))
      ensures log == log0 + Emitted(trace) && status == StatusAfter(status0, trace)
      ensures Reports(env, abort, o)
      ensures o.Dead? ==> crashAt.Some? && |trace| == crashAt.value
    {
      ghost var body := Body(env, abort, worker, log0);
      plan := body;
      var f := Do(Emit(RunStarted(worker)));
      if f.Crashes? {
        CrashedInBody(trace, body, faults);
        return Dead;
      }
      if f.Throws? { return Rejected; }
      assert trace + plan == body && trace == body[..1];
      if faults.readThrows { return Rejected; }
      o := Started(env, abort, worker, body);
    }

    // Everything after run_started and the read.
    method Started(env: Env, abort: nat -> Abort, ghost worker: WorkerId, ghost body: seq<Action>) returns (o: Outcome)
      requires Valid() && !thrown && !holdsBox && !faults.readThrows && faults.throwAt != Some(0)
      requires body == Body(env, abort, worker, log0)
      requires trace == [Emit(RunStarted(worker))] && plan == Turns(env, abort, GetCompletedTurns(log0), 0, 0, false)
      modifies this
      ensures trace == Cut(Attempt(body, faults), crashAt)
      ensures !o.Dead? ==> (o.Rejected? <==> Rejects(body, faults))
      ensures log == log0 + Emitted(trace) && status == StatusAfter(status0, trace)
      ensures Reports(env, abort, o)
      ensures o.Dead? ==> crashAt.Some? && |trace| == crashAt.value
    {
      assert trace + plan == body;
      var f := TryTurns(env, abort, worker);
      ghost var n := |trace|;
      assert 1 <= n <= |body| && trace == body[..n];
      if f.Crashes? {
        CrashedInBody(trace, body, faults);
        return Dead;
      }
      o := CatchAndFinally(f, body);
    }

    // The catch block, if the try block threw, and the finally block.
    method CatchAndFinally(tried: Fault, ghost body: seq<Action>) returns (o: Outcome)
      requires Valid() && (tried.Ok? || tried.Throws?) && thrown == tried.Throws?
      requires if tried.Throws? then ThrewInTry(body, faults) && trace == Tried(body, faults)
               else trace == body && !ThrewInTry(body, faults)
      requires !faults.readThrows && faults.throwAt != Some(0)
      modifies this
      ensures trace == Cut(Attempt(body, faults), crashAt)
      ensures log == log0 + Emitted(trace) && status == StatusAfter(status0, trace)
      ensures o.Dead? ==> crashAt == Some(|trace|)
      ensures thrown == old(thrown) && (o.Returned? ==> o.status == status)
      ensures !o.Dead? && tried.Ok? ==> status == old(status) && log == old(log)
      ensures o.Returned? && tried.Throws? ==> status == Failed
      ensures !o.Dead? ==> (o.Rejected? <==> tried.Throws? && faults.finishThrows)
    {
      var dead := false;
      if tried.Throws? {
        ghost var tried := trace;
        dead := Catch();
        if dead {
          CrashedInCatch(trace, tried, body, faults);
          return Dead;
        }
      }
      if holdsBox {
        dead := ReleaseQuietly();
        if dead { return Dead; }
      }
      o := if tried.Throws? && faults.finishThrows then Rejected else Returned(status);
    }

    // The catch block. A lost run_failed event is swallowed; a throwing status write leaves the
    // block, whether or not it took effect.
    method Catch() returns (dead: bool)
      requires Valid() && thrown
      modifies this
      ensures Valid() && thrown
      ensures dead ==> crashAt == Some(|trace|) && old(trace) <= trace <= old(trace) + Handled(faults)
      ensures !dead ==> trace == old(trace) + Handled(faults) && (!faults.finishThrows ==> status == Failed)
      ensures !dead ==> (holdsBox <==> ClaimBox in old(trace))
    {
      dead := false;
      if !faults.noteLost {
        dead := DoCaught(Emit(RunFailed(false)));
      }
      if !dead && (!faults.finishThrows || faults.finishApplied) {
        dead := DoCaught(Finish(Failed));
      }
    }

    // An effect of the catch block that does not throw.
    method DoCaught(a: Action) returns (dead: bool)
      requires Valid() && thrown && !a.ClaimBox?
      modifies this
      ensures Valid() && thrown && holdsBox == old(holdsBox)
      ensures dead ==> crashAt == Some(|trace|) && trace == old(trace)
      ensures !dead ==> trace == old(trace) + [a] && (a.Finish? ==> status == a.status)
    {
      plan := [a];
      var f := Do(a);
      dead := f.Crashes?;
      assert !dead ==> trace[|trace| - 1] == a;
    }

    // An exception of release is swallowed.
    method ReleaseQuietly() returns (dead: bool)
      requires Valid()
      modifies this
      ensures dead ==> crashAt == Some(|trace|) && trace == old(trace)
      ensures !dead ==> trace == old(trace) + [ReleaseBox] && (crashAt.Some? ==> |trace| <= crashAt.value)
      ensures Settled() && log == old(log) && status == old(status)
      ensures thrown == old(thrown)
    {
      dead := crashAt == Some(performed);
      if !dead {
        ReleaseIsSilent(status0, trace);
        performed := performed + 1;
        trace, plan := trace + [ReleaseBox], [];
      }
    }
  }
}
