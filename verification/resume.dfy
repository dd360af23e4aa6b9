/** Crash and resume: any sequence of attempts, crashed, failed, aborted or complete, agrees with one
    undisturbed run. */
module Resume {
  import opened Store
  import opened RunLoop

  function NoAbort(turn: nat): Abort {
    NotAborted
  }

  // One attempt: which worker, what throws, when it is aborted, and where it dies.
  datatype Try = Try(worker: WorkerId, faults: Faults, abort: nat -> Abort, crashAt: Option<nat>)

  // Nothing throws, nobody aborts and the process lives.
  ghost predicate Calm(try: Try) {
    try.faults == NO_FAULTS && try.crashAt.None? && forall t: nat :: try.abort(t).NotAborted?
  }

  function CalmTry(w: WorkerId): Try {
    Try(w, NO_FAULTS, NoAbort, None)
  }

  function BodyOf(env: Env, log: seq<Ev>, try: Try): seq<Action> {
    Body(env, try.abort, try.worker, log)
  }

  // The effects of one attempt that finds `log` in the store.
  function Effects(env: Env, log: seq<Ev>, try: Try): seq<Action> {
    Cut(Attempt(BodyOf(env, log, try), try.faults), try.crashAt)
  }

  // The effects of all attempts, one after the other.
  function History(env: Env, tries: seq<Try>): seq<Action> {
    if tries == [] then []
    else
      var before := History(env, tries[..|tries| - 1]);
      before + Effects(env, Emitted(before), tries[|tries| - 1])
  }

  function Log(env: Env, tries: seq<Try>): seq<Ev> {
    Emitted(History(env, tries))
  }

  // ---------- the undisturbed run ----------

  // The first turn at or after t that is not a tool turn.
  function LastTurn(env: Env, t: nat): (k: nat)
    ensures t <= k
    decreases env.maxTurns - t
  {
    if t >= env.maxTurns || env.decide(t).Conclude? then t else LastTurn(env, t + 1)
  }

  function ResultOf(env: Env, t: nat): Ev
    requires env.decide(t).CallTool?
  {
    ToolResult(env.decide(t).tool, t, env.workspace)
  }

  // The run_done event of a run whose tool turns are 0 to k-1.
  function FinalEvent(env: Env, k: nat): Ev {
    if k < env.maxTurns && env.decide(k).Conclude? then RunDone(Some(env.decide(k).summary), k + 1, k)
    else RunDone(None, k, k)
  }

  // The events after run_started when turns 0 to m-1 have already been executed.
  function Script(env: Env, abort: nat -> Abort, m: nat): seq<Ev>
    decreases env.maxTurns - m
  {
    if m >= env.maxTurns then [FinalEvent(env, m)]
    else match abort(m)
      case TimedOut => [RunFailed(true)]
      case CancelRequested => [RunCancelled(m, m)]
      case NotAborted =>
        match env.decide(m)
        case Conclude(s) => [ModelTurn(m), FinalEvent(env, m)]
        case CallTool(tool) => [ModelTurn(m), ToolCall(tool, m), ResultOf(env, m)] + Script(env, abort, m + 1)
  }

  // The tool results in a log, in order.
  function Results(log: seq<Ev>): seq<Ev> {
    if log == [] then []
    else
      var last := log[|log| - 1];
      Results(log[..|log| - 1]) + if last.ToolResult? then [last] else []
  }

  predicate Finished(log: seq<Ev>) {
    log != [] && (log[|log| - 1].RunDone? || Finished(log[..|log| - 1]))
  }

  // Every event continues the undisturbed run: the next tool result in turn, or the final event
  // once there is no tool turn left; the other events are unconstrained.
  predicate Sound(env: Env, log: seq<Ev>) {
    log == [] ||
    var front, last := log[..|log| - 1], log[|log| - 1];
    var m := |Results(front)|;
    && Sound(env, front)
    && (last.ToolResult? ==> m < LastTurn(env, 0) && env.decide(m).CallTool? && last == ResultOf(env, m))
    && (last.RunDone? ==> m == LastTurn(env, 0) && last == FinalEvent(env, m))
  }

  lemma {:induction false} ToolTurnsBefore(env: Env, t: nat, u: nat)
    requires t <= u < LastTurn(env, t)
    ensures u < env.maxTurns && env.decide(u).CallTool? && LastTurn(env, u + 1) == LastTurn(env, t)
    decreases u - t
  {
    if t < u {
      ToolTurnsBefore(env, t + 1, u);
    }
  }

  /** What a sound log says: its tool results are turns 0, 1, ..., m-1, once each and in order, with
      the undisturbed run's payloads, and every run_done event is the undisturbed run's. */
  lemma {:induction false} SoundMeans(env: Env, log: seq<Ev>)
    requires Sound(env, log)
    ensures |Results(log)| <= LastTurn(env, 0)
    ensures forall t :: 0 <= t < |Results(log)| ==> env.decide(t).CallTool? && Results(log)[t] == ResultOf(env, t)
    ensures forall e :: e in log && e.RunDone? ==> e == FinalEvent(env, LastTurn(env, 0))
    ensures Finished(log) ==> |Results(log)| == LastTurn(env, 0)
  {
    if log != [] {
      var front := log[..|log| - 1];
      SoundMeans(env, front);
      assert log == front + [log[|log| - 1]];
    }
  }

  // ---------- the skip scan ----------

  /** In a sound log exactly the turns with a stored result are found, as tool calls; a run_done
      event is found only if there is no tool result at all. */
  lemma {:induction false} Lookup(env: Env, log: seq<Ev>, t: nat)
    requires Sound(env, log)
    ensures IsAlreadyExecuted(GetCompletedTurns(log), t) ==
              if t < |Results(log)| then Some(CompletedTurn(t, false))
              else if t == 0 && Finished(log) then Some(CompletedTurn(0, true)) else None
  {
    if log != [] {
      var front, last := log[..|log| - 1], log[|log| - 1];
      Lookup(env, front, t);
      SoundMeans(env, front);
      if last.ToolResult? {
        LookupAppend(GetCompletedTurns(front), CompletedTurn(last.turn, false), t);
      } else if last.RunDone? {
        LookupAppend(GetCompletedTurns(front), CompletedTurn(0, true), t);
      }
    }
  }

  // The largest completed turn plus one, as the code computes it.
  function ResumeFrom(done: seq<CompletedTurn>): nat {
    if done == [] then 0
    else
      var rest := ResumeFrom(done[..|done| - 1]);
      var n := done[|done| - 1].turn + 1;
      if n > rest then n else rest
  }

  /** The membership-based scan skips exactly the turns below the maximum-based resume point,
      whenever there is a tool result at all. */
  lemma {:induction false} ScanResumesAtMaximum(env: Env, log: seq<Ev>)
    requires Sound(env, log) && Results(log) != []
    ensures ResumeFrom(GetCompletedTurns(log)) == |Results(log)|
    ensures forall t: nat :: IsAlreadyExecuted(GetCompletedTurns(log), t).Some? <==> t < ResumeFrom(GetCompletedTurns(log))
  {
    MaximumIsCount(env, log);
    forall t: nat
      ensures IsAlreadyExecuted(GetCompletedTurns(log), t).Some? <==> t < |Results(log)|
    {
      Lookup(env, log, t);
    }
  }

  lemma {:induction false} MaximumIsCount(env: Env, log: seq<Ev>)
    requires Sound(env, log)
    ensures var n := ResumeFrom(GetCompletedTurns(log));
            n == |Results(log)| || (n == 1 && Results(log) == [])
  {
    if log != [] {
      var front, last := log[..|log| - 1], log[|log| - 1];
      MaximumIsCount(env, front);
      SoundMeans(env, front);
      var rest := GetCompletedTurns(front);
      if last.ToolResult? {
        assert GetCompletedTurns(log)[..|rest|] == rest;
        if Results(front) == [] {
          SoundWithoutResults(env, front);
        }
      } else if last.RunDone? {
        assert GetCompletedTurns(log)[..|rest|] == rest;
      }
    }
  }

  // Before the first of several tool results nothing is completed.
  lemma {:induction false} SoundWithoutResults(env: Env, log: seq<Ev>)
    requires Sound(env, log) && Results(log) == [] && LastTurn(env, 0) > 0
    ensures GetCompletedTurns(log) == []
  {
    if log != [] {
      SoundWithoutResults(env, log[..|log| - 1]);
    }
  }

  // ---------- the effects of a resumed attempt ----------

  // Skipped turns have no effect; they only count.
  lemma {:induction false} SkipTo(env: Env, abort: nat -> Abort, log: seq<Ev>, t: nat)
    requires Sound(env, log) && t <= |Results(log)|
    ensures var done, m := GetCompletedTurns(log), |Results(log)|;
            Turns(env, abort, done, t, t, false) == Turns(env, abort, done, m, m, false)
    decreases |Results(log)| - t
  {
    var m := |Results(log)|;
    if t < m {
      SoundMeans(env, log);
      ToolTurnsBefore(env, 0, t);
      Lookup(env, log, t);
      SkipTo(env, abort, log, t + 1);
    }
  }

  // Past the results nothing is completed, so the store no longer matters.
  lemma {:induction false} NothingCompleted(env: Env, abort: nat -> Abort, log: seq<Ev>, t: nat, boxed: bool)
    requires Sound(env, log) && t >= |Results(log)| && (t > 0 || !Finished(log))
    ensures Turns(env, abort, GetCompletedTurns(log), t, t, boxed) == Turns(env, abort, [], t, t, boxed)
    decreases env.maxTurns - t
  {
    if t < env.maxTurns {
      Lookup(env, log, t);
      if env.decide(t).CallTool? {
        NothingCompleted(env, abort, log, t + 1, boxed || env.sandbox);
      }
    }
  }

  lemma {:induction false} EmittedAppend(a: seq<Action>, b: seq<Action>)
    ensures Emitted(a + b) == Emitted(a) + Emitted(b)
  {
    if b == [] {
      assert a + b == a;
    } else {
      var front := b[..|b| - 1];
      EmittedAppend(a, front);
      assert (a + b)[..|a + b| - 1] == a + front;
    }
  }

  lemma EmittedCut(trace: seq<Action>, crashAt: Option<nat>)
    ensures Emitted(Cut(trace, crashAt)) <= Emitted(trace)
  {
    var c := Cut(trace, crashAt);
    assert trace == c + trace[|c|..];
    EmittedAppend(c, trace[|c|..]);
  }

  lemma EmittedTurn(env: Env, tool: string, t: nat, boxed: bool)
    requires env.decide(t) == CallTool(tool)
    ensures Emitted([Emit(ModelTurn(t))] + ToolTurnPlan(env, tool, t, boxed)) == [ModelTurn(t), ToolCall(tool, t), ResultOf(env, t)]
  {
    var a, b, c := [Emit(ModelTurn(t))], [Emit(ToolCall(tool, t))], [Emit(ResultOf(env, t))];
    var box := if env.sandbox && !boxed then [ClaimBox] else [];
    EmittedOne(ModelTurn(t));
    EmittedOne(ToolCall(tool, t));
    EmittedOne(ResultOf(env, t));
    EmittedSilent(box);
    EmittedSilent([Exec(tool, t)]);
    EmittedAppend(a, b);
    EmittedAppend(a + b, box);
    EmittedAppend(a + b + box, [Exec(tool, t)]);
    EmittedAppend(a + b + box + [Exec(tool, t)], c);
    assert [Emit(ModelTurn(t))] + ToolTurnPlan(env, tool, t, boxed) == a + b + box + [Exec(tool, t)] + c;
  }

  lemma EmittedSilent(xs: seq<Action>)
    requires |xs| <= 1 && (xs != [] ==> !xs[0].Emit?)
    ensures Emitted(xs) == []
  {
  }

  lemma EmittedEnd(ev: Ev, st: Status)
    ensures Emitted([Emit(ev), Finish(st)]) == [ev]
  {
    EmittedOne(ev);
    EmittedSilent([Finish(st)]);
    EmittedAppend([Emit(ev)], [Finish(st)]);
    assert [Emit(ev), Finish(st)] == [Emit(ev)] + [Finish(st)];
  }

  // With nothing completed the loop emits the script.
  lemma {:induction false} EmittedTurns(env: Env, abort: nat -> Abort, t: nat, boxed: bool)
    ensures Emitted(Turns(env, abort, [], t, t, boxed)) == Script(env, abort, t)
    decreases env.maxTurns - t
  {
    if t >= env.maxTurns {
      EmittedEnd(RunDone(None, t, t), Done);
    } else if abort(t).TimedOut? {
      EmittedEnd(RunFailed(true), Failed);
    } else if abort(t).CancelRequested? {
      EmittedEnd(RunCancelled(t, t), Cancelled);
    } else {
      match env.decide(t)
      case Conclude(s) =>
        EmittedOne(ModelTurn(t));
        EmittedEnd(RunDone(Some(s), t + 1, t), Done);
        EmittedAppend([Emit(ModelTurn(t))], [Emit(RunDone(Some(s), t + 1, t)), Finish(Done)]);
        assert Turns(env, abort, [], t, t, boxed) ==
               [Emit(ModelTurn(t))] + [Emit(RunDone(Some(s), t + 1, t)), Finish(Done)];
      case CallTool(tool) =>
        var next := Turns(env, abort, [], t + 1, t + 1, boxed || env.sandbox);
        EmittedTurn(env, tool, t, boxed);
        EmittedTurns(env, abort, t + 1, boxed || env.sandbox);
        EmittedAppend([Emit(ModelTurn(t))] + ToolTurnPlan(env, tool, t, boxed), next);
    }
  }

  // The events of an attempt that finds this log, if nothing throws and the process lives.
  function AttemptScript(env: Env, log: seq<Ev>, try: Try): seq<Ev> {
    [RunStarted(try.worker)] +
    if Results(log) == [] && Finished(log) && env.maxTurns > 0 then [] else Script(env, try.abort, |Results(log)|)
  }

  // The events of an attempt: a prefix of its script, then perhaps the catch block's run_failed.
  predicate CutShort(events: seq<Ev>, script: seq<Ev>, try: Try) {
    || events <= script
    || (try.faults.throwAt.Some? && !try.faults.noteLost && events != []
        && events[|events| - 1] == RunFailed(false) && events[..|events| - 1] <= script)
  }

  /** Log shape: an attempt that finds a sound log emits run_started and then, from the first turn
      without a result, the undisturbed run's remaining model_turn, tool_call, tool_result triples and
      an ending: run_done, or run_failed or run_cancelled at the turn of an abort; after run_started
      nothing, if the log is finished without a result. Whatever throws and wherever the process dies,
      a prefix of that is emitted, and after a throw perhaps run_failed. */
  lemma AttemptEvents(env: Env, log: seq<Ev>, try: Try)
    requires Sound(env, log)
    ensures CutShort(Emitted(Effects(env, log, try)), AttemptScript(env, log, try), try)
    ensures try.faults == NO_FAULTS && try.crashAt.None? ==>
              Emitted(Effects(env, log, try)) == AttemptScript(env, log, try)
  {
    var body := BodyOf(env, log, try);
    BodyEvents(env, log, try);
    CutEvents(body, try);
    if try.faults == NO_FAULTS {
      EmittedSilent(Cleanup(body));
      EmittedAppend(body, Cleanup(body));
    }
  }

  lemma BodyEvents(env: Env, log: seq<Ev>, try: Try)
    requires Sound(env, log)
    ensures Emitted(BodyOf(env, log, try)) == AttemptScript(env, log, try)
  {
    var turns := Turns(env, try.abort, GetCompletedTurns(log), 0, 0, false);
    TurnsEvents(env, try.abort, log);
    EmittedOne(RunStarted(try.worker));
    EmittedAppend([Emit(RunStarted(try.worker))], turns);
  }

  lemma CutEvents(body: seq<Action>, try: Try)
    requires body != []
    ensures CutShort(Emitted(Cut(Attempt(body, try.faults), try.crashAt)), Emitted(body), try)
  {
    var ran, after, cut := Ran(body, try.faults), After(body, try.faults), Cut(Attempt(body, try.faults), try.crashAt);
    AttemptIsRan(body, try.faults);
    EmittedPrefix(ran, body);
    EmittedAppend(ran, after);
    EmittedPrefix(cut, ran + after);
    AfterEvents(body, try.faults);
    assert Emitted(cut) <= Emitted(ran) || Emitted(cut) == Emitted(ran) + Emitted(after);
  }

  // What happens of the body, and what the catch and finally blocks add.
  function Ran(body: seq<Action>, f: Faults): seq<Action>
    requires body != []
  {
    if f.readThrows && f.throwAt != Some(0) then body[..1]
    else if f.throwAt.Some? && f.throwAt.value < |body| then Tried(body, f)
    else body
  }

  function After(body: seq<Action>, f: Faults): seq<Action>
    requires body != []
  {
    if f.readThrows || f.throwAt == Some(0) then []
    else (if ThrewInTry(body, f) then Handled(f) else []) + Cleanup(Ran(body, f))
  }

  lemma AttemptIsRan(body: seq<Action>, f: Faults)
    requires body != []
    ensures Attempt(body, f) == Ran(body, f) + After(body, f) && Ran(body, f) <= body
  {
  }

  lemma EmittedPrefix(a: seq<Action>, b: seq<Action>)
    requires a <= b
    ensures Emitted(a) <= Emitted(b)
  {
    assert b == a + b[|a|..];
    EmittedAppend(a, b[|a|..]);
  }

  lemma AfterEvents(body: seq<Action>, f: Faults)
    requires body != []
    ensures Emitted(After(body, f)) == if ThrewInTry(body, f) && !f.noteLost then [RunFailed(false)] else []
  {
    var note := if f.noteLost then [] else [Emit(RunFailed(false))];
    var write := if f.finishThrows && !f.finishApplied then [] else [Finish(Failed)];
    EmittedOne(RunFailed(false));
    EmittedSilent(write);
    EmittedAppend(note, write);
    EmittedSilent(Cleanup(Ran(body, f)));
    EmittedAppend(if ThrewInTry(body, f) then Handled(f) else [], Cleanup(Ran(body, f)));
  }

  lemma TurnsEvents(env: Env, abort: nat -> Abort, log: seq<Ev>)
    requires Sound(env, log)
    ensures Emitted(Turns(env, abort, GetCompletedTurns(log), 0, 0, false)) ==
            if Results(log) == [] && Finished(log) && env.maxTurns > 0 then [] else Script(env, abort, |Results(log)|)
  {
    var m := |Results(log)|;
    var turns := Turns(env, abort, GetCompletedTurns(log), 0, 0, false);
    SkipTo(env, abort, log, 0);
    Lookup(env, log, m);
    SoundMeans(env, log);
    if Results(log) == [] && Finished(log) && env.maxTurns > 0 {
      assert turns == [Finish(Done)];
      EmittedSilent(turns);
    } else {
      if Results(log) == [] && Finished(log) {
        assert turns == Turns(env, abort, [], 0, 0, false);
      } else {
        NothingCompleted(env, abort, log, m, false);
      }
      EmittedTurns(env, abort, m, false);
    }
  }

  // ---------- soundness is kept by every attempt ----------

  // Events that may follow a sound log with m tool results.
  predicate Fits(env: Env, m: nat, part: seq<Ev>)
    decreases |part|
  {
    part == [] ||
    var e := part[0];
    && (e.ToolResult? ==> m < LastTurn(env, 0) && env.decide(m).CallTool? && e == ResultOf(env, m))
    && (e.RunDone? ==> m == LastTurn(env, 0) && e == FinalEvent(env, m))
    && Fits(env, if e.ToolResult? then m + 1 else m, part[1..])
  }

  function Gain(part: seq<Ev>): nat {
    if part == [] then 0 else (if part[0].ToolResult? then 1 else 0) + Gain(part[1..])
  }

  predicate HasDone(part: seq<Ev>) {
    part != [] && (part[0].RunDone? || HasDone(part[1..]))
  }

  lemma {:induction false} FitsPrefix(env: Env, m: nat, part: seq<Ev>, n: nat)
    requires Fits(env, m, part) && n <= |part|
    ensures Fits(env, m, part[..n])
    decreases |part|
  {
    if n > 0 {
      FitsPrefix(env, if part[0].ToolResult? then m + 1 else m, part[1..], n - 1);
      assert part[..n][1..] == part[1..][..n - 1];
    }
  }

  lemma {:induction false} FitsKeepsSound(env: Env, log: seq<Ev>, part: seq<Ev>)
    requires Sound(env, log) && Fits(env, |Results(log)|, part)
    ensures Sound(env, log + part)
    ensures |Results(log + part)| == |Results(log)| + Gain(part)
    ensures Finished(log + part) == (Finished(log) || HasDone(part))
    decreases |part|
  {
    if part == [] {
      assert log + part == log;
    } else {
      Extend(env, log, part[0]);
      FitsKeepsSound(env, log + [part[0]], part[1..]);
      assert log + part == log + [part[0]] + part[1..];
    }
  }

  lemma {:induction false} ScriptFits(env: Env, abort: nat -> Abort, m: nat)
    requires LastTurn(env, 0) == LastTurn(env, m)
    ensures Fits(env, m, Script(env, abort, m))
    ensures (forall t: nat :: abort(t).NotAborted?) ==>
              Gain(Script(env, abort, m)) == LastTurn(env, 0) - m && HasDone(Script(env, abort, m))
    decreases env.maxTurns - m
  {
    var script := Script(env, abort, m);
    if m >= env.maxTurns || !abort(m).NotAborted? {
      assert script[1..] == [];
    } else if env.decide(m).Conclude? {
      var end := [FinalEvent(env, m)];
      assert script[1..] == end && end[1..] == [] && end[0].RunDone?;
      assert Gain(end) == Gain(end[1..]) && Gain(end[1..]) == 0;
      assert Fits(env, m, end) && Gain(end) == 0 && HasDone(end);
    } else {
      var next := Script(env, abort, m + 1);
      ScriptFits(env, abort, m + 1);
      var b, c := ToolCall(env.decide(m).tool, m), ResultOf(env, m);
      assert script[1..] == [b, c] + next;
      Tails(b, c, next);
      assert Fits(env, m, [c] + next) && Fits(env, m, [b, c] + next);
      assert Gain([c] + next) == 1 + Gain(next) && HasDone([c] + next) == HasDone(next);
      assert Gain([b, c] + next) == 1 + Gain(next) && HasDone([b, c] + next) == HasDone(next);
    }
  }

  lemma Tails(b: Ev, c: Ev, next: seq<Ev>)
    ensures ([b, c] + next)[1..] == [c] + next && ([c] + next)[1..] == next
  {
    assert [b, c] + next == [b] + ([c] + next);
  }

  // One more event.
  lemma Extend(env: Env, log: seq<Ev>, e: Ev)
    requires Sound(env, log)
    requires e.ToolResult? ==>
               |Results(log)| < LastTurn(env, 0) && env.decide(|Results(log)|).CallTool? && e == ResultOf(env, |Results(log)|)
    requires e.RunDone? ==> |Results(log)| == LastTurn(env, 0) && e == FinalEvent(env, |Results(log)|)
    ensures Sound(env, log + [e])
    ensures Results(log + [e]) == Results(log) + if e.ToolResult? then [e] else []
    ensures Finished(log + [e]) == (Finished(log) || e.RunDone?)
  {
    assert (log + [e])[..|log + [e]| - 1] == log;
  }

  lemma AttemptScriptFits(env: Env, log: seq<Ev>, try: Try)
    requires Sound(env, log)
    ensures var s := AttemptScript(env, log, try);
            && Fits(env, |Results(log)|, s)
            && (Calm(try) ==> |Results(log)| + Gain(s) == LastTurn(env, 0) && (Finished(log) || HasDone(s)))
  {
    SoundMeans(env, log);
    SameLast(env, |Results(log)|);
    ScriptFits(env, try.abort, |Results(log)|);
    var s := AttemptScript(env, log, try);
    assert s == [RunStarted(try.worker)] + s[1..];
    assert s[1..] == [] || s[1..] == Script(env, try.abort, |Results(log)|);
  }

  lemma AttemptIsSound(env: Env, log: seq<Ev>, try: Try)
    requires Sound(env, log)
    ensures var after := log + Emitted(Effects(env, log, try));
            Sound(env, after) && (Calm(try) ==> Finished(after) && |Results(after)| == LastTurn(env, 0))
  {
    var events, script := Emitted(Effects(env, log, try)), AttemptScript(env, log, try);
    AttemptEvents(env, log, try);
    AttemptScriptFits(env, log, try);
    CutShortKeepsSound(env, log, events, script, try);
    if Calm(try) {
      FitsKeepsSound(env, log, script);
    }
  }

  lemma CutShortKeepsSound(env: Env, log: seq<Ev>, events: seq<Ev>, script: seq<Ev>, try: Try)
    requires Sound(env, log) && Fits(env, |Results(log)|, script) && CutShort(events, script, try)
    ensures Sound(env, log + events)
  {
    if events <= script {
      PrefixKeepsSound(env, log, events, script);
    } else {
      var part := events[..|events| - 1];
      PrefixKeepsSound(env, log, part, script);
      Extend(env, log + part, RunFailed(false));
      assert log + events == log + part + [RunFailed(false)];
    }
  }

  lemma PrefixKeepsSound(env: Env, log: seq<Ev>, part: seq<Ev>, script: seq<Ev>)
    requires Sound(env, log) && Fits(env, |Results(log)|, script) && part <= script
    ensures Sound(env, log + part)
  {
    FitsPrefix(env, |Results(log)|, script, |part|);
    assert script[..|part|] == part;
    FitsKeepsSound(env, log, part);
  }

  lemma SameLast(env: Env, m: nat)
    requires m <= LastTurn(env, 0)
    ensures LastTurn(env, 0) == LastTurn(env, m)
  {
    if m > 0 {
      ToolTurnsBefore(env, 0, m - 1);
    }
  }

  lemma {:induction false} HistoryIsSound(env: Env, tries: seq<Try>)
    ensures Sound(env, Log(env, tries))
  {
    if tries != [] {
      var before, try := History(env, tries[..|tries| - 1]), tries[|tries| - 1];
      HistoryIsSound(env, tries[..|tries| - 1]);
      EmittedAppend(before, Effects(env, Emitted(before), try));
      AttemptIsSound(env, Emitted(before), try);
    }
  }

  // The log of one attempt that nothing disturbs.
  function Undisturbed(env: Env, worker: WorkerId): seq<Ev> {
    Log(env, [CalmTry(worker)])
  }

  /** Main result. After any finite sequence of attempts by any workers, whatever throws in them,
      wherever they are aborted and wherever they die: the stored tool results are a prefix of the
      undisturbed run's, and all of them once the last attempt was disturbed by nothing; and every
      run_done event equals the undisturbed run's. */
  lemma CrashResumeRefines(env: Env, tries: seq<Try>, w: WorkerId)
    ensures Results(Log(env, tries)) <= Results(Undisturbed(env, w))
    ensures forall e :: e in Log(env, tries) && e.RunDone? ==> e in Undisturbed(env, w)
    ensures forall d, e :: d in Log(env, tries) && e in Undisturbed(env, w) && d.RunDone? && e.RunDone? ==> d == e
    ensures tries != [] && Calm(tries[|tries| - 1]) ==>
              Results(Log(env, tries)) == Results(Undisturbed(env, w)) && Finished(Log(env, tries))
  {
    var log, ideal := Log(env, tries), Undisturbed(env, w);
    HistoryIsSound(env, tries);
    CompletedIsWhole(env, [CalmTry(w)]);
    SoundMeans(env, log);
    SoundMeans(env, ideal);
    FinishedHasEvent(ideal);
    if tries != [] && Calm(tries[|tries| - 1]) {
      CompletedIsWhole(env, tries);
    }
  }

  lemma CompletedIsWhole(env: Env, tries: seq<Try>)
    requires tries != [] && Calm(tries[|tries| - 1])
    ensures Sound(env, Log(env, tries)) && Finished(Log(env, tries))
    ensures |Results(Log(env, tries))| == LastTurn(env, 0)
  {
    var before, try := History(env, tries[..|tries| - 1]), tries[|tries| - 1];
    HistoryIsSound(env, tries);
    HistoryIsSound(env, tries[..|tries| - 1]);
    EmittedAppend(before, Effects(env, Emitted(before), try));
    AttemptIsSound(env, Emitted(before), try);
  }

  lemma {:induction false} FinishedHasEvent(log: seq<Ev>)
    requires Finished(log)
    ensures exists e :: e in log && e.RunDone?
  {
    var last := log[|log| - 1];
    if last.RunDone? {
      assert last in log;
    } else {
      FinishedHasEvent(log[..|log| - 1]);
      var e :| e in log[..|log| - 1] && e.RunDone?;
      assert e in log;
    }
  }

  // ---------- how often a tool really runs ----------

  // How many of the effects run the tool of turn t.
  function Runs(trace: seq<Action>, t: nat): nat {
    if trace == [] then 0
    else
      var last := trace[|trace| - 1];
      Runs(trace[..|trace| - 1], t) + if last.Exec? && last.turn == t then 1 else 0
  }

  function ResultsFor(log: seq<Ev>, t: nat): nat {
    if log == [] then 0
    else
      var last := log[|log| - 1];
      ResultsFor(log[..|log| - 1], t) + if last.ToolResult? && last.turn == t then 1 else 0
  }

  // These effects run the tool of turn t and do not store its result.
  predicate Unstored(trace: seq<Action>, t: nat) {
    Runs(trace, t) > 0 && ResultsFor(Emitted(trace), t) == 0
  }

  // How many attempts did that.
  function Repeats(env: Env, tries: seq<Try>, t: nat): nat {
    if tries == [] then 0
    else
      var before := tries[..|tries| - 1];
      Repeats(env, before, t) + if Unstored(Effects(env, Log(env, before), tries[|tries| - 1]), t) then 1 else 0
  }

  // The last effect ran the tool of turn t.
  predicate EndsInRun(trace: seq<Action>, t: nat) {
    trace != [] && trace[|trace| - 1].Exec? && trace[|trace| - 1].turn == t
  }

  // Each tool run is followed by its result, and each result preceded by its run.
  predicate Paired(trace: seq<Action>) {
    && (forall i :: 0 <= i < |trace| - 1 && trace[i].Exec? ==>
          trace[i + 1].Emit? && trace[i + 1].ev.ToolResult? && trace[i + 1].ev.turn == trace[i].turn)
    && (forall i :: 0 <= i < |trace| && trace[i].Emit? && trace[i].ev.ToolResult? ==>
          i > 0 && trace[i - 1].Exec? && trace[i - 1].turn == trace[i].ev.turn)
  }

  lemma {:induction false} PairedTurns(env: Env, abort: nat -> Abort, done: seq<CompletedTurn>, turn: nat, calls: nat, boxed: bool)
    ensures Paired(Turns(env, abort, done, turn, calls, boxed))
    ensures var p := Turns(env, abort, done, turn, calls, boxed);
            p != [] && !(p[0].Emit? && p[0].ev.ToolResult?) && !p[|p| - 1].Exec?
    decreases env.maxTurns - turn
  {
    if turn < env.maxTurns {
      var already := IsAlreadyExecuted(done, turn);
      if already.Some? {
        if !already.value.done {
          PairedTurns(env, abort, done, turn + 1, calls + 1, boxed);
        }
      } else if abort(turn).NotAborted? && env.decide(turn).CallTool? {
        var head := [Emit(ModelTurn(turn))] + ToolTurnPlan(env, env.decide(turn).tool, turn, boxed);
        var next := Turns(env, abort, done, turn + 1, calls + 1, boxed || env.sandbox);
        PairedTurns(env, abort, done, turn + 1, calls + 1, boxed || env.sandbox);
        PairedHead(env, turn, boxed);
        PairedJoin(head, next);
        assert Turns(env, abort, done, turn, calls, boxed) == head + next;
      } else {
        PairedEnd(env, abort, done, turn, calls, boxed);
      }
    }
  }

  lemma PairedHead(env: Env, turn: nat, boxed: bool)
    requires env.decide(turn).CallTool?
    ensures var head := [Emit(ModelTurn(turn))] + ToolTurnPlan(env, env.decide(turn).tool, turn, boxed);
            Paired(head) && head[0] == Emit(ModelTurn(turn)) && head[|head| - 1].Emit?
  {
  }

  // Every way out of the loop by an abort or the model runs no tool.
  lemma PairedEnd(env: Env, abort: nat -> Abort, done: seq<CompletedTurn>, turn: nat, calls: nat, boxed: bool)
    requires turn < env.maxTurns && IsAlreadyExecuted(done, turn).None?
    requires !abort(turn).NotAborted? || env.decide(turn).Conclude?
    ensures var p := Turns(env, abort, done, turn, calls, boxed);
            && |p| >= 2 && (forall i :: 0 <= i < |p| ==> !p[i].Exec? && !(p[i].Emit? && p[i].ev.ToolResult?))
  {
  }

  lemma PairedJoin(a: seq<Action>, b: seq<Action>)
    requires Paired(a) && Paired(b)
    requires a != [] ==> !a[|a| - 1].Exec?
    requires b != [] ==> !(b[0].Emit? && b[0].ev.ToolResult?)
    ensures Paired(a + b)
  {
  }

  lemma {:induction false} RunsArePaired(trace: seq<Action>, t: nat)
    requires Paired(trace)
    ensures Runs(trace, t) == ResultsFor(Emitted(trace), t) + if EndsInRun(trace, t) then 1 else 0
  {
    if trace != [] {
      var front, last := trace[..|trace| - 1], trace[|trace| - 1];
      RunsArePaired(front, t);
      if front != [] {
        var i := |trace| - 2;
        assert trace[i] == front[|front| - 1] && trace[i + 1] == last;
        assert front[|front| - 1].Exec? ==> last.Emit? && last.ev.ToolResult? && last.ev.turn == front[|front| - 1].turn;
      }
      assert last.Emit? && last.ev.ToolResult? ==> EndsInRun(front, last.ev.turn);
      if last.Emit? {
        assert Emitted(trace)[..|Emitted(trace)| - 1] == Emitted(front);
      } else {
        assert Emitted(trace) == Emitted(front);
      }
    }
  }

  lemma {:induction false} ResultsForAppend(a: seq<Ev>, b: seq<Ev>, t: nat)
    ensures ResultsFor(a + b, t) == ResultsFor(a, t) + ResultsFor(b, t)
  {
    if b == [] {
      assert a + b == a;
    } else {
      ResultsForAppend(a, b[..|b| - 1], t);
      assert (a + b)[..|a + b| - 1] == a + b[..|b| - 1];
    }
  }

  lemma {:induction false} RunsAppend(a: seq<Action>, b: seq<Action>, t: nat)
    ensures Runs(a + b, t) == Runs(a, t) + Runs(b, t)
  {
    if b == [] {
      assert a + b == a;
    } else {
      RunsAppend(a, b[..|b| - 1], t);
      assert (a + b)[..|a + b| - 1] == a + b[..|b| - 1];
    }
  }

  lemma BodyIsPaired(env: Env, log: seq<Ev>, try: Try)
    ensures var body := BodyOf(env, log, try); Paired(body) && !body[|body| - 1].Exec?
  {
    PairedTurns(env, try.abort, GetCompletedTurns(log), 0, 0, false);
    PairedJoin([Emit(RunStarted(try.worker))], Turns(env, try.abort, GetCompletedTurns(log), 0, 0, false));
  }

  lemma {:induction false} SoundCounts(env: Env, log: seq<Ev>, t: nat)
    requires Sound(env, log)
    ensures ResultsFor(log, t) == if t < |Results(log)| then 1 else 0
  {
    if log != [] {
      SoundCounts(env, log[..|log| - 1], t);
    }
  }

  // What the attempt does of the loop, before its catch and finally blocks.
  function LoopPart(env: Env, log: seq<Ev>, try: Try): (p: seq<Action>)
    ensures p <= Effects(env, log, try) && p <= BodyOf(env, log, try)
  {
    AttemptIsRan(BodyOf(env, log, try), try.faults);
    Cut(Ran(BodyOf(env, log, try), try.faults), try.crashAt)
  }

  // No attempt runs a tool twice: the whole body would store the result twice.
  lemma LoopRunsOnce(env: Env, log: seq<Ev>, try: Try, t: nat)
    requires Sound(env, log)
    ensures Runs(LoopPart(env, log, try), t) <= 1
  {
    BodyStoresOnce(env, log, try, t);
    BodyIsPaired(env, log, try);
    RunsArePaired(BodyOf(env, log, try), t);
    PartRunsLess(LoopPart(env, log, try), BodyOf(env, log, try), t);
  }

  lemma PartRunsLess(part: seq<Action>, body: seq<Action>, t: nat)
    requires part <= body
    ensures Runs(part, t) <= Runs(body, t)
  {
    RunsAppend(part, body[|part|..], t);
    assert body == part + body[|part|..];
  }

  lemma BodyStoresOnce(env: Env, log: seq<Ev>, try: Try, t: nat)
    requires Sound(env, log)
    ensures ResultsFor(Emitted(BodyOf(env, log, try)), t) <= 1
  {
    var events := Emitted(BodyOf(env, log, try));
    BodyEvents(env, log, try);
    AttemptScriptFits(env, log, try);
    FitsKeepsSound(env, log, events);
    SoundCounts(env, log + events, t);
    ResultsForAppend(log, events, t);
  }

  // No tool is run, and no result stored.
  predicate Idles(trace: seq<Action>) {
    forall k :: 0 <= k < |trace| ==> !trace[k].Exec? && !(trace[k].Emit? && trace[k].ev.ToolResult?)
  }

  lemma {:induction false} Idle(rest: seq<Action>, t: nat)
    requires Idles(rest)
    ensures Runs(rest, t) == 0 && ResultsFor(Emitted(rest), t) == 0
  {
    if rest != [] {
      Idle(rest[..|rest| - 1], t);
      ResultsForAppend(Emitted(rest[..|rest| - 1]), if rest[|rest| - 1].Emit? then [rest[|rest| - 1].ev] else [], t);
    }
  }

  // The catch and finally blocks run no tool and store no result.
  lemma LoopCounts(env: Env, log: seq<Ev>, try: Try, t: nat)
    ensures var part, all := LoopPart(env, log, try), Effects(env, log, try);
            Runs(all, t) == Runs(part, t) && ResultsFor(Emitted(all), t) == ResultsFor(Emitted(part), t)
  {
    var part, all := LoopPart(env, log, try), Effects(env, log, try);
    var body := BodyOf(env, log, try);
    AttemptIsRan(body, try.faults);
    CutOfJoin(Ran(body, try.faults), After(body, try.faults), try.crashAt);
    IdleAppend(part, all[|part|..], t);
    assert all == part + all[|part|..];
  }

  lemma CutOfJoin(a: seq<Action>, b: seq<Action>, crashAt: Option<nat>)
    requires Idles(b)
    ensures var part, all := Cut(a, crashAt), Cut(a + b, crashAt);
            part <= all && Idles(all[|part|..])
  {
    var part, all := Cut(a, crashAt), Cut(a + b, crashAt);
    assert all[|part|..] == [] || all[|part|..] == b[..|all| - |a|];
  }

  lemma IdleAppend(part: seq<Action>, rest: seq<Action>, t: nat)
    requires Idles(rest)
    ensures Runs(part + rest, t) == Runs(part, t)
    ensures ResultsFor(Emitted(part + rest), t) == ResultsFor(Emitted(part), t)
  {
    Idle(rest, t);
    RunsAppend(part, rest, t);
    EmittedAppend(part, rest);
    ResultsForAppend(Emitted(part), Emitted(rest), t);
  }

  /** An attempt runs the tool of a turn without storing its result exactly if its loop ends right
      there: the process dies between the two, or the tool or the emit of its result throws. In no
      other way, and no attempt runs a tool twice. */
  lemma UnstoredIffCutOff(env: Env, log: seq<Ev>, try: Try, t: nat)
    requires Sound(env, log)
    ensures var part, all := LoopPart(env, log, try), Effects(env, log, try);
            && (Unstored(all, t) <==> EndsInRun(part, t))
            && Runs(all, t) == ResultsFor(Emitted(all), t) + (if Unstored(all, t) then 1 else 0) <= 1
            && (Unstored(all, t) ==> try.crashAt == Some(|part|) || ThrewInTry(BodyOf(env, log, try), try.faults))
  {
    var part, body := LoopPart(env, log, try), BodyOf(env, log, try);
    BodyIsPaired(env, log, try);
    PairedPrefix(body, part);
    RunsArePaired(part, t);
    LoopRunsOnce(env, log, try, t);
    LoopCounts(env, log, try, t);
  }

  lemma PairedPrefix(trace: seq<Action>, part: seq<Action>)
    requires Paired(trace) && part <= trace
    ensures Paired(part)
  {
    assert forall i :: 0 <= i < |part| ==> part[i] == trace[i];
  }

  /** Main result. Over all attempts, the tool of turn t runs once if its result is stored, plus once
      for every attempt that ran it and did not store the result, and never otherwise. */
  lemma {:induction false} ToolRuns(env: Env, tries: seq<Try>, t: nat)
    ensures Runs(History(env, tries), t) ==
              (if t < |Results(Log(env, tries))| then 1 else 0) + Repeats(env, tries, t)
  {
    HistoryIsSound(env, tries);
    SoundCounts(env, Log(env, tries), t);
    RunsAreResults(env, tries, t);
  }

  lemma {:induction false} RunsAreResults(env: Env, tries: seq<Try>, t: nat)
    ensures Runs(History(env, tries), t) == ResultsFor(Log(env, tries), t) + Repeats(env, tries, t)
  {
    if tries != [] {
      var early, try := tries[..|tries| - 1], tries[|tries| - 1];
      var before, now := History(env, early), Effects(env, Log(env, early), try);
      RunsAreResults(env, early, t);
      HistoryIsSound(env, early);
      UnstoredIffCutOff(env, Log(env, early), try, t);
      RunsAppend(before, now, t);
      EmittedAppend(before, now);
      ResultsForAppend(Emitted(before), Emitted(now), t);
    }
  }

  // In a first attempt the emit of turn 0's result throws, and then the status write of the catch block.
  function Rejecting(env: Env, w: WorkerId): Try {
    Try(w, Faults(Some(if env.sandbox then 5 else 4), false, false, false, true, false), NoAbort, None)
  }

  // What that attempt does before the throw.
  function RunsFirstTool(env: Env, w: WorkerId): seq<Action>
    requires env.decide(0).CallTool?
  {
    [Emit(RunStarted(w)), Emit(ModelTurn(0)), Emit(ToolCall(env.decide(0).tool, 0))]
    + (if env.sandbox then [ClaimBox] else []) + [Exec(env.decide(0).tool, 0)]
  }

  lemma RejectingEffects(env: Env, w: WorkerId)
    requires 0 < env.maxTurns && env.decide(0).CallTool?
    ensures var try, part := Rejecting(env, w), RunsFirstTool(env, w);
            && LoopPart(env, [], try) == part && ThrewInTry(BodyOf(env, [], try), try.faults)
            && Effects(env, [], try) == part + [Emit(RunFailed(false))] + Cleanup(part)
  {
    var try, part := Rejecting(env, w), RunsFirstTool(env, w);
    var body := BodyOf(env, [], try);
    LiveTurn(env, NoAbort, [], 0, 0, false);
    AttemptIsRan(body, try.faults);
    assert |part| < |body| && body[..|part|] == part;
  }

  lemma {:induction false} NoStatusWritten(status: Status, trace: seq<Action>)
    requires forall a :: a in trace ==> !a.Finish?
    ensures StatusAfter(status, trace) == status
  {
    if trace != [] {
      NoStatusWritten(status, trace[..|trace| - 1]);
    }
  }

  /** A tool runs twice although no process ever died: storing its result throws, then the status write
      of the catch block throws, so the run is left running; once it has been reset, the next attempt
      runs the tool again. */
  lemma RejectedToolRunsAgain(env: Env, w: WorkerId, v: WorkerId)
    requires 0 < env.maxTurns && env.decide(0).CallTool?
    ensures var try := Rejecting(env, w);
            && try.crashAt.None? && Rejects(BodyOf(env, [], try), try.faults)
            && StatusAfter(Running, Effects(env, [], try)) == Running && Unstored(Effects(env, [], try), 0)
    ensures Runs(History(env, [Rejecting(env, w), CalmTry(v)]), 0) == 2
  {
    RejectingLeavesRunning(env, w);
    RepeatedByCalm(env, Rejecting(env, w), CalmTry(v));
  }

  lemma RejectingLeavesRunning(env: Env, w: WorkerId)
    requires 0 < env.maxTurns && env.decide(0).CallTool?
    ensures var try := Rejecting(env, w);
            && Rejects(BodyOf(env, [], try), try.faults)
            && StatusAfter(Running, Effects(env, [], try)) == Running && Unstored(Effects(env, [], try), 0)
  {
    RejectingEffects(env, w);
    NoStatusWritten(Running, Effects(env, [], Rejecting(env, w)));
    UnstoredIffCutOff(env, [], Rejecting(env, w), 0);
  }

  lemma RepeatedByCalm(env: Env, try: Try, calm: Try)
    requires 0 < env.maxTurns && env.decide(0).CallTool? && Calm(calm) && Unstored(Effects(env, [], try), 0)
    ensures Runs(History(env, [try, calm]), 0) == 2
  {
    var tries := [try, calm];
    RepeatsNext(env, [], try, 0);
    CalmStores(env, [try], calm, 0);
    assert tries == [try] + [calm] && [try] == [] + [try];
    CompletedIsWhole(env, tries);
    ToolRuns(env, tries, 0);
  }

  lemma RepeatsNext(env: Env, early: seq<Try>, try: Try, t: nat)
    ensures Repeats(env, early + [try], t) ==
            Repeats(env, early, t) + if Unstored(Effects(env, Log(env, early), try), t) then 1 else 0
  {
    assert (early + [try])[..|early|] == early;
  }

  // An undisturbed attempt repeats nothing later.
  lemma CalmStores(env: Env, early: seq<Try>, try: Try, t: nat)
    requires Calm(try)
    ensures Repeats(env, early + [try], t) == Repeats(env, early, t)
  {
    HistoryIsSound(env, early);
    UnstoredIffCutOff(env, Log(env, early), try, t);
    RepeatsNext(env, early, try, t);
  }

  /** A run that is already finished is recognised as such only without tool results: its run_done
      event carries no `turn`, is filed under turn 0, and is found there only behind a tool result. So
      an undisturbed attempt concludes a finished run again, with the same event, if and only if there
      is a tool result or the cap lies below one turn. */
  lemma FinishedRunIsConcludedAgain(env: Env, log: seq<Ev>, try: Try)
    requires Sound(env, log) && Finished(log) && Calm(try)
    ensures var part := Emitted(Effects(env, log, try));
            && ((exists e :: e in part && e.RunDone?) <==> Results(log) != [] || env.maxTurns <= 0)
            && (forall e :: e in part && e.RunDone? ==> e in log)
  {
    AttemptEvents(env, log, try);
    SoundMeans(env, log);
    SameLast(env, |Results(log)|);
    FinishedHasEvent(log);
    FinalScript(env, try.abort, |Results(log)|);
  }

  // With every tool turn done, only the ending is left.
  lemma FinalScript(env: Env, abort: nat -> Abort, m: nat)
    requires m == LastTurn(env, m) && abort(m).NotAborted?
    ensures var script := Script(env, abort, m);
            && FinalEvent(env, m) in script
            && forall e :: e in script && e.RunDone? ==> e == FinalEvent(env, m)
  {
    var script := Script(env, abort, m);
    assert script[|script| - 1] == FinalEvent(env, m);
  }

  // ---------- containers ----------

  function Claims(trace: seq<Action>): nat {
    multiset(trace)[ClaimBox]
  }

  lemma {:induction false} TurnsClaimOnce(env: Env, abort: nat -> Abort, done: seq<CompletedTurn>, turn: nat, calls: nat, boxed: bool)
    ensures Claims(Turns(env, abort, done, turn, calls, boxed)) <= (if boxed then 0 else 1)
    ensures ReleaseBox !in Turns(env, abort, done, turn, calls, boxed)
    decreases env.maxTurns - turn
  {
    if turn < env.maxTurns {
      var already := IsAlreadyExecuted(done, turn);
      if already.Some? {
        if !already.value.done {
          TurnsClaimOnce(env, abort, done, turn + 1, calls + 1, boxed);
        }
      } else if abort(turn).NotAborted? && env.decide(turn).CallTool? {
        var head := [Emit(ModelTurn(turn))] + ToolTurnPlan(env, env.decide(turn).tool, turn, boxed);
        var next := Turns(env, abort, done, turn + 1, calls + 1, boxed || env.sandbox);
        TurnsClaimOnce(env, abort, done, turn + 1, calls + 1, boxed || env.sandbox);
        HeadClaims(env, turn, boxed);
        ClaimsAppend(head, next);
      } else {
        EndClaims(env, abort, done, turn, calls, boxed);
      }
    }
  }

  // Every way out of the loop by an abort or the model leaves containers alone.
  lemma EndClaims(env: Env, abort: nat -> Abort, done: seq<CompletedTurn>, turn: nat, calls: nat, boxed: bool)
    requires turn < env.maxTurns && IsAlreadyExecuted(done, turn).None?
    requires !abort(turn).NotAborted? || env.decide(turn).Conclude?
    ensures Claims(Turns(env, abort, done, turn, calls, boxed)) == 0
    ensures ReleaseBox !in Turns(env, abort, done, turn, calls, boxed)
  {
  }

  lemma HeadClaims(env: Env, turn: nat, boxed: bool)
    requires env.decide(turn).CallTool?
    ensures var head := [Emit(ModelTurn(turn))] + ToolTurnPlan(env, env.decide(turn).tool, turn, boxed);
            Claims(head) == (if env.sandbox && !boxed then 1 else 0) && ReleaseBox !in head
  {
  }

  lemma ClaimsAppend(a: seq<Action>, b: seq<Action>)
    ensures Claims(a + b) == Claims(a) + Claims(b)
  {
  }

  // At most one container is claimed, and then released once, as the last effect.
  predicate Tidy(t: seq<Action>) {
    && Claims(t) <= 1 && multiset(t)[ReleaseBox] == Claims(t)
    && (ReleaseBox in t ==> t[|t| - 1] == ReleaseBox)
  }

  /** Whatever is aborted or already done and whatever throws, the catch block's own status write
      included: an attempt that is not killed claims at most one container, and releases it exactly
      once, as its last effect, whether it returns or lets an exception out. */
  lemma ContainersAreReleased(env: Env, abort: nat -> Abort, w: WorkerId, log: seq<Ev>, f: Faults)
    ensures Tidy(Attempt(Body(env, abort, w, log), f))
  {
    var body := Body(env, abort, w, log);
    var turns := Turns(env, abort, GetCompletedTurns(log), 0, 0, false);
    TurnsClaimOnce(env, abort, GetCompletedTurns(log), 0, 0, false);
    ClaimsAppend([Emit(RunStarted(w))], turns);
    assert body == [Emit(RunStarted(w))] + turns;
    AttemptReleases(body, f);
  }

  lemma AttemptReleases(body: seq<Action>, f: Faults)
    requires body != [] && body[0].Emit? && Claims(body) <= 1 && ReleaseBox !in body
    ensures Tidy(Attempt(body, f))
  {
    AttemptForms(body, f);
    if f.throwAt == Some(0) || f.readThrows {
      StartedOnly(body);
    } else {
      RanClaims(body, Ran(body, f));
      HandledClaims(f);
      ReleasedOnce(Ran(body, f), if ThrewInTry(body, f) then Handled(f) else []);
    }
  }

  lemma AttemptForms(body: seq<Action>, f: Faults)
    requires body != []
    ensures if f.throwAt == Some(0) || f.readThrows then Attempt(body, f) == [] || Attempt(body, f) == body[..1]
            else Ran(body, f) <= body && Attempt(body, f) ==
                 Ran(body, f) + (if ThrewInTry(body, f) then Handled(f) else []) + Cleanup(Ran(body, f))
  {
  }

  lemma RanClaims(body: seq<Action>, ran: seq<Action>)
    requires ran <= body
    ensures Claims(ran) <= Claims(body) && (ReleaseBox in ran ==> ReleaseBox in body)
  {
    ClaimsAppend(ran, body[|ran|..]);
    assert body == ran + body[|ran|..];
  }

  lemma HandledClaims(f: Faults)
    ensures Claims(Handled(f)) == 0 && ReleaseBox !in Handled(f)
  {
  }

  lemma StartedOnly(body: seq<Action>)
    requires body != [] && body[0].Emit?
    ensures Tidy([]) && Tidy(body[..1])
  {
    assert body[..1] == [body[0]];
  }

  /** The exit the finally block is for: a tool throws while a container is held, and so does the
      status write of the catch block. The exception escapes, and the container is released. */
  lemma RejectedAfterRelease(env: Env, w: WorkerId, tool: string)
    requires env.sandbox && 0 < env.maxTurns && env.decide(0) == CallTool(tool)
    ensures var body, f := Body(env, NoAbort, w, []), Faults(Some(4), false, false, false, true, false);
            && body[4] == Exec(tool, 0) && Rejects(body, f)
            && Attempt(body, f) == [Emit(RunStarted(w)), Emit(ModelTurn(0)), Emit(ToolCall(tool, 0)), ClaimBox,
                                    Emit(RunFailed(false)), ReleaseBox]
  {
    var body := Body(env, NoAbort, w, []);
    var tried := [Emit(RunStarted(w)), Emit(ModelTurn(0)), Emit(ToolCall(tool, 0)), ClaimBox];
    LiveTurn(env, NoAbort, [], 0, 0, false);
    assert body[..4] == tried;
    assert tried[3] == ClaimBox;
  }

  lemma ReleasedOnce(tried: seq<Action>, handled: seq<Action>)
    requires Claims(tried) <= 1 && ReleaseBox !in tried
    requires Claims(handled) == 0 && ReleaseBox !in handled
    ensures Tidy(tried + handled + Cleanup(tried))
  {
    ClaimsAppend(tried, handled);
    ClaimsAppend(tried + handled, Cleanup(tried));
    assert ClaimBox in tried <==> Claims(tried) == 1;
  }
}
