/** The warm container pool. */
module Pool {
  import opened Store

  // Containers are numbered in the order their boots succeed. The last four fields are history:
  // containers handed to claims, refills that failed, cold boots awaited, and cold boots that failed.
  datatype State = State(
    size: nat,
    pool: seq<nat>,
    booting: nat,
    warmClaims: nat,
    coldClaims: nat,
    poolOccupancy: nat,
    booted: nat,
    handed: seq<nat>,
    failedRefills: nat,
    coldBooting: nat,
    failedClaims: nat)

  // One stretch of code between two awaits.
  datatype Step =
    | Claim
    | ColdBooted
    | ColdFailed
    | Refilled
    | RefillFailed

  function Initial(size: nat): State {
    State(size, seq(size, i => i), 0, 0, 0, size, size, [], 0, 0, 0)
  }

  predicate Enabled(s: State, step: Step) {
    match step
    case Claim => true
    case ColdBooted => 0 < s.coldBooting
    case ColdFailed => 0 < s.coldBooting
    case Refilled => 0 < s.booting
    case RefillFailed => 0 < s.booting
  }

  // A refill starts only while the pool and the boots under way fall short of the size.
  function StartRefill(s: State): State {
    if |s.pool| + s.booting >= s.size then s else s.(booting := s.booting + 1)
  }

  function After(s: State, step: Step): State
    requires Enabled(s, step)
  {
    match step
    case Claim =>
      if s.pool == [] then s.(coldClaims := s.coldClaims + 1, coldBooting := s.coldBooting + 1)
      else
        var top := |s.pool| - 1;
        StartRefill(s.(
          pool := s.pool[..top], warmClaims := s.warmClaims + 1,
          poolOccupancy := top, handed := s.handed + [s.pool[top]]))
    case ColdBooted =>
      s.(coldBooting := s.coldBooting - 1, booted := s.booted + 1,
         handed := s.handed + [s.booted], poolOccupancy := |s.pool|)
    case ColdFailed => s.(coldBooting := s.coldBooting - 1, failedClaims := s.failedClaims + 1)
    case Refilled =>
      s.(booting := s.booting - 1, pool := s.pool + [s.booted], booted := s.booted + 1,
         poolOccupancy := |s.pool| + 1)
    case RefillFailed =>
      s.(booting := s.booting - 1, failedRefills := s.failedRefills + 1, poolOccupancy := |s.pool|)
  }

  predicate Possible(s: State, steps: seq<Step>)
    decreases steps
  {
    steps == [] || (Enabled(s, steps[0]) && Possible(After(s, steps[0]), steps[1..]))
  }

  function Run(s: State, steps: seq<Step>): State
    requires Possible(s, steps)
    decreases steps
  {
    if steps == [] then s else Run(After(s, steps[0]), steps[1..])
  }

  lemma {:induction false} RunOn(s: State, before: seq<Step>, after: seq<Step>)
    requires Possible(s, before) && Possible(Run(s, before), after)
    ensures Possible(s, before + after) && Run(s, before + after) == Run(Run(s, before), after)
    decreases before
  {
    if before == [] {
      assert before + after == after;
    } else {
      RunOn(After(s, before[0]), before[1..], after);
      assert (before + after)[1..] == before[1..] + after;
    }
  }

  // ---------- The orchestrator ----------

  class DockerOrchestrator {
    const poolSize: nat
    var pool: seq<nat>
    var booting: nat
    var warmClaims: nat
    var coldClaims: nat
    var poolOccupancy: nat
    var booted: nat
    var handed: seq<nat>
    var failedRefills: nat
    var coldBooting: nat
    var failedClaims: nat

    ghost function View(): State
      reads this
    {
      State(poolSize, pool, booting, warmClaims, coldClaims, poolOccupancy,
            booted, handed, failedRefills, coldBooting, failedClaims)
    }

    // init(), every boot having succeeded; the boots finish in any order, which the numbering absorbs.
    constructor (poolSize: nat)
      ensures View() == Initial(poolSize)
    {
      this.poolSize := poolSize;
      pool := [];
      booting, warmClaims, coldClaims, poolOccupancy, booted := 0, 0, 0, 0, 0;
      handed, failedRefills, coldBooting, failedClaims := [], 0, 0, 0;
      new;
      while booted < poolSize
        invariant booted <= poolSize && pool == seq(booted, i => i)
        invariant View() == Initial(poolSize).(pool := pool, booted := booted, poolOccupancy := 0)
      {
        var c := Boot();
        pool := pool + [c];
      }
      poolOccupancy := |pool|;
    }

    method Boot() returns (c: nat)
      modifies this`booted
      ensures c == old(booted) && booted == old(booted) + 1
    {
      c := booted;
      booted := booted + 1;
    }

    // The part of refill() that runs inside claim(), up to its first await.
    method BeginRefill()
      modifies this`booting
      ensures View() == StartRefill(old(View()))
    {
      if |pool| + booting >= poolSize { return; }
      booting := booting + 1;
    }

    // The rest of refill(), when its boot has settled.
    method EndRefill(succeeded: bool)
      requires 0 < booting
      modifies this
      ensures View() == After(old(View()), if succeeded then Refilled else RefillFailed)
    {
      if succeeded {
        var c := Boot();
        pool := pool + [c];
      } else {
        failedRefills := failedRefills + 1;
      }
      booting := booting - 1;
      poolOccupancy := |pool|;
    }

    // What other claims and refills do while this claim awaits its boot.
    method Await(others: seq<Step>)
      requires Possible(View(), others)
      modifies this
      ensures View() == Run(old(View()), others)
    {
      ghost var start := View();
      var i := 0;
      while i < |others|
        invariant i <= |others|
        invariant Possible(View(), others[i..]) && Run(View(), others[i..]) == Run(start, others)
      {
        ghost var was := View();
        assert others[i..][1..] == others[i + 1..];
        match others[i] {
          case Claim =>
            var c := BeginClaim();
          case ColdBooted =>
            var c := EndClaim(true);
          case ColdFailed =>
            var c := EndClaim(false);
          case Refilled =>
            EndRefill(true);
          case RefillFailed =>
            EndRefill(false);
        }
        assert View() == After(was, others[i]);
        i := i + 1;
      }
    }

    // claim() up to its first await; a warm claim has none.
    method BeginClaim() returns (c: Option<nat>)
      modifies this
      ensures View() == After(old(View()), Claim)
      ensures c == if old(pool) == [] then None else Some(old(pool)[|old(pool)| - 1])
    {
      if |pool| > 0 {
        c := Some(pool[|pool| - 1]);
        pool := pool[..|pool| - 1];
        warmClaims := warmClaims + 1;
        handed := handed + [c.value];
        BeginRefill();
        poolOccupancy := |pool|;
      } else {
        coldClaims := coldClaims + 1;
        coldBooting := coldBooting + 1;
        c := None;
      }
    }

    // claim() from its boot onwards; None is the thrown boot error.
    method EndClaim(succeeded: bool) returns (c: Option<nat>)
      requires 0 < coldBooting
      modifies this
      ensures View() == After(old(View()), if succeeded then ColdBooted else ColdFailed)
      ensures c == if succeeded then Some(old(booted)) else None
    {
      coldBooting := coldBooting - 1;
      if succeeded {
        var b := Boot();
        handed := handed + [b];
        poolOccupancy := |pool|;
        c := Some(b);
      } else {
        failedClaims := failedClaims + 1;
        c := None;
      }
    }

    // The whole of claim(): its own steps with any others between them.
    method ClaimContainer(others: seq<Step>, succeeded: bool) returns (c: Option<nat>, ghost steps: seq<Step>)
      requires pool == [] ==>
        && Possible(After(View(), Claim), others)
        && 0 < Run(After(View(), Claim), others).coldBooting
      modifies this
      ensures Possible(old(View()), steps) && View() == Run(old(View()), steps)
      ensures old(pool) != [] ==> c == Some(old(pool)[|old(pool)| - 1]) && steps == [Claim]
      ensures old(pool) == [] ==> steps == [Claim] + others + [if succeeded then ColdBooted else ColdFailed]
      ensures c.None? <==> old(pool) == [] && !succeeded
      ensures c.Some? ==> handed != [] && handed[|handed| - 1] == c.value
    {
      ghost var start := View();
      c := BeginClaim();
      steps := [Claim];
      if c.Some? { return; }
      ghost var waiting := View();
      Await(others);
      ghost var ready := View();
      c := EndClaim(succeeded);
      ghost var last := if succeeded then ColdBooted else ColdFailed;
      steps := [Claim] + others + [last];
      RunOn(waiting, others, [last]);
      assert steps[1..] == others + [last];
    }
  }

  // ---------- Accounting ----------

  predicate Accounted(s: State) {
    && |s.pool| + s.booting + s.failedRefills == s.size
    && s.poolOccupancy == |s.pool|
    && |s.handed| + s.coldBooting + s.failedClaims == s.warmClaims + s.coldClaims
    && s.booted == |s.pool| + |s.handed|
  }

  // How many times a container is in the pool or was handed out.
  function Places(s: State, c: nat): nat {
    multiset(s.pool)[c] + multiset(s.handed)[c]
  }

  // Every booted container is in exactly one place, once.
  ghost predicate Conserved(s: State) {
    forall c: nat :: Places(s, c) == if c < s.booted then 1 else 0
  }

  lemma StepAccounts(s: State, step: Step)
    requires Accounted(s) && Enabled(s, step)
    ensures Accounted(After(s, step))
  {
  }

  lemma StepConserves(s: State, step: Step)
    requires Conserved(s) && Enabled(s, step)
    ensures Conserved(After(s, step))
  {
    var s' := After(s, step);
    if step == Claim && s.pool != [] {
      var top := |s.pool| - 1;
      assert s.pool == s'.pool + [s.pool[top]];
    }
    forall c: nat ensures Places(s', c) == if c < s'.booted then 1 else 0 {
      assert Places(s, c) == if c < s.booted then 1 else 0;
    }
  }

  // Whatever claims, boots and failures occur: the pool and the boots under way make up the size less
  // the failed refills, the gauge is exact, and no container is handed out twice or lost.
  lemma {:induction false} PoolAccounts(s: State, steps: seq<Step>)
    requires Accounted(s) && Conserved(s) && Possible(s, steps)
    ensures Accounted(Run(s, steps)) && Conserved(Run(s, steps))
    decreases steps
  {
    if steps != [] {
      StepAccounts(s, steps[0]);
      StepConserves(s, steps[0]);
      PoolAccounts(After(s, steps[0]), steps[1..]);
    }
  }

  lemma PoolFromInit(size: nat, steps: seq<Step>)
    requires Possible(Initial(size), steps)
    ensures Accounted(Run(Initial(size), steps)) && Conserved(Run(Initial(size), steps))
  {
    FullPool(size);
    PoolAccounts(Initial(size), steps);
  }

  lemma {:induction false} FullPool(size: nat)
    ensures Accounted(Initial(size)) && Conserved(Initial(size))
  {
    if size == 0 {
    } else {
      FullPool(size - 1);
      assert Initial(size).pool == Initial(size - 1).pool + [size - 1];
      forall c: nat ensures Places(Initial(size), c) == if c < size then 1 else 0 {
        assert Places(Initial(size - 1), c) == if c < size - 1 then 1 else 0;
      }
    }
  }

  // How many claims met a pool with a container left (warm), or an empty one.
  function Claims(s: State, steps: seq<Step>, warm: bool): nat
    requires Possible(s, steps)
    decreases steps
  {
    if steps == [] then 0
    else (if steps[0] == Claim && (s.pool != []) == warm then 1 else 0) + Claims(After(s, steps[0]), steps[1..], warm)
  }

  // The two counters are what they say, over every history.
  lemma {:induction false} ClaimsAreCounted(s: State, steps: seq<Step>)
    requires Possible(s, steps)
    ensures Run(s, steps).warmClaims == s.warmClaims + Claims(s, steps, true)
    ensures Run(s, steps).coldClaims == s.coldClaims + Claims(s, steps, false)
    decreases steps
  {
    if steps != [] {
      ClaimsAreCounted(After(s, steps[0]), steps[1..]);
    }
  }

  lemma NeverHandedTwice(size: nat, steps: seq<Step>, i: nat, j: nat)
    requires Possible(Initial(size), steps)
    requires i < j < |Run(Initial(size), steps).handed|
    ensures var s := Run(Initial(size), steps); s.handed[i] != s.handed[j] && s.handed[i] !in s.pool
  {
    PoolFromInit(size, steps);
    var s := Run(Initial(size), steps);
    var c := s.handed[i];
    assert Places(s, c) <= 1;
    assert s.handed == s.handed[..j] + [s.handed[j]] + s.handed[j + 1..];
    assert c in multiset(s.handed[..j]) by { assert s.handed[..j][i] == c; }
    assert c in multiset(s.handed);
  }

  // The guard at the head of refill() never fires: every warm claim starts one.
  lemma EveryWarmClaimRefills(size: nat, steps: seq<Step>)
    requires Possible(Initial(size), steps)
    ensures var s := Run(Initial(size), steps);
      s.pool != [] ==> After(s, Claim).booting == s.booting + 1
  {
    PoolFromInit(size, steps);
  }

  ghost predicate LeadsToWarm(s: State, more: seq<Step>) {
    Possible(s, more) && Run(s, more).pool != []
  }

  // A failed refill is never made up for: some continuation gives a warm claim exactly
  // when fewer refills have failed than the pool has places.
  lemma WarmAgainIff(size: nat, steps: seq<Step>)
    requires Possible(Initial(size), steps)
    ensures var s := Run(Initial(size), steps);
      s.failedRefills < size <==> exists more :: LeadsToWarm(s, more)
  {
    var s := Run(Initial(size), steps);
    PoolFromInit(size, steps);
    FailuresStay(Initial(size), steps);
    if s.failedRefills < size {
      if s.pool != [] {
        var none: seq<Step> := [];
        assert Run(s, none) == s && LeadsToWarm(s, none);
      } else {
        var more := [Refilled];
        assert more[1..] == [] && Enabled(s, Refilled);
        assert Possible(After(s, Refilled), more[1..]);
        assert Run(s, more) == After(s, Refilled);
        assert LeadsToWarm(s, more);
      }
    } else {
      forall more | Possible(s, more) ensures !LeadsToWarm(s, more) {
        FailuresStay(s, more);
        PoolAccounts(s, more);
        assert Accounted(Run(s, more));
      }
    }
  }

  lemma {:induction false} FailuresStay(s: State, steps: seq<Step>)
    requires Possible(s, steps)
    ensures s.failedRefills <= Run(s, steps).failedRefills && Run(s, steps).size == s.size
    decreases steps
  {
    if steps != [] { FailuresStay(After(s, steps[0]), steps[1..]); }
  }
}
