/** The mock model: a pure function of (seed, run id, turn), and what that gives crash recovery. */
module MockModel {
  import opened Store
  import opened Rng
  import opened RunLoop
  import Resume

  datatype Config = Config(avgTurns: real, toolCallProbability: real)

  const DIGITS: seq<CodeUnit> := [0x30, 0x31, 0x32, 0x33, 0x34, 0x35, 0x36, 0x37, 0x38, 0x39]

  function Decimal(n: nat): Text {
    (if n < 10 then [] else Decimal(n / 10)) + [DIGITS[n % 10]]
  }

  function Value(t: Text): int {
    if t == [] then 0 else 10 * Value(t[..|t| - 1]) + t[|t| - 1] as int - 0x30
  }

  /** A turn number is written in decimal digits that read back as it; so no two turns are written alike,
      and none contains the separator. */
  lemma {:induction false} DecimalReads(n: nat)
    ensures Value(Decimal(n)) == n && forall i :: 0 <= i < |Decimal(n)| ==> 0x30 <= Decimal(n)[i] <= 0x39
    ensures Plain(Decimal(n))
  {
    var front := if n < 10 then [] else Decimal(n / 10);
    if n >= 10 {
      DecimalReads(n / 10);
    }
    OneMoreDigit(front, n % 10);
    assert Decimal(n) == front + [DIGITS[n % 10]] && n == 10 * (n / 10) + n % 10;
  }

  lemma OneMoreDigit(t: Text, d: nat)
    requires d < 10
    ensures Value(t + [DIGITS[d]]) == 10 * Value(t) + d && DIGITS[d] as int == 0x30 + d
  {
    assert (t + [DIGITS[d]])[..|t|] == t;
  }

  // The five closing replies, by short names.
  const REPLIES: seq<string> := ["checked", "ready", "handled", "completed", "wrapped up"]

  function Fraction(k: nat): real {
    k as real / TWO_32 as real
  }

  // The probability of stopping at a turn other than the first.
  function StopProbability(cfg: Config): real {
    if cfg.avgTurns > 0.0 then 1.0 / cfg.avgTurns else 1.0
  }

  // What the model says for its second and third draw: the roll, and the pick of a reply or a tool.
  function Choose(cfg: Config, turn: nat, roll: nat, pick: nat): Decision
    requires pick < TWO_32
  {
    if turn != 0 && Fraction(roll) < StopProbability(cfg) then
      RandIntRange(pick, 0, 4);
      Conclude(REPLIES[RandInt(pick, 0, 4)])
    else if Fraction(pick) < cfg.toolCallProbability then CallTool("noop")
    else CallTool("think")
  }

  // Draw 1 is the delay.
  function DecideFrom(cfg: Config, seed: nat, turn: nat): Decision
    requires seed < TWO_32
  {
    Choose(cfg, turn, Draw(seed, 2), Draw(seed, 3))
  }

  function SubSeed(seed: Text, runId: Text, turn: nat): (h: nat)
    ensures h < TWO_32
  {
    FoldBound(OFFSET, Join([seed, runId, Decimal(turn)]));
    Hash(Join([seed, runId, Decimal(turn)]))
  }

  function Decide(cfg: Config, seed: Text, runId: Text, turn: nat): Decision {
    DecideFrom(cfg, SubSeed(seed, runId, turn), turn)
  }

  // The model itself, with a generator seeded for this turn.
  method Ask(cfg: Config, seed: Text, runId: Text, turn: nat) returns (d: Decision)
    ensures d == Decide(cfg, seed, runId, turn)
    ensures var h := Hash(Join([seed, runId, Decimal(turn)])); h < TWO_32 && d == Choose(cfg, turn, Draw(h, 2), Draw(h, 3))
  {
    var h := HashSeed([seed, runId, Decimal(turn)]);
    d := Answer(cfg, h, turn);
  }

  method Answer(cfg: Config, seed: nat, turn: nat) returns (d: Decision)
    requires seed < TWO_32
    ensures d == DecideFrom(cfg, seed, turn)
  {
    var roll, pick := ThreeDraws(seed);
    if turn != 0 && Fraction(roll) < StopProbability(cfg) {
      RandIntRange(pick, 0, 4);
      return Conclude(REPLIES[RandInt(pick, 0, 4)]);
    }
    d := if Fraction(pick) < cfg.toolCallProbability then CallTool("noop") else CallTool("think");
  }

  method ThreeDraws(seed: nat) returns (roll: nat, pick: nat)
    requires seed < TWO_32
    ensures roll == Draw(seed, 2) && pick == Draw(seed, 3)
  {
    var rng := new Mulberry32(seed);
    var delay := rng.Next();
    roll := rng.Next();
    pick := rng.Next();
  }

  /** When the model stops: never on the first turn, and on a later one exactly if its roll lies below one
      in avgTurns of the range. It then gives the reply whose fifth of the range its pick lies in; otherwise
      it calls noop exactly if the pick lies below the tool-call probability, and think if not. */
  lemma StopsWhen(cfg: Config, turn: nat, roll: nat, pick: nat)
    requires roll < TWO_32 && pick < TWO_32
    ensures var d := Choose(cfg, turn, roll, pick);
            && (d.Conclude? <==> turn != 0 && (cfg.avgTurns <= 0.0 || roll as real * cfg.avgTurns < TWO_32 as real))
            && (d.CallTool? ==> d.tool == if pick as real < cfg.toolCallProbability * TWO_32 as real then "noop" else "think")
            && (d.Conclude? ==> exists k :: 0 <= k < 5 && k * TWO_32 <= 5 * pick < (k + 1) * TWO_32 && d.summary == REPLIES[k])
  {
    BelowStop(cfg, roll);
    BelowProbability(pick, cfg.toolCallProbability);
    RandIntRange(pick, 0, 4);
    FifthOf(pick);
  }

  lemma BelowStop(cfg: Config, roll: nat)
    requires roll < TWO_32
    ensures Fraction(roll) < StopProbability(cfg) <==> cfg.avgTurns <= 0.0 || roll as real * cfg.avgTurns < TWO_32 as real
  {
    if cfg.avgTurns > 0.0 {
      BelowShare(roll, cfg.avgTurns);
    } else {
      BelowProbability(roll, 1.0);
    }
  }

  lemma Scaled(a: real, b: real, w: real)
    requires w > 0.0
    ensures a < b <==> a * w < b * w
  {
  }

  lemma BelowShare(roll: nat, avg: real)
    requires avg > 0.0
    ensures Fraction(roll) < 1.0 / avg <==> roll as real * avg < TWO_32 as real
  {
    var f, w := Fraction(roll), TWO_32 as real;
    Scaled(f, 1.0 / avg, avg);
    Scaled(f * avg, 1.0, w);
    assert f * w == roll as real;
    Regroup(f, avg, w);
  }

  lemma Regroup(f: real, avg: real, w: real)
    ensures f * avg * w == f * w * avg
  {
  }

  lemma BelowProbability(pick: nat, p: real)
    ensures Fraction(pick) < p <==> pick as real < p * TWO_32 as real
  {
    assert Fraction(pick) * TWO_32 as real == pick as real;
  }

  lemma FifthOf(pick: nat)
    requires pick < TWO_32
    ensures var k := RandInt(pick, 0, 4); k * TWO_32 <= 5 * pick < (k + 1) * TWO_32
  {
  }

  // The collaborators of a seeded run.
  function SeededEnv(cfg: Config, seed: Text, runId: Text, maxTurns: int, sandbox: bool, workspace: string): Env {
    Env((turn: nat) => Decide(cfg, seed, runId, turn), maxTurns, sandbox, workspace)
  }

  /** A seeded run never concludes on its first turn; so, unless it is capped below one turn, it has a
      tool result before its run_done event, and any crashed, failed, aborted and resumed execution of
      it, once an attempt is disturbed by nothing, has stored the same tool results and concluded with
      the same event as the undisturbed one. */
  lemma SeededRunResumes(cfg: Config, seed: Text, runId: Text, maxTurns: int, sandbox: bool, ws: string, tries: seq<Resume.Try>, w: WorkerId)
    requires tries != [] && Resume.Calm(tries[|tries| - 1])
    ensures var env := SeededEnv(cfg, seed, runId, maxTurns, sandbox, ws);
            && (maxTurns >= 1 ==> Resume.Results(Resume.Log(env, tries)) != [])
            && Resume.Results(Resume.Log(env, tries)) == Resume.Results(Resume.Undisturbed(env, w))
            && (forall e :: e in Resume.Log(env, tries) && e.RunDone? ==>
                  e == Resume.FinalEvent(env, Resume.LastTurn(env, 0)))
  {
    var env := SeededEnv(cfg, seed, runId, maxTurns, sandbox, ws);
    Resume.CrashResumeRefines(env, tries, w);
    Resume.CompletedIsWhole(env, tries);
    Resume.SoundMeans(env, Resume.Log(env, tries));
    assert env.decide(0).CallTool?;
  }
}
