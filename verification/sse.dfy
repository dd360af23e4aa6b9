/** The text of the event stream, and the incremental reader that parses it from arbitrary chunks. */
module Sse {
  import opened Store
  import opened Stream

  const BREAK := "\n\n"

  // ---------- server.ts: what is written ----------

  function Digit(d: nat): char
    requires d < 10
  {
    "0123456789"[d]
  }

  function Decimal(n: nat): string {
    (if n < 10 then "" else Decimal(n / 10)) + [Digit(n % 10)]
  }

  function Name(k: Kind): string {
    match k
    case RunStarted => "run_started"
    case ModelTurn => "model_turn"
    case ToolCall => "tool_call"
    case ToolResult => "tool_result"
    case RunDone => "run_done"
    case RunFailed => "run_failed"
    case RunCancelled => "run_cancelled"
  }

  // What the server writes after its preamble: an event with its serialised document, or the
  // notice that the backfill failed. Serialised JSON contains no line break.
  datatype Written = EventFrame(seqNo: nat, kind: Kind, json: string) | Notice(json: string)

  predicate OneLine(s: string) {
    '\n' !in s
  }

  function LinesOf(w: Written): seq<string> {
    match w
    case EventFrame(n, k, json) => ["id: " + Decimal(n), "event: " + Name(k), "data: " + json]
    case Notice(json) => ["event: transport", "data: " + json]
  }

  function JoinLines(lines: seq<string>): string {
    if lines == [] then "" else if |lines| == 1 then lines[0] else lines[0] + "\n" + JoinLines(lines[1..])
  }

  function Frames(ws: seq<Written>): string {
    if ws == [] then "" else JoinLines(LinesOf(ws[0])) + BREAK + Frames(ws[1..])
  }

  const PREAMBLE := "retry: 2000"

  function Wire(ws: seq<Written>): string {
    PREAMBLE + BREAK + Frames(ws)
  }

  // ---------- harness.ts: how it is read ----------

  datatype Split = Split(parts: seq<string>, rest: string)

  // buf.split('\n\n'), with the last piece popped off as the new buffer.
  function SplitFrames(s: string): Split {
    if |s| < 2 then Split([], s)
    else if s[0] == '\n' && s[1] == '\n' then
      var r := SplitFrames(s[2..]);
      Split([""] + r.parts, r.rest)
    else Prepend(s[0], SplitFrames(s[1..]))
  }

  function Prepend(c: char, r: Split): Split {
    if r.parts == [] then Split([], [c] + r.rest) else Split([[c] + r.parts[0]] + r.parts[1..], r.rest)
  }

  // chunk.split('\n')
  function SplitLines(s: string): seq<string> {
    if s == "" then [""]
    else
      var r := SplitLines(s[1..]);
      if s[0] == '\n' then [""] + r else [[s[0]] + r[0]] + r[1..]
  }

  // The first line with the prefix.
  function FindLine(lines: seq<string>, prefix: string): (r: Option<string>)
    ensures r.Some? ==> prefix <= r.value
  {
    if lines == [] then None
    else if prefix <= lines[0] then Some(lines[0])
    else FindLine(lines[1..], prefix)
  }

  function DigitValue(c: char): Option<nat> {
    if '0' <= c <= '9' then Some((c as int) - ('0' as int)) else None
  }

  // Number(text) for a string of decimal digits.
  function ParseNumber(s: string): Option<nat> {
    if s == "" then None
    else
      var d := DigitValue(s[|s| - 1]);
      if d.None? then None
      else if |s| == 1 then d
      else
        var front := ParseNumber(s[..|s| - 1]);
        if front.None? then None else Some(10 * front.value + d.value)
  }

  // One parsed frame: its id and its whole event line.
  datatype Seen = Seen(seqNo: nat, eventLine: string)

  function ParseFrame(chunk: string): Option<Seen> {
    var lines := SplitLines(chunk);
    var id, ev := FindLine(lines, "id: "), FindLine(lines, "event: ");
    if id.None? || ev.None? then None
    else
      var n := ParseNumber(id.value[4..]);
      if n.None? then None else Some(Seen(n.value, ev.value))
  }

  function Collect(parse: string -> Option<Seen>, parts: seq<string>): seq<Seen> {
    if parts == [] then []
    else
      var p := parse(parts[0]);
      (if p.Some? then [p.value] else []) + Collect(parse, parts[1..])
  }

  function ParseAll(parts: seq<string>): seq<Seen> {
    Collect(ParseFrame, parts)
  }

  // ---------- splitting is incremental ----------

  lemma {:induction false} RestHasNoFrame(s: string)
    requires SplitFrames(s).parts == []
    ensures SplitFrames(s).rest == s
  {
    if |s| >= 2 {
      RestHasNoFrame(s[1..]);
    }
  }

  /** Splitting the buffer as chunks arrive finds the same frames, and leaves the same rest, as
      splitting everything at once, wherever the chunk borders fall. */
  lemma {:induction false} SplitIncrementally(s: string, t: string)
    ensures SplitFrames(s + t) == Continue(SplitFrames(s), t)
  {
    var a := SplitFrames(s);
    if a.parts == [] {
      RestHasNoFrame(s);
      assert [] + SplitFrames(s + t).parts == SplitFrames(s + t).parts;
    } else if s[0] == '\n' && s[1] == '\n' {
      SplitIncrementally(s[2..], t);
      SplitAtBreak(s, t);
      ContinueEmpty(SplitFrames(s[2..]), t);
    } else {
      SplitIncrementally(s[1..], t);
      SplitPastChar(s, t);
      ContinuePrepended(s[0], SplitFrames(s[1..]), t);
    }
  }

  lemma SplitAtBreak(s: string, t: string)
    requires |s| >= 2 && s[0] == '\n' && s[1] == '\n'
    ensures var r := SplitFrames(s[2..] + t); SplitFrames(s + t) == Split([""] + r.parts, r.rest)
  {
    assert (s + t)[2..] == s[2..] + t;
  }

  lemma SplitPastChar(s: string, t: string)
    requires |s| >= 2 && !(s[0] == '\n' && s[1] == '\n')
    ensures SplitFrames(s + t) == Prepend(s[0], SplitFrames(s[1..] + t))
  {
    assert (s + t)[1..] == s[1..] + t;
  }

  // The reader's state `a` after one more chunk.
  function Continue(a: Split, t: string): Split {
    var b := SplitFrames(a.rest + t);
    Split(a.parts + b.parts, b.rest)
  }

  lemma ContinueEmpty(a: Split, t: string)
    ensures Continue(Split([""] + a.parts, a.rest), t) == Split([""] + Continue(a, t).parts, Continue(a, t).rest)
  {
    var b := SplitFrames(a.rest + t);
    assert ([""] + a.parts) + b.parts == [""] + (a.parts + b.parts);
  }

  lemma ContinuePrepended(c: char, a: Split, t: string)
    requires a.parts != []
    ensures Continue(Prepend(c, a), t) == Prepend(c, Continue(a, t))
  {
    var b := SplitFrames(a.rest + t);
    assert ([[c] + a.parts[0]] + a.parts[1..]) + b.parts == [[c] + (a.parts + b.parts)[0]] + (a.parts + b.parts)[1..];
  }

  function Concat(chunks: seq<string>): string {
    if chunks == [] then "" else Concat(chunks[..|chunks| - 1]) + chunks[|chunks| - 1]
  }

  // ---------- the server's text splits into its frames ----------

  // No blank line inside, and no line break at the end.
  predicate Framed(s: string) {
    s != "" && s[|s| - 1] != '\n' && forall i :: 0 <= i < |s| - 1 ==> !BreakAt(s, i)
  }

  predicate BreakAt(s: string, i: nat)
    requires i + 1 < |s|
  {
    s[i] == '\n' && s[i + 1] == '\n'
  }

  lemma {:induction false} FrameSplits(s: string, t: string)
    requires Framed(s)
    ensures SplitFrames(s + BREAK + t) == Split([s] + SplitFrames(t).parts, SplitFrames(t).rest)
  {
    var whole := s + BREAK + t;
    if |s| == 1 {
      assert whole[1..] == BREAK + t;
      assert (BREAK + t)[2..] == t;
      assert SplitFrames(BREAK + t) == Split([""] + SplitFrames(t).parts, SplitFrames(t).rest);
      assert [s[0]] + "" == s;
    } else {
      assert whole[0] == s[0] && whole[1] == s[1] && !BreakAt(s, 0);
      forall i | 0 <= i < |s[1..]| - 1
        ensures !BreakAt(s[1..], i)
      {
        assert !BreakAt(s, i + 1);
      }
      FrameSplits(s[1..], t);
      assert whole[1..] == s[1..] + BREAK + t;
      assert s == [s[0]] + s[1..];
    }
  }

  lemma {:induction false} LinesAreFramed(lines: seq<string>)
    requires lines != [] && forall l :: l in lines ==> l != "" && OneLine(l)
    ensures Framed(JoinLines(lines)) && lines[0] != "" && JoinLines(lines)[0] == lines[0][0]
  {
    assert lines[0] in lines;
    if |lines| > 1 {
      assert forall l :: l in lines[1..] ==> l in lines;
      LinesAreFramed(lines[1..]);
      var a, b := lines[0], JoinLines(lines[1..]);
      assert lines[1] in lines && lines[0] in lines && lines[1..][0] == lines[1];
      assert JoinLines(lines) == a + "\n" + b && b[0] != '\n';
      forall i | 0 <= i < |a + "\n" + b| - 1
        ensures !BreakAt(a + "\n" + b, i)
      {
        if i > |a| {
          assert !BreakAt(b, i - |a| - 1);
        }
      }
    }
  }

  lemma {:induction false} LineSplits(l: string, t: string)
    requires OneLine(l)
    ensures SplitLines(l + "\n" + t) == [l] + SplitLines(t)
  {
    var whole := l + "\n" + t;
    if l == "" {
      assert whole[1..] == t;
    } else {
      LineSplits(l[1..], t);
      assert whole[1..] == l[1..] + "\n" + t;
      assert l == [l[0]] + l[1..];
    }
  }

  lemma {:induction false} LastLineSplits(l: string)
    requires OneLine(l)
    ensures SplitLines(l) == [l]
  {
    if l != "" {
      LastLineSplits(l[1..]);
      assert l == [l[0]] + l[1..];
    }
  }

  // ---------- numbers round-trip ----------

  lemma {:induction false} DecimalParses(n: nat)
    ensures ParseNumber(Decimal(n)) == Some(n) && OneLine(Decimal(n)) && Decimal(n) != ""
  {
    var s := Decimal(n);
    DigitParses(n % 10);
    if n >= 10 {
      DecimalParses(n / 10);
      assert s == Decimal(n / 10) + [Digit(n % 10)];
      LastDigitParses(Decimal(n / 10), n / 10, n % 10);
    } else {
      assert s == [Digit(n)];
    }
  }

  lemma LastDigitParses(front: string, m: nat, d: nat)
    requires d < 10 && front != "" && OneLine(front) && ParseNumber(front) == Some(m)
    ensures ParseNumber(front + [Digit(d)]) == Some(10 * m + d) && OneLine(front + [Digit(d)])
  {
    DigitParses(d);
    assert (front + [Digit(d)])[..|front|] == front;
  }

  lemma DigitParses(d: nat)
    requires d < 10
    ensures DigitValue(Digit(d)) == Some(d) && Digit(d) != '\n'
  {
  }

  lemma NameIsOneLine(k: Kind)
    ensures OneLine(Name(k))
  {
  }

  // ---------- one frame ----------

  lemma EventLines(w: Written)
    requires OneLine(w.json)
    ensures SplitLines(JoinLines(LinesOf(w))) == LinesOf(w)
    ensures forall l :: l in LinesOf(w) ==> l != "" && OneLine(l)
  {
    var lines := LinesOf(w);
    if w.EventFrame? {
      DecimalParses(w.seqNo);
      NameIsOneLine(w.kind);
      LastLineSplits(lines[2]);
      LineSplits(lines[1], lines[2]);
      LineSplits(lines[0], lines[1] + "\n" + lines[2]);
      assert lines[1..][1..] == [lines[2]] && lines[1..][0] == lines[1];
      assert JoinLines(lines[1..]) == lines[1] + "\n" + lines[2];
      assert JoinLines(lines) == lines[0] + "\n" + (lines[1] + "\n" + lines[2]);
    } else {
      LastLineSplits(lines[1]);
      LineSplits(lines[0], lines[1]);
      assert lines[1..] == [lines[1]];
    }
  }

  function Expected(w: Written): Option<Seen> {
    match w
    case EventFrame(n, k, json) => Some(Seen(n, "event: " + Name(k)))
    case Notice(json) => None
  }

  lemma FrameParses(w: Written)
    requires OneLine(w.json)
    ensures ParseFrame(JoinLines(LinesOf(w))) == Expected(w)
  {
    EventLines(w);
    var lines := LinesOf(w);
    if w.EventFrame? {
      DecimalParses(w.seqNo);
      assert "id: " <= lines[0] && lines[0][4..] == Decimal(w.seqNo);
      assert lines[0][0] == 'i' && "event: "[0] == 'e' && !("event: " <= lines[0]);
      assert lines[1..][0] == lines[1] && "event: " <= lines[1];
      assert FindLine(lines, "event: ") == FindLine(lines[1..], "event: ") == Some(lines[1]);
    } else {
      assert lines[0][0] == 'e' && lines[1][0] == 'd' && "id: "[0] == 'i';
      assert !("id: " <= lines[0]) && !("id: " <= lines[1]);
      assert lines[1..][0] == lines[1] && lines[1..][1..] == [];
      assert FindLine(lines, "id: ") == FindLine(lines[1..], "id: ") == None;
    }
  }

  // ---------- the whole stream ----------

  function ExpectedAll(ws: seq<Written>): seq<Seen> {
    if ws == [] then []
    else (if Expected(ws[0]).Some? then [Expected(ws[0]).value] else []) + ExpectedAll(ws[1..])
  }

  predicate AllOneLine(ws: seq<Written>) {
    forall w :: w in ws ==> OneLine(w.json)
  }

  lemma {:induction false} FramesParse(ws: seq<Written>)
    requires AllOneLine(ws)
    ensures SplitFrames(Frames(ws)).rest == "" && ParseAll(SplitFrames(Frames(ws)).parts) == ExpectedAll(ws)
  {
    if ws != [] {
      var body, later := JoinLines(LinesOf(ws[0])), Frames(ws[1..]);
      FramesParse(ws[1..]);
      EventLines(ws[0]);
      LinesAreFramed(LinesOf(ws[0]));
      FrameSplits(body, later);
      FrameParses(ws[0]);
      var parts := SplitFrames(Frames(ws)).parts;
      assert parts[0] == body && parts[1..] == SplitFrames(later).parts;
    }
  }

  lemma PreambleIsIgnored(later: string)
    ensures SplitFrames(PREAMBLE + BREAK + later) == Split([PREAMBLE] + SplitFrames(later).parts, SplitFrames(later).rest)
    ensures ParseFrame(PREAMBLE).None?
  {
    FrameSplits(PREAMBLE, later);
    PreambleHasNoId();
  }

  lemma PreambleHasNoId()
    ensures ParseFrame(PREAMBLE).None?
  {
    NoIdNoEvent(PREAMBLE);
  }

  lemma NoIdNoEvent(l: string)
    requires OneLine(l) && l != "" && l[0] != 'i'
    ensures ParseFrame(l).None?
  {
    LastLineSplits(l);
    var lines := SplitLines(l);
    assert "id: "[0] == 'i' && !("id: " <= lines[0]) && lines[1..] == [];
    assert FindLine(lines, "id: ").None?;
  }

  // The event types the page registers listeners for, in its order.
  const LISTENED: seq<string> := ["run_started", "model_turn", "tool_call", "tool_result", "run_done", "run_failed"]

  /** The names written are those of the page's listeners, kind by kind, and are all different; only
      run_cancelled has no listener. */
  lemma NamesAreListened()
    ensures [Name(RunStarted), Name(ModelTurn), Name(ToolCall), Name(ToolResult), Name(RunDone), Name(RunFailed)] == LISTENED
    ensures forall k :: Name(k) in LISTENED <==> k != RunCancelled
    ensures forall k, l :: Name(k) == Name(l) ==> k == l
  {
    assert forall i :: 0 <= i < 6 ==> LISTENED[i] != Name(RunCancelled) by {
      assert |LISTENED[0]| == 11 && |LISTENED[1]| == 10 && |LISTENED[2]| == 9;
    }
    forall k ensures Name(k) in LISTENED <==> k != RunCancelled {
      match k
      case RunStarted => assert LISTENED[0] == Name(k);
      case ModelTurn => assert LISTENED[1] == Name(k);
      case ToolCall => assert LISTENED[2] == Name(k);
      case ToolResult => assert LISTENED[3] == Name(k);
      case RunDone => assert LISTENED[4] == Name(k);
      case RunFailed => assert LISTENED[5] == Name(k);
      case RunCancelled =>
    }
    NamesDiffer();
  }

  lemma NamesDiffer()
    ensures forall k, l :: Name(k) == Name(l) ==> k == l
  {
    assert "model_turn"[0] == 'm' && "run_failed"[0] == 'r' && "tool_result"[0] == 't' && "run_started"[0] == 'r';
  }

  // The payload of a frame.
  function DataOf(chunk: string): Option<string> {
    var data := FindLine(SplitLines(chunk), "data: ");
    if data.None? then None else Some(data.value[6..])
  }

  /** The serialised document comes back out of its frame. */
  lemma PayloadIsRead(w: Written)
    requires OneLine(w.json)
    ensures DataOf(JoinLines(LinesOf(w))) == Some(w.json)
  {
    EventLines(w);
    var lines := LinesOf(w);
    var data := "data: " + w.json;
    assert data[..6] == "data: " && data[6..] == w.json;
    assert "data: "[0] == 'd' && lines[0][0] != 'd';
    if w.EventFrame? {
      assert lines[1][0] == 'e' && lines[1..][0] == lines[1] && lines[1..][1..][0] == data;
      assert FindLine(lines, "data: ") == FindLine(lines[1..], "data: ") == FindLine(lines[1..][1..], "data: ") == Some(data);
    } else {
      assert lines[1..][0] == data;
      assert FindLine(lines, "data: ") == FindLine(lines[1..], "data: ") == Some(data);
    }
  }

  lemma WireParses(ws: seq<Written>)
    requires AllOneLine(ws)
    ensures ParseAll(SplitFrames(Wire(ws)).parts) == ExpectedAll(ws) && SplitFrames(Wire(ws)).rest == ""
  {
    PreambleIsIgnored(Frames(ws));
    FramesParse(ws);
    var parts := SplitFrames(Wire(ws)).parts;
    assert parts[0] == PREAMBLE && parts[1..] == SplitFrames(Frames(ws)).parts;
  }

  // ---------- one connection of the load harness ----------

  // line.includes(sub)
  predicate Includes(s: string, sub: string) {
    exists i :: 0 <= i <= |s| && sub <= s[i..]
  }

  predicate IsTerminal(s: Seen) {
    Includes(s.eventLine, "run_done") || Includes(s.eventLine, "run_failed")
  }

  // Everything up to and including the first terminal event.
  function UntilTerminal(xs: seq<Seen>): seq<Seen> {
    if xs == [] then [] else [xs[0]] + if IsTerminal(xs[0]) then [] else UntilTerminal(xs[1..])
  }

  predicate NoTerminal(xs: seq<Seen>) {
    forall x :: x in xs ==> !IsTerminal(x)
  }

  function MaxSeq(low: nat, xs: seq<Seen>): nat {
    if xs == [] then low
    else
      var m := MaxSeq(low, xs[..|xs| - 1]);
      if xs[|xs| - 1].seqNo > m then xs[|xs| - 1].seqNo else m
  }

  // The resume point: the old one or the id of some event read, and no smaller than any of them.
  predicate IsLargest(low: nat, xs: seq<Seen>, r: nat) {
    && low <= r && (forall x :: x in xs ==> x.seqNo <= r)
    && (r == low || exists x :: x in xs && x.seqNo == r)
  }

  lemma {:induction false} MaxSeqIsLargest(low: nat, xs: seq<Seen>)
    ensures IsLargest(low, xs, MaxSeq(low, xs))
  {
    if xs != [] {
      var front, last := xs[..|xs| - 1], xs[|xs| - 1];
      MaxSeqIsLargest(low, front);
      assert xs == front + [last] && last in xs;
      var m := MaxSeq(low, front);
      if last.seqNo <= m && m != low {
        var x :| x in front && x.seqNo == m;
        assert x in xs;
      }
    }
  }

  lemma {:induction false} MaxSeqAppend(low: nat, a: seq<Seen>, b: seq<Seen>)
    ensures MaxSeq(low, a + b) == MaxSeq(MaxSeq(low, a), b)
  {
    if b == [] {
      assert a + b == a;
    } else {
      MaxSeqAppend(low, a, b[..|b| - 1]);
      assert (a + b)[..|a + b| - 1] == a + b[..|b| - 1];
    }
  }

  lemma {:induction false} CollectAppend(parse: string -> Option<Seen>, a: seq<string>, b: seq<string>)
    ensures Collect(parse, a + b) == Collect(parse, a) + Collect(parse, b)
  {
    if a == [] {
      assert a + b == b;
    } else {
      var p := parse(a[0]);
      var first := if p.Some? then [p.value] else [];
      assert (a + b)[0] == a[0] && (a + b)[1..] == a[1..] + b;
      assert Collect(parse, a + b) == first + Collect(parse, a[1..] + b);
      CollectAppend(parse, a[1..], b);
      Extends(first, Collect(parse, a[1..]), Collect(parse, b));
    }
  }

  lemma {:induction false} UntilTerminalStops(xs: seq<Seen>, t: Seen, rest: seq<Seen>)
    requires NoTerminal(xs) && IsTerminal(t)
    ensures UntilTerminal(xs + [t] + rest) == xs + [t]
  {
    var all := xs + [t] + rest;
    if xs != [] {
      assert xs[0] in xs && forall x :: x in xs[1..] ==> x in xs;
      UntilTerminalStops(xs[1..], t, rest);
      assert all[1..] == xs[1..] + [t] + rest;
    }
  }

  lemma {:induction false} UntilTerminalAll(xs: seq<Seen>)
    requires NoTerminal(xs)
    ensures UntilTerminal(xs) == xs
  {
    if xs != [] {
      assert xs[0] in xs && forall x :: x in xs[1..] ==> x in xs;
      UntilTerminalAll(xs[1..]);
    }
  }

  // Everything received, parsed at once.
  function Parsed(chunks: seq<string>): seq<Seen> {
    ParseAll(SplitFrames(Concat(chunks)).parts)
  }

  // More chunks only add frames at the end.
  lemma {:induction false} ParsedGrows(chunks: seq<string>, n: nat)
    requires n <= |chunks|
    ensures Parsed(chunks[..n]) <= Parsed(chunks)
    decreases |chunks|
  {
    if n < |chunks| {
      var front := chunks[..|chunks| - 1];
      ParsedGrows(front, n);
      assert front[..n] == chunks[..n];
      SplitIncrementally(Concat(front), chunks[|chunks| - 1]);
      var a := SplitFrames(Concat(front));
      CollectAppend(ParseFrame, a.parts, SplitFrames(a.rest + chunks[|chunks| - 1]).parts);
    } else {
      assert chunks[..n] == chunks;
    }
  }

  // seen ends with the first terminal event of all.
  predicate StopsIn(seen: seq<Seen>, all: seq<Seen>) {
    seen <= all && seen != [] && IsTerminal(seen[|seen| - 1]) && NoTerminal(seen[..|seen| - 1])
  }

  lemma OneMoreFrame(parse: string -> Option<Seen>, start: seq<Seen>, parts: seq<string>, i: nat, before: seq<Seen>, after: seq<Seen>)
    requires i < |parts|
    requires before == start + Collect(parse, parts[..i]) && after == before + Collect(parse, [parts[i]])
    ensures after == start + Collect(parse, parts[..i + 1]) && before <= after <= start + Collect(parse, parts)
  {
    CollectSplit(parse, parts, i + 1);
    CollectSplit(parse, parts[..i + 1], i);
    assert parts[..i + 1][..i] == parts[..i] && parts[..i + 1][i..] == [parts[i]];
    Extends(start, Collect(parse, parts[..i + 1]), Collect(parse, parts[i + 1..]));
    Extends(start, Collect(parse, parts[..i]), Collect(parse, [parts[i]]));
  }

  lemma Extends(a: seq<Seen>, b: seq<Seen>, c: seq<Seen>)
    ensures a + (b + c) == (a + b) + c && a + b <= a + (b + c)
  {
  }

  lemma CollectSplit(parse: string -> Option<Seen>, parts: seq<string>, i: nat)
    requires i <= |parts|
    ensures Collect(parse, parts) == Collect(parse, parts[..i]) + Collect(parse, parts[i..])
  {
    assert parts == parts[..i] + parts[i..];
    CollectAppend(parse, parts[..i], parts[i..]);
  }

  lemma CollectOne(parse: string -> Option<Seen>, part: string)
    ensures Collect(parse, [part]) == if parse(part).Some? then [parse(part).value] else []
  {
  }

  lemma OneMoreMax(low: nat, start: seq<Seen>, before: seq<Seen>, after: seq<Seen>)
    requires start <= before <= after
    ensures MaxSeq(low, after[|start|..]) == MaxSeq(MaxSeq(low, before[|start|..]), after[|before|..])
  {
    MaxSeqAppend(low, before[|start|..], after[|before|..]);
    assert after[|start|..] == before[|start|..] + after[|before|..];
  }

  lemma StopsHere(before: seq<Seen>, seen: seq<Seen>, all: seq<Seen>)
    requires NoTerminal(before) && |seen| == |before| + 1 && before <= seen <= all && IsTerminal(seen[|seen| - 1])
    ensures StopsIn(seen, all)
  {
    assert seen[..|seen| - 1] == before;
  }

  class Reader {
    var buf: string
    var lastSeq: nat
    var terminal: bool
    var seen: seq<Seen>

    constructor (lastSeq: nat)
      ensures buf == "" && this.lastSeq == lastSeq && !terminal && seen == []
    {
      buf, this.lastSeq, terminal, seen := "", lastSeq, false, [];
    }

    // The inner loop: the complete frames of one chunk, up to a terminal event.
    method Frames(parts: seq<string>)
      requires !terminal && NoTerminal(seen)
      modifies this`lastSeq, this`terminal, this`seen
      ensures !terminal ==> seen == old(seen) + ParseAll(parts) && NoTerminal(seen)
      ensures terminal ==> StopsIn(seen, old(seen) + ParseAll(parts))
      ensures old(seen) <= seen && lastSeq == MaxSeq(old(lastSeq), seen[|old(seen)|..])
    {
      for i := 0 to |parts|
        invariant !terminal && NoTerminal(seen)
        invariant seen == old(seen) + ParseAll(parts[..i])
        invariant lastSeq == MaxSeq(old(lastSeq), seen[|old(seen)|..])
      {
        ghost var before := seen;
        Frame(parts[i]);
        OneMoreFrame(ParseFrame, old(seen), parts, i, before, seen);
        OneMoreMax(old(lastSeq), old(seen), before, seen);
        if terminal {
          StopsHere(before, seen, old(seen) + ParseAll(parts));
          return;
        }
      }
      assert parts[..|parts|] == parts;
    }

    // One frame: a frame without an id is passed over.
    method Frame(part: string)
      requires !terminal && NoTerminal(seen)
      modifies this`lastSeq, this`terminal, this`seen
      ensures seen == old(seen) + ParseAll([part])
      ensures !terminal ==> NoTerminal(seen)
      ensures terminal ==> |seen| == |old(seen)| + 1 && IsTerminal(seen[|seen| - 1])
      ensures old(seen) <= seen && lastSeq == MaxSeq(old(lastSeq), seen[|old(seen)|..])
    {
      var p := ParseFrame(part);
      CollectOne(ParseFrame, part);
      if p.Some? {
        seen := seen + [p.value];
        assert seen[..|seen| - 1] == old(seen) && seen[|old(seen)|..] == [p.value];
        if p.value.seqNo > lastSeq {
          lastSeq := p.value.seqNo;
        }
        if Includes(p.value.eventLine, "run_done") || Includes(p.value.eventLine, "run_failed") {
          terminal := true;
        }
      }
    }

    /** The reading loop of one connection. However the text is cut into chunks, what the reader has
        seen is what parsing the whole text at once gives, up to and including the first terminal
        event; it stops as terminal exactly if there is one; and its resume point is the
        largest id seen. */
    method Read(chunks: seq<string>)
      requires buf == "" && seen == [] && !terminal
      modifies this
      ensures seen == UntilTerminal(Parsed(chunks))
      ensures terminal <==> exists x :: x in Parsed(chunks) && IsTerminal(x)
      ensures lastSeq == MaxSeq(old(lastSeq), seen) && IsLargest(old(lastSeq), seen, lastSeq)
    {
      ghost var parts: seq<string> := [];
      for i := 0 to |chunks|
        invariant !terminal && NoTerminal(seen)
        invariant SplitFrames(Concat(chunks[..i])) == Split(parts, buf) && seen == ParseAll(parts)
        invariant lastSeq == MaxSeq(old(lastSeq), seen)
      {
        var split := SplitFrames(buf + chunks[i]);
        assert chunks[..i + 1][..i] == chunks[..i];
        SplitIncrementally(Concat(chunks[..i]), chunks[i]);
        CollectAppend(ParseFrame, parts, split.parts);
        buf := split.rest;
        ghost var before := seen;
        Frames(split.parts);
        MaxSeqAppend(old(lastSeq), before, seen[|before|..]);
        assert seen == before + seen[|before|..];
        parts := parts + split.parts;
        if terminal {
          ParsedGrows(chunks, i + 1);
          StoppedAt(seen, Parsed(chunks[..i + 1]), Parsed(chunks));
          MaxSeqIsLargest(old(lastSeq), seen);
          return;
        }
      }
      assert chunks[..|chunks|] == chunks;
      UntilTerminalAll(seen);
      MaxSeqIsLargest(old(lastSeq), seen);
    }

    /** Main result: the reader on the server's text. For any events and notices and any way of
        cutting the text into chunks, the (id, event) pairs read are exactly those sent, in order,
        up to and including the first run_done or run_failed; the reader is terminal exactly if one
        was sent; its resume point is the largest id read; the preamble and id-less frames yield
        nothing. */
    method RoundTrip(ghost ws: seq<Written>, chunks: seq<string>)
      requires AllOneLine(ws) && Concat(chunks) == Wire(ws)
      requires buf == "" && seen == [] && !terminal
      modifies this
      ensures seen == UntilTerminal(ExpectedAll(ws))
      ensures terminal <==> exists w :: w in ws && EndsRun(w)
      ensures IsLargest(old(lastSeq), seen, lastSeq)
    {
      Read(chunks);
      CutWireParses(ws, chunks);
      TerminalSent(ws);
    }
  }

  lemma StoppedAt(seen: seq<Seen>, some: seq<Seen>, all: seq<Seen>)
    requires some <= all
    requires StopsIn(seen, some)
    ensures seen == UntilTerminal(all) && exists x :: x in all && IsTerminal(x)
  {
    var xs, t, rest := seen[..|seen| - 1], seen[|seen| - 1], all[|seen|..];
    assert all == xs + [t] + rest;
    UntilTerminalStops(xs, t, rest);
    assert t in all;
  }

  // ---------- round trip ----------

  lemma TerminalNames(n: nat, k: Kind)
    ensures IsTerminal(Seen(n, "event: " + Name(k))) <==> k.RunDone? || k.RunFailed?
  {
    if k.RunDone? {
      EndsIncludes("event: ", "run_done");
    } else if k.RunFailed? {
      EndsIncludes("event: ", "run_failed");
    } else {
      NotTerminal(k);
    }
  }

  lemma EndsIncludes(a: string, b: string)
    ensures Includes(a + b, b)
  {
    assert (a + b)[|a|..] == b;
  }

  lemma NotTerminal(k: Kind)
    requires !k.RunDone? && !k.RunFailed?
    ensures !Includes("event: " + Name(k), "run_done") && !Includes("event: " + Name(k), "run_failed")
  {
    NameUnderscore(k);
    assert forall p :: 0 <= p < 7 ==> "event: "[p] != '_';
    if Includes("event: " + Name(k), "run_done") {
      IncludesPair("event: ", Name(k), "run_done", 'd');
    }
    if Includes("event: " + Name(k), "run_failed") {
      IncludesPair("event: ", Name(k), "run_failed", 'f');
    }
  }

  // A substring with an underscore and a letter at 3 and 4 brings the pair with it.
  lemma IncludesPair(a: string, b: string, sub: string, c: char)
    requires Includes(a + b, sub) && '_' !in a && 5 <= |sub| && sub[3] == '_' && sub[4] == c
    ensures exists p :: 0 <= p < |b| - 1 && b[p] == '_' && b[p + 1] == c
  {
    var s := a + b;
    var i :| 0 <= i <= |s| && sub <= s[i..];
    assert s[i..][3] == s[i + 3] && s[i..][4] == s[i + 4];
    assert forall p :: 0 <= p < |a| ==> s[p] == a[p] && a[p] != '_';
    assert b[i + 3 - |a|] == '_' && b[i + 3 - |a| + 1] == c;
  }

  // Only the terminal names have d or f after an underscore.
  lemma NameUnderscore(k: Kind)
    ensures forall p :: 0 <= p < |Name(k)| - 1 && Name(k)[p] == '_' ==>
              (Name(k)[p + 1] == 'd' ==> k.RunDone?) && (Name(k)[p + 1] == 'f' ==> k.RunFailed?)
  {
    match k
    case RunStarted =>
    case ModelTurn =>
    case ToolCall =>
    case ToolResult =>
    case RunDone =>
    case RunFailed =>
    case RunCancelled =>
  }

  // However the text is cut, putting the pieces together parses to what was sent.
  lemma CutWireParses(ws: seq<Written>, chunks: seq<string>)
    requires AllOneLine(ws) && Concat(chunks) == Wire(ws)
    ensures Parsed(chunks) == ExpectedAll(ws)
  {
    WireParses(ws);
  }

  predicate EndsRun(w: Written) {
    w.EventFrame? && (w.kind.RunDone? || w.kind.RunFailed?)
  }

  // A terminal event is read exactly when one was sent.
  lemma {:induction false} TerminalSent(ws: seq<Written>)
    ensures (exists x :: x in ExpectedAll(ws) && IsTerminal(x)) <==> exists w :: w in ws && EndsRun(w)
  {
    if ws != [] {
      TerminalSent(ws[1..]);
      assert ws == [ws[0]] + ws[1..];
      if ws[0].EventFrame? {
        TerminalNames(ws[0].seqNo, ws[0].kind);
        var head := Expected(ws[0]).value;
        assert ExpectedAll(ws) == [head] + ExpectedAll(ws[1..]);
        assert IsTerminal(head) <==> EndsRun(ws[0]);
      } else {
        assert ExpectedAll(ws) == ExpectedAll(ws[1..]) && !EndsRun(ws[0]);
      }
    }
  }
}
