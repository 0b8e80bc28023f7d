/**
 Framing of multi-line console spans in a timestamped pod log. The loop carries an open candidate and four
 counters; the functions below say what it must find, prefix by prefix, from the delimiter lines alone.
 */
module TraceLog {
  import opened Records
  import JsonDepth

  datatype Line = Line(emitted: int, text: string)

  datatype Span = Span(start: int, end: int, fields: seq<string>)

  datatype Captured = Captured(span: Span, logStart: int, logEnd: int)

  const MAX_SPANS := 128
  const MAX_BYTES := 8192

  /**
   `project` parses and projects one object and checks its service; `bytes` is the UTF-8 length; `space` is white
   space.
   */
  datatype Reader = Reader(start: int, end: int, project: string -> Option<Span>, bytes: string -> nat,
                           space: char -> bool)

  datatype Parsed = Parsed(spans: seq<Captured>, partial: nat, malformed: nat, excluded: nat) | TooLarge | TooMany

  const OPEN := "{"
  const CLOSE := "}"

  // ----- what the delimiter lines say

  /** A candidate is open before line n: some opening line has no closing line after it. */
  predicate IsOpen(lines: seq<Line>, n: nat)
    requires n <= |lines|
  {
    n > 0 && (lines[n - 1].text == OPEN || (lines[n - 1].text != CLOSE && IsOpen(lines, n - 1)))
  }

  /** The opening line of the candidate that is open before line n. */
  function Opening(lines: seq<Line>, n: nat): (j: nat)
    requires n <= |lines| && IsOpen(lines, n)
    ensures j < n && lines[j].text == OPEN
    ensures forall k :: j < k < n ==> lines[k].text !in {OPEN, CLOSE}
  {
    if lines[n - 1].text == OPEN then n - 1 else Opening(lines, n - 1)
  }

  /** Which of `lines` before n open a candidate that reaches n, without recursion. */
  lemma {:induction false} OpenMeans(lines: seq<Line>, n: nat)
    requires n <= |lines|
    ensures IsOpen(lines, n) <==>
      exists j :: 0 <= j < n && lines[j].text == OPEN && forall k :: j < k < n ==> lines[k].text != CLOSE
  {
    if n > 0 && lines[n - 1].text !in {OPEN, CLOSE} {
      OpenMeans(lines, n - 1);
    } else if n > 0 && lines[n - 1].text == OPEN {
      var j: nat := n - 1;
      assert lines[j].text == OPEN;
    }
  }

  function Joined(lines: seq<Line>, j: nat, i: nat): string
    requires j <= i < |lines|
  {
    if j == i then lines[i].text else Joined(lines, j, i - 1) + "\n" + lines[i].text
  }

  function Size(r: Reader, lines: seq<Line>, j: nat, i: nat): nat
    requires j <= i < |lines|
  {
    if j == i then 1 else Size(r, lines, j, i - 1) + r.bytes(lines[i].text) + 1
  }

  /** Physical timestamps within a candidate never step back. */
  predicate InOrder(lines: seq<Line>, j: nat, i: nat)
    requires j <= i < |lines|
  {
    forall k :: j < k <= i ==> lines[k - 1].emitted <= lines[k].emitted
  }

  datatype Verdict = Kept(captured: Captured) | Excluded | Malformed

  /** One complete candidate: ordered, shallow, parsed, ended before it was logged, and inside the scope or not. */
  function Judge(r: Reader, text: string, ordered: bool, started: int, emitted: int): Verdict {
    if !ordered || JsonDepth.ScanText(JsonDepth.Outside(0), text).Raised? then Malformed
    else match r.project(text)
      case None => Malformed
      case Some(span) =>
        if !(span.start <= span.end <= started <= emitted) then Malformed
        else if r.start <= span.start && span.end <= r.end then Kept(Captured(span, started, emitted))
        else Excluded
  }

  method Decide(r: Reader, text: string, ordered: bool, started: int, emitted: int) returns (v: Verdict)
    ensures v == Judge(r, text, ordered, started, emitted)
  {
    hide JsonDepth.ScanText;
    var passes := JsonDepth.Depth(text);
    if !ordered || !passes {
      return Malformed;
    }
    var span := r.project(text);
    if span.None? || !(span.value.start <= span.value.end <= started <= emitted) {
      return Malformed;
    }
    v := if r.start <= span.value.start && span.value.end <= r.end then Kept(Captured(span.value, started, emitted))
         else Excluded;
  }

  /** Line i closes the open candidate. */
  predicate Closes(lines: seq<Line>, i: nat)
    requires i < |lines|
  {
    IsOpen(lines, i) && lines[i].text == CLOSE
  }

  function VerdictAt(r: Reader, lines: seq<Line>, i: nat): Verdict
    requires i < |lines| && Closes(lines, i)
  {
    var j := Opening(lines, i);
    Judge(r, Joined(lines, j, i), InOrder(lines, j, i), lines[j].emitted, lines[i].emitted)
  }

  /** Leading white space aside, a fragment of an object. */
  predicate Fragment(r: Reader, text: string) {
    text != [] && (if r.space(text[0]) then Fragment(r, text[1..]) else text[0] in {'\"', '}', ']'})
  }

  /** A fragment line outside any candidate. */
  predicate Stray(r: Reader, lines: seq<Line>, i: nat)
    requires i < |lines|
  {
    lines[i].text != OPEN && !IsOpen(lines, i) && Fragment(r, lines[i].text)
  }

  // ----- the counters over a prefix

  function KeptIn(r: Reader, lines: seq<Line>, n: nat): seq<Captured>
    requires n <= |lines|
  {
    if n == 0 then []
    else KeptIn(r, lines, n - 1)
         + (if Closes(lines, n - 1) && VerdictAt(r, lines, n - 1).Kept? then [VerdictAt(r, lines, n - 1).captured]
            else [])
  }

  function CountVerdicts(r: Reader, lines: seq<Line>, n: nat, v: Verdict): nat
    requires n <= |lines|
  {
    if n == 0 then 0
    else CountVerdicts(r, lines, n - 1, v) + (if Closes(lines, n - 1) && VerdictAt(r, lines, n - 1) == v then 1 else 0)
  }

  /** Candidates cut off by another opening line, and fragments outside any. */
  function PartialIn(r: Reader, lines: seq<Line>, n: nat): nat
    requires n <= |lines|
  {
    if n == 0 then 0
    else PartialIn(r, lines, n - 1)
         + CountIf((lines[n - 1].text == OPEN && IsOpen(lines, n - 1)) || Stray(r, lines, n - 1))
  }

  predicate Oversized(r: Reader, lines: seq<Line>, i: nat)
    requires i < |lines|
  {
    IsOpen(lines, i) && lines[i].text != OPEN && Size(r, lines, Opening(lines, i), i) > MAX_BYTES
  }

  /** The first line at which the parser gives up, if any. */
  predicate StopsAt(r: Reader, lines: seq<Line>, i: nat)
    requires i < |lines|
  {
    Oversized(r, lines, i) || |KeptIn(r, lines, i + 1)| > MAX_SPANS
  }

  function CountIf(b: bool): nat { if b then 1 else 0 }

  /** `parse_console_log` after the physical lines were read. */
  method Parse(r: Reader, lines: seq<Line>) returns (result: Parsed)
    ensures result.Parsed? <==> forall i :: 0 <= i < |lines| ==> !StopsAt(r, lines, i)
    ensures result.Parsed? ==>
      var n := |lines|;
      && result.spans == KeptIn(r, lines, n) && result.malformed == CountVerdicts(r, lines, n, Malformed)
      && result.excluded == CountVerdicts(r, lines, n, Excluded)
      && result.partial == PartialIn(r, lines, n) + CountIf(IsOpen(lines, n))
  {
    hide Judge, Fragment, Joined, InOrder;
    var spans: seq<Captured> := [];
    var open, text := false, "";
    var started, previous, invalid := 0, 0, false;
    var partial: nat, malformed: nat, excluded: nat, size: nat := 0, 0, 0, 0;
    for i := 0 to |lines|
      invariant forall k :: 0 <= k < i ==> !StopsAt(r, lines, k)
      invariant spans == KeptIn(r, lines, i) && partial == PartialIn(r, lines, i)
      invariant malformed == CountVerdicts(r, lines, i, Malformed) && excluded == CountVerdicts(r, lines, i, Excluded)
      invariant open == IsOpen(lines, i) && |spans| <= MAX_SPANS
      invariant open ==> Carried(r, lines, i, text, size, started, previous, invalid)
    {
      var emitted, line := lines[i].emitted, lines[i].text;
      if line == OPEN {
        partial := partial + CountIf(open);
        open, text, started, size := true, line, emitted, 1;
        previous, invalid := emitted, false;
        CarriedStart(r, lines, i);
        continue;
      }
      if !open {
        partial := partial + CountIf(Fragment(r, line));
        continue;
      }
      CarriedNext(r, lines, i, text, size, started, previous, invalid);
      text := text + "\n" + line;
      invalid := invalid || emitted < previous;
      previous := emitted;
      size := size + r.bytes(line) + 1;
      if size > MAX_BYTES {
        assert StopsAt(r, lines, i);
        return TooLarge;
      }
      if line != CLOSE {
        continue;
      }
      var verdict := Decide(r, text, !invalid, started, emitted);
      assert verdict == VerdictAt(r, lines, i);
      match verdict {
        case Malformed => malformed := malformed + 1;
        case Excluded => excluded := excluded + 1;
        case Kept(captured) =>
          spans := spans + [captured];
          if |spans| > MAX_SPANS {
            assert StopsAt(r, lines, i);
            return TooMany;
          }
      }
      open, text, size := false, "", 0;
    }
    result := Parsed(spans, partial + CountIf(open), malformed, excluded);
  }

  /** What the loop variables hold for the candidate open before line i. */
  ghost predicate Carried(r: Reader, lines: seq<Line>, i: nat, text: string, size: nat, started: int, previous: int,
                          invalid: bool)
    requires i <= |lines| && IsOpen(lines, i)
  {
    var j := Opening(lines, i);
    && text == Joined(lines, j, i - 1) && size == Size(r, lines, j, i - 1) && started == lines[j].emitted
    && previous == lines[i - 1].emitted && invalid == !InOrder(lines, j, i - 1)
  }

  lemma CarriedStart(r: Reader, lines: seq<Line>, i: nat)
    requires i < |lines| && lines[i].text == OPEN
    ensures Carried(r, lines, i + 1, OPEN, 1, lines[i].emitted, lines[i].emitted, false)
  {
  }

  lemma CarriedNext(r: Reader, lines: seq<Line>, i: nat, text: string, size: nat, started: int, previous: int,
                    invalid: bool)
    requires i < |lines| && IsOpen(lines, i) && lines[i].text != OPEN
    requires Carried(r, lines, i, text, size, started, previous, invalid)
    ensures var j := Opening(lines, i);
      && text + "\n" + lines[i].text == Joined(lines, j, i) && size + r.bytes(lines[i].text) + 1 == Size(r, lines, j, i)
      && (invalid || lines[i].emitted < previous) == !InOrder(lines, j, i)
      && (lines[i].text != CLOSE ==> IsOpen(lines, i + 1) && Opening(lines, i + 1) == j)
  {
  }

  // ----- conservation

  function Openers(lines: seq<Line>, n: nat): nat
    requires n <= |lines|
  {
    if n == 0 then 0 else Openers(lines, n - 1) + CountIf(lines[n - 1].text == OPEN)
  }

  function Strays(r: Reader, lines: seq<Line>, n: nat): nat
    requires n <= |lines|
  {
    if n == 0 then 0 else Strays(r, lines, n - 1) + CountIf(Stray(r, lines, n - 1))
  }

  /** No candidate is lost or counted twice: every opening line and every stray fragment lands in one counter. */
  lemma {:induction false} CandidatesAreConserved(r: Reader, lines: seq<Line>, n: nat)
    requires n <= |lines|
    ensures |KeptIn(r, lines, n)| + CountVerdicts(r, lines, n, Malformed) + CountVerdicts(r, lines, n, Excluded)
            + PartialIn(r, lines, n) + CountIf(IsOpen(lines, n)) == Openers(lines, n) + Strays(r, lines, n)
  {
    hide Judge, Fragment;
    if n > 0 {
      CandidatesAreConserved(r, lines, n - 1);
    }
  }

  /** A kept span is one contiguous block of lines with nothing but its own delimiters, in time order and in scope. */
  ghost predicate FromBlock(r: Reader, lines: seq<Line>, n: nat, c: Captured, j: nat, i: nat) {
    && j < i < n <= |lines|
    && lines[j].text == OPEN && lines[i].text == CLOSE && (forall k :: j < k < i ==> lines[k].text !in {OPEN, CLOSE})
    && InOrder(lines, j, i) && c.logStart == lines[j].emitted && c.logEnd == lines[i].emitted
    && r.project(Joined(lines, j, i)) == Some(c.span)
    && !JsonDepth.ScanText(JsonDepth.Outside(0), Joined(lines, j, i)).Raised?
    && r.start <= c.span.start <= c.span.end <= r.end && c.span.end <= c.logStart <= c.logEnd
  }

  lemma BlockLater(r: Reader, lines: seq<Line>, n: nat, c: Captured, j: nat, i: nat)
    requires FromBlock(r, lines, n, c, j, i) && n < |lines|
    ensures FromBlock(r, lines, n + 1, c, j, i)
  {
    hide JsonDepth.ScanText, Joined;
  }

  lemma LastBlock(r: Reader, lines: seq<Line>, i: nat)
    requires i < |lines| && Closes(lines, i) && VerdictAt(r, lines, i).Kept?
    ensures FromBlock(r, lines, i + 1, VerdictAt(r, lines, i).captured, Opening(lines, i), i)
  {
    hide JsonDepth.ScanText, Joined;
  }

  lemma {:induction false} EveryKeptSpanIsABlock(r: Reader, lines: seq<Line>, n: nat, m: nat) returns (j: nat, i: nat)
    requires n <= |lines| && m < |KeptIn(r, lines, n)|
    ensures FromBlock(r, lines, n, KeptIn(r, lines, n)[m], j, i)
  {
    hide FromBlock, VerdictAt, Closes;
    if m < |KeptIn(r, lines, n - 1)| {
      j, i := EveryKeptSpanIsABlock(r, lines, n - 1, m);
      BlockLater(r, lines, n - 1, KeptIn(r, lines, n)[m], j, i);
    } else {
      LastBlock(r, lines, n - 1);
      j, i := LastOpening(lines, n - 1), n - 1;
    }
  }

  function LastOpening(lines: seq<Line>, i: nat): nat
    requires i < |lines| && Closes(lines, i)
  {
    Opening(lines, i)
  }

  /** Blocks of later spans lie behind the blocks of earlier ones. */
  lemma {:induction false} KeptSpansFollowTheLog(r: Reader, lines: seq<Line>, n: nat, a: nat, b: nat)
    returns (ja: nat, ia: nat, jb: nat, ib: nat)
    requires n <= |lines| && a < b < |KeptIn(r, lines, n)|
    ensures FromBlock(r, lines, n, KeptIn(r, lines, n)[a], ja, ia)
    ensures FromBlock(r, lines, n, KeptIn(r, lines, n)[b], jb, ib)
    ensures ia < jb
  {
    hide FromBlock, VerdictAt, Closes;
    if b < |KeptIn(r, lines, n - 1)| {
      ja, ia, jb, ib := KeptSpansFollowTheLog(r, lines, n - 1, a, b);
      BlockLater(r, lines, n - 1, KeptIn(r, lines, n)[b], jb, ib);
    } else {
      ja, ia := EveryKeptSpanIsABlock(r, lines, n - 1, a);
      LastBlock(r, lines, n - 1);
      jb, ib := LastOpening(lines, n - 1), n - 1;
      BlockBehind(r, lines, KeptIn(r, lines, n)[a], ja, ia, n - 1);
    }
    BlockLater(r, lines, n - 1, KeptIn(r, lines, n)[a], ja, ia);
  }

  /** A block that ended before line i ended before the candidate closing at i was opened. */
  lemma BlockBehind(r: Reader, lines: seq<Line>, c: Captured, ja: nat, ia: nat, i: nat)
    requires i < |lines| && Closes(lines, i) && FromBlock(r, lines, i, c, ja, ia)
    ensures ia < LastOpening(lines, i)
  {
    hide JsonDepth.ScanText, Joined;
  }

  lemma {:induction false} OpeningIs(lines: seq<Line>, j: nat, n: nat)
    requires j < n <= |lines| && lines[j].text == OPEN && forall k :: j < k < n ==> lines[k].text !in {OPEN, CLOSE}
    ensures IsOpen(lines, n) && Opening(lines, n) == j
  {
    if j < n - 1 {
      OpeningIs(lines, j, n - 1);
    }
  }

  lemma {:induction false} KeptStays(r: Reader, lines: seq<Line>, n: nat, m: nat, n2: nat)
    requires n <= n2 <= |lines| && m < |KeptIn(r, lines, n)|
    ensures m < |KeptIn(r, lines, n2)| && KeptIn(r, lines, n2)[m] == KeptIn(r, lines, n)[m]
    decreases n2
  {
    hide VerdictAt, Closes;
    if n < n2 {
      KeptStays(r, lines, n, m, n2 - 1);
    }
  }

  /** And every such block is kept: nothing well-formed, in order and in scope is dropped. */
  lemma EveryGoodBlockIsKept(r: Reader, lines: seq<Line>, n: nat, c: Captured, j: nat, i: nat) returns (m: nat)
    requires FromBlock(r, lines, n, c, j, i)
    ensures m < |KeptIn(r, lines, n)| && KeptIn(r, lines, n)[m] == c
  {
    hide JsonDepth.ScanText, Joined, InOrder;
    OpeningIs(lines, j, i);
    assert Closes(lines, i) && VerdictAt(r, lines, i) == Kept(c);
    m := |KeptIn(r, lines, i)|;
    KeptStays(r, lines, i + 1, m, n);
  }
}
