/**
 The linear scan that bounds JSON nesting before the recursive decoder runs, and why it agrees with recursion.
 A text is rendered from its syntax tree, with every choice of white space and string escapes that sections 2,
 4, 5 and 7 of RFC 8259 allow.
 */
module JsonDepth {

  const MAX_DEPTH := 8

  // ----- JSON texts

  /**
   A string character as written: itself, or a backslash and the character it escapes (`\u` is followed by plain
   digits).
   */
  datatype StringChar = Plain(c: char) | Escape(c: char)

  datatype Value =
    | Literal(text: string)
    | Quoted(body: seq<StringChar>)
    | Array(gap: string, elements: Elements)
    | Object(gap: string, members: Members)

  datatype Elements = NoElement | Element(before: string, value: Value, after: string, rest: Elements)

  datatype Members =
    | NoMember
    | Member(before: string, key: seq<StringChar>, colon: string, gap: string, value: Value, after: string,
             rest: Members)

  predicate Blank(s: string) {
    forall c :: c in s ==> c in {' ', '\t', '\n', '\r'}
  }

  /** `true`, `false`, `null` and numbers are written with these characters only. */
  predicate LiteralText(s: string) {
    forall c :: c in s ==> 'a' <= c <= 'z' || 'A' <= c <= 'Z' || '0' <= c <= '9' || c in {'+', '-', '.'}
  }

  predicate StringText(body: seq<StringChar>) {
    forall x :: x in body ==> x.Plain? ==> x.c != '\"' && x.c != '\\'
  }

  predicate ValidValue(v: Value) {
    match v
    case Literal(text) => LiteralText(text)
    case Quoted(body) => StringText(body)
    case Array(gap, elements) => Blank(gap) && ValidElements(elements)
    case Object(gap, members) => Blank(gap) && ValidMembers(members)
  }

  predicate ValidElements(e: Elements) {
    e.NoElement? || (Blank(e.before) && ValidValue(e.value) && Blank(e.after) && ValidElements(e.rest))
  }

  predicate ValidMembers(m: Members) {
    m.NoMember? || (&& Blank(m.before) && StringText(m.key) && Blank(m.colon) && Blank(m.gap) && ValidValue(m.value)
                    && Blank(m.after) && ValidMembers(m.rest))
  }

  function RenderChar(x: StringChar): string {
    if x.Plain? then [x.c] else ['\\', x.c]
  }

  function RenderBody(body: seq<StringChar>): string {
    if body == [] then []
    else RenderChar(body[0]) + RenderBody(body[1..])
  }

  function RenderString(body: seq<StringChar>): string {
    ['\"'] + RenderBody(body) + ['\"']
  }

  function Render(v: Value): string {
    match v
    case Literal(text) => text
    case Quoted(body) => RenderString(body)
    case Array(gap, elements) => "[" + gap + RenderElements(elements) + "]"
    case Object(gap, members) => "{" + gap + RenderMembers(members) + "}"
  }

  function RenderElements(e: Elements): string {
    if e.NoElement? then ""
    else e.before + Render(e.value) + (e.after + (if e.rest.NoElement? then "" else ",")) + RenderElements(e.rest)
  }

  function RenderMembers(m: Members): string {
    if m.NoMember? then ""
    else
      m.before + RenderString(m.key) + (m.colon + ":" + m.gap) + Render(m.value)
      + (m.after + (if m.rest.NoMember? then "" else ",")) + RenderMembers(m.rest)
  }

  function Greater(a: nat, b: nat): nat { if a > b then a else b }

  /** How many containers enclose the innermost value, counted by recursion. */
  function Nesting(v: Value): nat {
    match v
    case Literal(_) | Quoted(_) => 0
    case Array(_, elements) => 1 + ElementsNesting(elements)
    case Object(_, members) => 1 + MembersNesting(members)
  }

  function ElementsNesting(e: Elements): nat {
    if e.NoElement? then 0 else Greater(Nesting(e.value), ElementsNesting(e.rest))
  }

  function MembersNesting(m: Members): nat {
    if m.NoMember? then 0 else Greater(Nesting(m.value), MembersNesting(m.rest))
  }

  // ----- the scan

  datatype Scan = Raised | Scan(depth: int, quoted: bool, escaped: bool)

  function Step(s: Scan, c: char): Scan {
    if s.Raised? then s
    else if s.quoted then
      if s.escaped then s.(escaped := false)
      else if c == '\\' then s.(escaped := true)
      else if c == '\"' then s.(quoted := false)
      else s
    else if c == '\"' then s.(quoted := true)
    else if c in {'[', '{'} then (if s.depth + 1 > MAX_DEPTH then Raised else s.(depth := s.depth + 1))
    else if c in {']', '}'} then s.(depth := s.depth - 1)
    else s
  }

  function ScanText(s: Scan, text: string): Scan
    decreases |text|
  {
    if text == [] then s else ScanText(Step(s, text[0]), text[1..])
  }

  /** Outside any string, at this depth. */
  function Outside(depth: int): Scan { Scan(depth, false, false) }

  /** `_depth`: whether the text passes. */
  method Depth(text: string) returns (passes: bool)
    ensures passes <==> !ScanText(Outside(0), text).Raised?
  {
    var depth, quoted, escaped := 0, false, false;
    for i := 0 to |text|
      invariant ScanText(Scan(depth, quoted, escaped), text[i..]) == ScanText(Outside(0), text)
    {
      var c := text[i];
      assert text[i..][0] == c && text[i..][1..] == text[i + 1..];
      if quoted {
        if escaped {
          escaped := false;
        } else if c == '\\' {
          escaped := true;
        } else if c == '\"' {
          quoted := false;
        }
      } else if c == '\"' {
        quoted := true;
      } else if c in {'[', '{'} {
        depth := depth + 1;
        if depth > MAX_DEPTH {
          StaysRaised(text[i + 1..]);
          return false;
        }
      } else if c in {']', '}'} {
        depth := depth - 1;
      }
    }
    passes := true;
  }

  lemma {:induction false} StaysRaised(text: string)
    ensures ScanText(Raised, text) == Raised
  {
    if text != [] {
      StaysRaised(text[1..]);
    }
  }

  lemma {:induction false} ScanBoth(s: Scan, a: string, b: string)
    ensures ScanText(s, a + b) == ScanText(ScanText(s, a), b)
    decreases |a|
  {
    if a == [] {
      assert a + b == b;
    } else {
      assert (a + b)[0] == a[0] && (a + b)[1..] == a[1..] + b;
      ScanBoth(Step(s, a[0]), a[1..], b);
    }
  }

  predicate Inert(s: string) {
    forall c :: c in s ==> c !in {'\"', '[', '{', ']', '}'}
  }

  lemma {:induction false} ScanInert(depth: int, s: string)
    requires Inert(s)
    ensures ScanText(Outside(depth), s) == Outside(depth)
  {
    if s != [] {
      assert s[0] in s && forall c :: c in s[1..] ==> c in s;
      ScanInert(depth, s[1..]);
    }
  }

  lemma ScanOne(s: Scan, c: char)
    ensures ScanText(s, [c]) == Step(s, c)
  {
    assert [c][1..] == [];
  }

  lemma ScanChar(depth: int, x: StringChar)
    requires x.Plain? ==> x.c != '\"' && x.c != '\\'
    ensures ScanText(Scan(depth, true, false), RenderChar(x)) == Scan(depth, true, false)
  {
    ScanOne(Scan(depth, true, false), x.c);
    ScanOne(Scan(depth, true, false), '\\');
    ScanOne(Scan(depth, true, true), x.c);
    ScanBoth(Scan(depth, true, false), ['\\'], [x.c]);
    assert RenderChar(x) == if x.Plain? then [x.c] else ['\\'] + [x.c];
  }

  /** Brackets and escaped quotes inside a string leave the count alone. */
  lemma {:induction false} ScanBody(depth: int, body: seq<StringChar>)
    requires StringText(body)
    ensures ScanText(Scan(depth, true, false), RenderBody(body)) == Scan(depth, true, false)
  {
    if body != [] {
      var first := RenderChar(body[0]);
      assert body[0] in body;
      ScanBoth(Scan(depth, true, false), first, RenderBody(body[1..]));
      ScanChar(depth, body[0]);
      ScanBody(depth, body[1..]);
    }
  }

  lemma ScanString(depth: int, body: seq<StringChar>)
    requires StringText(body)
    ensures ScanText(Outside(depth), RenderString(body)) == Outside(depth)
  {
    var quote := ['\"'];
    assert quote[1..] == [];
    ScanBoth(Outside(depth), quote + RenderBody(body), quote);
    ScanBoth(Outside(depth), quote, RenderBody(body));
    assert ScanText(Outside(depth), quote) == Scan(depth, true, false);
    ScanBody(depth, body);
  }

  /** What scanning a rendering does at a depth: raise, or come back to where it was. */
  function Visit(depth: nat, nesting: nat): Scan {
    if depth + nesting > MAX_DEPTH then Raised else Outside(depth)
  }

  lemma ScanContainer(depth: nat, open: char, gap: string, inner: string, close: char, nesting: nat)
    requires depth <= MAX_DEPTH && Blank(gap) && open in {'[', '{'} && close in {']', '}'}
    requires depth < MAX_DEPTH ==> ScanText(Outside(depth + 1), inner) == Visit(depth + 1, nesting)
    ensures ScanText(Outside(depth), [open] + gap + inner + [close]) == Visit(depth, 1 + nesting)
  {
    assert [open][1..] == [] && [close][1..] == [];
    ScanBoth(Outside(depth), [open] + gap + inner, [close]);
    ScanBoth(Outside(depth), [open] + gap, inner);
    ScanBoth(Outside(depth), [open], gap);
    StaysRaised(gap);
    StaysRaised(inner);
    ScanInert(depth + 1, gap);
  }

  lemma ScanPair(depth: nat, a: string, b: string, na: nat, nb: nat)
    requires depth <= MAX_DEPTH
    requires ScanText(Outside(depth), a) == Visit(depth, na) && ScanText(Outside(depth), b) == Visit(depth, nb)
    ensures ScanText(Outside(depth), a + b) == Visit(depth, Greater(na, nb))
  {
    ScanBoth(Outside(depth), a, b);
    StaysRaised(b);
  }

  lemma ScanGap(depth: nat, gap: string)
    requires depth <= MAX_DEPTH && Inert(gap)
    ensures ScanText(Outside(depth), gap) == Visit(depth, 0)
  {
    ScanInert(depth, gap);
  }

  lemma {:induction false} ScanValue(depth: nat, v: Value)
    requires depth <= MAX_DEPTH && ValidValue(v)
    ensures ScanText(Outside(depth), Render(v)) == Visit(depth, Nesting(v))
    decreases v
  {
    hide ScanText;
    match v
    case Literal(text) => ScanGap(depth, text);
    case Quoted(body) => ScanString(depth, body);
    case Array(gap, elements) =>
      if depth < MAX_DEPTH {
        ScanElements(depth + 1, elements);
      }
      ScanContainer(depth, '[', gap, RenderElements(elements), ']', ElementsNesting(elements));
    case Object(gap, members) =>
      if depth < MAX_DEPTH {
        ScanMembers(depth + 1, members);
      }
      ScanContainer(depth, '{', gap, RenderMembers(members), '}', MembersNesting(members));
  }

  lemma {:induction false} ScanElements(depth: nat, e: Elements)
    requires depth <= MAX_DEPTH && ValidElements(e)
    ensures ScanText(Outside(depth), RenderElements(e)) == Visit(depth, ElementsNesting(e))
    decreases e
  {
    hide ScanText;
    if e.NoElement? {
      ScanGap(depth, "");
    } else {
      var tail := e.after + (if e.rest.NoElement? then "" else ",");
      ScanGap(depth, e.before);
      ScanValue(depth, e.value);
      ScanGap(depth, tail);
      ScanElements(depth, e.rest);
      ScanPair(depth, e.before, Render(e.value), 0, Nesting(e.value));
      ScanPair(depth, e.before + Render(e.value), tail, Nesting(e.value), 0);
      ScanPair(depth, e.before + Render(e.value) + tail, RenderElements(e.rest), Nesting(e.value),
               ElementsNesting(e.rest));
    }
  }

  lemma {:induction false} ScanMembers(depth: nat, m: Members)
    requires depth <= MAX_DEPTH && ValidMembers(m)
    ensures ScanText(Outside(depth), RenderMembers(m)) == Visit(depth, MembersNesting(m))
    decreases m
  {
    hide ScanText;
    if m.NoMember? {
      ScanGap(depth, "");
    } else {
      var middle, tail := m.colon + ":" + m.gap, m.after + (if m.rest.NoMember? then "" else ",");
      ScanGap(depth, m.before);
      ScanString(depth, m.key);
      ScanGap(depth, middle);
      ScanValue(depth, m.value);
      ScanGap(depth, tail);
      ScanMembers(depth, m.rest);
      var head := m.before + RenderString(m.key);
      ScanPair(depth, m.before, RenderString(m.key), 0, 0);
      ScanPair(depth, head, middle, 0, 0);
      ScanPair(depth, head + middle, Render(m.value), 0, Nesting(m.value));
      ScanPair(depth, head + middle + Render(m.value), tail, Nesting(m.value), 0);
      ScanPair(depth, head + middle + Render(m.value) + tail, RenderMembers(m.rest), Nesting(m.value),
               MembersNesting(m.rest));
    }
  }

  /** The linear scan rejects exactly the texts whose value nests more than eight containers deep. */
  lemma ScanAgreesWithRecursion(before: string, v: Value, after: string)
    requires Blank(before) && ValidValue(v) && Blank(after)
    ensures ScanText(Outside(0), before + Render(v) + after).Raised? <==> Nesting(v) > MAX_DEPTH
  {
    ScanGap(0, before);
    ScanValue(0, v);
    ScanGap(0, after);
    ScanPair(0, before, Render(v), 0, Nesting(v));
    ScanPair(0, before + Render(v), after, Nesting(v), 0);
  }
}
