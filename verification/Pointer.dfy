/**
 JSON Pointer (RFC 6901, sections 3 and 4) as the evaluation resolves it: split at slashes, check the escapes,
 undo them with two global replacements, and walk. A pointer resolves exactly when it names an existing path.
 */
module Pointer {
  import opened Records

  datatype Json = Scalar(text: string) | List(items: seq<Json>) | Object(members: map<string, Json>)

  // ----- stepwise navigation

  datatype Step = Key(name: string) | Index(n: nat)

  function Child(v: Json, step: Step): Option<Json> {
    match step
    case Key(name) => if v.Object? && name in v.members then Some(v.members[name]) else None
    case Index(n) => if v.List? && n < |v.items| then Some(v.items[n]) else None
  }

  function Navigate(v: Json, path: seq<Step>): Option<Json>
    decreases |path|
  {
    if path == [] then Some(v)
    else if Child(v, path[0]).None? then None
    else Navigate(Child(v, path[0]).value, path[1..])
  }

  // ----- escapes

  function Escape(s: string): string {
    if s == [] then [] else (if s[0] == '~' then "~0" else if s[0] == '/' then "~1" else [s[0]]) + Escape(s[1..])
  }

  /** No tilde is left without its 0 or 1. */
  predicate ValidEscapes(s: string) {
    forall i :: 0 <= i < |s| && s[i] == '~' ==> i + 1 < |s| && s[i + 1] in {'0', '1'}
  }

  /** A single pass from the left. */
  function Unescape(s: string): string
    decreases |s|
  {
    if |s| >= 2 && s[0] == '~' && s[1] == '0' then "~" + Unescape(s[2..])
    else if |s| >= 2 && s[0] == '~' && s[1] == '1' then "/" + Unescape(s[2..])
    else if s == [] then [] else [s[0]] + Unescape(s[1..])
  }

  /** `s.replace("~" + code, to)`. */
  function Replace(s: string, code: char, to: char): string
    decreases |s|
  {
    if |s| >= 2 && s[0] == '~' && s[1] == code then [to] + Replace(s[2..], code, to)
    else if s == [] then [] else [s[0]] + Replace(s[1..], code, to)
  }

  lemma ReplaceStep(c: char, rest: string, code: char, to: char)
    requires c != '~'
    ensures Replace([c] + rest, code, to) == [c] + Replace(rest, code, to)
  {
    assert ([c] + rest)[1..] == rest;
  }

  lemma ReplacePair(d: char, rest: string, code: char, to: char)
    requires code in {'0', '1'} && d in {'0', '1'}
    ensures Replace(['~', d] + rest, code, to)
         == (if d == code then [to] else ['~', d]) + Replace(rest, code, to)
  {
    var s := ['~', d] + rest;
    assert s[2..] == rest && s[1..] == [d] + rest;
    if d != code {
      ReplaceStep(d, rest, code, to);
    }
  }

  lemma ValidRest(s: string, n: nat)
    requires ValidEscapes(s) && n <= |s|
    ensures ValidEscapes(s[n..])
  {
    forall i | 0 <= i < |s| - n && s[n..][i] == '~' ensures i + 1 < |s| - n && s[n..][i + 1] in {'0', '1'} {
      assert s[n + i] == '~' && s[n + i + 1] in {'0', '1'};
    }
  }

  /** On every string that passes the check, `~1` first and `~0` second is one pass from the left. */
  lemma {:induction false} ReplacementsUnescape(s: string)
    requires ValidEscapes(s)
    ensures Replace(Replace(s, '1', '/'), '0', '~') == Unescape(s)
    decreases |s|
  {
    if s != [] {
      if s[0] == '~' {
        ValidRest(s, 2);
        ReplacementsUnescape(s[2..]);
        assert s == ['~', s[1]] + s[2..];
        ReplacePair(s[1], s[2..], '1', '/');
        var rest := Replace(s[2..], '1', '/');
        if s[1] == '1' {
          ReplaceStep('/', rest, '0', '~');
        } else {
          ReplacePair('0', rest, '0', '~');
        }
      } else {
        ValidRest(s, 1);
        ReplacementsUnescape(s[1..]);
        assert s == [s[0]] + s[1..];
        ReplaceStep(s[0], s[1..], '1', '/');
        ReplaceStep(s[0], Replace(s[1..], '1', '/'), '0', '~');
      }
    }
  }

  lemma {:induction false} EscapedIsValid(s: string)
    ensures ValidEscapes(Escape(s)) && '/' !in Escape(s) && Unescape(Escape(s)) == s
    decreases |s|
  {
    if s != [] {
      EscapedIsValid(s[1..]);
      var e, rest := Escape(s), Escape(s[1..]);
      if s[0] in {'~', '/'} {
        assert e == ['~', if s[0] == '~' then '0' else '1'] + rest;
        assert e[2..] == rest;
        forall i | 0 <= i < |e| && e[i] == '~' ensures i + 1 < |e| && e[i + 1] in {'0', '1'} {
          assert i >= 2 ==> rest[i - 2] == '~';
        }
      } else {
        assert e == [s[0]] + rest && e[1..] == rest;
        forall i | 0 <= i < |e| && e[i] == '~' ensures i + 1 < |e| && e[i + 1] in {'0', '1'} {
          assert rest[i - 1] == '~';
        }
      }
    }
  }

  lemma {:induction false} UnescapedEscapes(s: string)
    requires ValidEscapes(s) && '/' !in s
    ensures Escape(Unescape(s)) == s
    decreases |s|
  {
    if s != [] {
      if s[0] == '~' {
        ValidRest(s, 2);
        UnescapedEscapes(s[2..]);
        assert s == ['~', s[1]] + s[2..];
        assert Unescape(s)[1..] == Unescape(s[2..]);
      } else {
        ValidRest(s, 1);
        UnescapedEscapes(s[1..]);
        assert s == [s[0]] + s[1..];
        assert Unescape(s)[1..] == Unescape(s[1..]);
      }
    }
  }

  // ----- splitting

  function Join(parts: seq<string>): string
    requires parts != []
  {
    if |parts| == 1 then parts[0] else parts[0] + "/" + Join(parts[1..])
  }

  function Split(s: string): (parts: seq<string>)
    ensures parts != []
  {
    if s == [] then [""]
    else
      var rest := Split(s[1..]);
      if s[0] == '/' then [""] + rest else [[s[0]] + rest[0]] + rest[1..]
  }

  lemma {:induction false} SplitJoins(s: string)
    ensures Join(Split(s)) == s && forall p :: p in Split(s) ==> '/' !in p
  {
    if s != [] {
      SplitJoins(s[1..]);
      var rest, parts := Split(s[1..]), Split(s);
      if s[0] == '/' {
        assert parts[1..] == rest;
      } else {
        assert parts[1..] == rest[1..];
        assert parts[0] == [s[0]] + rest[0];
      }
    }
  }

  lemma {:induction false} SplitPart(p: string, tail: string)
    requires '/' !in p
    ensures Split(p) == [p] && Split(p + "/" + tail) == [p] + Split(tail)
    decreases |p|
  {
    if p == [] {
      assert p + "/" + tail == "/" + tail && ("/" + tail)[1..] == tail;
    } else {
      SplitPart(p[1..], tail);
      assert (p + "/" + tail)[1..] == p[1..] + "/" + tail;
      assert p == [p[0]] + p[1..];
    }
  }

  lemma {:induction false} JoinSplits(parts: seq<string>)
    requires parts != [] && forall p :: p in parts ==> '/' !in p
    ensures Split(Join(parts)) == parts
    decreases |parts|
  {
    if |parts| == 1 {
      SplitPart(parts[0], "");
    } else {
      JoinSplits(parts[1..]);
      SplitPart(parts[0], Join(parts[1..]));
      assert parts == [parts[0]] + parts[1..];
    }
  }

  // ----- array indices

  function Digit(n: nat): char
    requires n < 10
  {
    ('0' as int + n) as char
  }

  function Decimal(n: nat): (s: string)
    ensures s != []
  {
    if n < 10 then [Digit(n)] else Decimal(n / 10) + [Digit(n % 10)]
  }

  predicate Digits(s: string) {
    forall i :: 0 <= i < |s| ==> '0' <= s[i] <= '9'
  }

  /** `0|[1-9][0-9]*`, matched in full. */
  predicate IsIndex(s: string) {
    s != [] && Digits(s) && (s[0] == '0' ==> |s| == 1)
  }

  function Number(s: string): nat
    requires Digits(s)
  {
    if s == [] then 0 else Number(s[..|s| - 1]) * 10 + (s[|s| - 1] as int - '0' as int)
  }

  lemma {:induction false} DecimalIsIndex(n: nat)
    ensures IsIndex(Decimal(n)) && Number(Decimal(n)) == n && (n > 0 ==> Decimal(n)[0] != '0')
  {
    var s := Decimal(n);
    if n < 10 {
      assert s[..0] == [];
    } else {
      DecimalIsIndex(n / 10);
      assert s[..|s| - 1] == Decimal(n / 10);
      assert s[0] == Decimal(n / 10)[0];
    }
  }

  lemma DecimalAppend(n: nat, d: nat)
    requires n > 0 && d < 10
    ensures Decimal(n * 10 + d) == Decimal(n) + [Digit(d)]
  {
    assert (n * 10 + d) / 10 == n && (n * 10 + d) % 10 == d;
  }

  lemma {:induction false} IndexIsDecimal(s: string)
    requires IsIndex(s)
    ensures Decimal(Number(s)) == s && (s[0] != '0' ==> Number(s) > 0)
    decreases |s|
  {
    hide Decimal;
    var front, last := s[..|s| - 1], s[|s| - 1];
    var d := last as int - '0' as int;
    assert s == front + [last];
    if |s| == 1 {
      assert Number(front) == 0;
      OneDigit(d);
    } else {
      IndexIsDecimal(front);
      DecimalAppend(Number(front), d);
    }
    assert Digit(d) == last;
  }

  lemma OneDigit(d: nat)
    requires d < 10
    ensures Decimal(d) == [Digit(d)]
  {
  }

  // ----- resolution

  datatype Resolution = Found(value: Json) | BadPointer | BadEscape | Unresolved | NoKey | NoIndex

  function StepInto(v: Json, part: string): Resolution {
    if !ValidEscapes(part) then BadEscape
    else
      var key := Replace(Replace(part, '1', '/'), '0', '~');
      if v.Object? then (if key in v.members then Found(v.members[key]) else NoKey)
      else if v.List? && IsIndex(key) then
        (if Number(key) < |v.items| then Found(v.items[Number(key)]) else NoIndex)
      else Unresolved
  }

  function Walk(v: Json, parts: seq<string>): Resolution
    decreases |parts|
  {
    if parts == [] then Found(v)
    else
      var next := StepInto(v, parts[0]);
      if next.Found? then Walk(next.value, parts[1..]) else next
  }

  function Resolve(v: Json, pointer: string): Resolution {
    if pointer == [] then Found(v) else if pointer[0] != '/' then BadPointer else Walk(v, Split(pointer[1..]))
  }

  /** `at_pointer`. */
  method AtPointer(v: Json, pointer: string) returns (r: Resolution)
    ensures r == Resolve(v, pointer)
  {
    if pointer == [] {
      return Found(v);
    }
    if pointer[0] != '/' {
      return BadPointer;
    }
    var parts := Split(pointer[1..]);
    var value := v;
    for i := 0 to |parts|
      invariant Walk(value, parts[i..]) == Walk(v, parts)
    {
      var next := StepInto(value, parts[i]);
      assert parts[i..][0] == parts[i] && parts[i..][1..] == parts[i + 1..];
      if !next.Found? {
        return next;
      }
      value := next.value;
    }
    r := Found(value);
  }

  function Part(step: Step): string {
    Escape(if step.Key? then step.name else Decimal(step.n))
  }

  function Parts(path: seq<Step>): seq<string> {
    if path == [] then [] else [Part(path[0])] + Parts(path[1..])
  }

  function PointerOf(path: seq<Step>): string {
    if path == [] then "" else "/" + Join(Parts(path))
  }

  /** One escaped part steps to the child it names. */
  lemma PartStepsInto(v: Json, step: Step)
    requires Child(v, step).Some?
    ensures StepInto(v, Part(step)) == Found(Child(v, step).value)
  {
    var key := if step.Key? then step.name else Decimal(step.n);
    EscapedIsValid(key);
    ReplacementsUnescape(Part(step));
    if step.Index? {
      DecimalIsIndex(step.n);
    }
  }

  /** A part that resolves is the escaped name of a child. */
  lemma ResolvedPartNames(v: Json, part: string) returns (step: Step)
    requires StepInto(v, part).Found? && '/' !in part
    ensures Part(step) == part && Child(v, step) == Some(StepInto(v, part).value)
  {
    ReplacementsUnescape(part);
    UnescapedEscapes(part);
    var key := Unescape(part);
    if v.Object? {
      step := Key(key);
    } else {
      IndexIsDecimal(key);
      step := Index(Number(key));
    }
  }

  lemma {:induction false} WalkNavigates(v: Json, path: seq<Step>)
    requires Navigate(v, path).Some?
    ensures Walk(v, Parts(path)) == Found(Navigate(v, path).value)
    decreases |path|
  {
    if path != [] {
      PartStepsInto(v, path[0]);
      assert Parts(path)[1..] == Parts(path[1..]);
      WalkNavigates(Child(v, path[0]).value, path[1..]);
    }
  }

  lemma {:induction false} WalkNamesPath(v: Json, parts: seq<string>) returns (path: seq<Step>)
    requires Walk(v, parts).Found? && forall p :: p in parts ==> '/' !in p
    ensures Parts(path) == parts && Navigate(v, path) == Some(Walk(v, parts).value)
    decreases |parts|
  {
    hide StepInto, Part, Child;
    if parts == [] {
      path := [];
    } else {
      assert parts[0] in parts && forall p :: p in parts[1..] ==> p in parts;
      var step := ResolvedPartNames(v, parts[0]);
      var rest := WalkNamesPath(StepInto(v, parts[0]).value, parts[1..]);
      path := [step] + rest;
      assert path[1..] == rest && parts == [parts[0]] + parts[1..];
    }
  }

  lemma {:induction false} PartsAreSplit(path: seq<Step>)
    ensures |Parts(path)| == |path| && forall p :: p in Parts(path) ==> '/' !in p
    decreases |path|
  {
    if path != [] {
      EscapedIsValid(if path[0].Key? then path[0].name else Decimal(path[0].n));
      PartsAreSplit(path[1..]);
    }
  }

  /** Every existing path is found under its escaped pointer. */
  lemma ExistingPathResolves(v: Json, path: seq<Step>)
    requires Navigate(v, path).Some?
    ensures Resolve(v, PointerOf(path)) == Found(Navigate(v, path).value)
  {
    if path != [] {
      PartsAreSplit(path);
      JoinSplits(Parts(path));
      assert PointerOf(path)[1..] == Join(Parts(path));
      WalkNavigates(v, path);
    }
  }

  lemma PartIsUnique(v: Json, a: Step, b: Step)
    requires Child(v, a).Some? && Child(v, b).Some? && Part(a) == Part(b)
    ensures a == b
  {
    hide Escape, Unescape, ValidEscapes, Decimal, Number, IsIndex;
    var (x, y) := (if a.Key? then a.name else Decimal(a.n), if b.Key? then b.name else Decimal(b.n));
    EscapedIsValid(x);
    EscapedIsValid(y);
    assert x == y;
    if a.Index? {
      DecimalIsIndex(a.n);
      DecimalIsIndex(b.n);
    }
  }

  lemma {:induction false} PartsAreUnique(v: Json, a: seq<Step>, b: seq<Step>)
    requires Navigate(v, a).Some? && Navigate(v, b).Some? && Parts(a) == Parts(b)
    ensures a == b
    decreases |a|
  {
    hide Part, Child;
    if a != [] {
      assert Parts(a)[0] == Part(a[0]) && Parts(b)[0] == Part(b[0]);
      assert Parts(a)[1..] == Parts(a[1..]) && Parts(b)[1..] == Parts(b[1..]);
      PartIsUnique(v, a[0], b[0]);
      PartsAreUnique(Child(v, a[0]).value, a[1..], b[1..]);
      assert a == [a[0]] + a[1..] && b == [b[0]] + b[1..];
    }
  }

  /** In one value, no two paths share a pointer. */
  lemma PointersAreUnique(v: Json, a: seq<Step>, b: seq<Step>)
    requires Navigate(v, a).Some? && Navigate(v, b).Some? && PointerOf(a) == PointerOf(b)
    ensures a == b
  {
    hide Navigate, Join;
    if a != [] && b != [] {
      PartsAreSplit(a);
      PartsAreSplit(b);
      JoinSplits(Parts(a));
      JoinSplits(Parts(b));
      assert PointerOf(a)[1..] == Join(Parts(a)) && PointerOf(b)[1..] == Join(Parts(b));
      PartsAreUnique(v, a, b);
    }
  }

  /** Whatever a pointer resolves to is found by stepping along the one path it is the pointer of. */
  lemma ResolvedPointerNamesPath(v: Json, pointer: string) returns (path: seq<Step>)
    requires Resolve(v, pointer).Found?
    ensures PointerOf(path) == pointer && Navigate(v, path) == Some(Resolve(v, pointer).value)
    ensures forall p :: Navigate(v, p).Some? && PointerOf(p) == pointer ==> p == path
  {
    if pointer == [] {
      path := [];
    } else {
      SplitJoins(pointer[1..]);
      path := WalkNamesPath(v, Split(pointer[1..]));
      assert path != [];
      assert pointer == "/" + pointer[1..];
    }
    forall p | Navigate(v, p).Some? && PointerOf(p) == pointer ensures p == path {
      PointersAreUnique(v, p, path);
    }
  }
}
