/** The scanner that finds `{...}` spans in a model's answer, against a printer
    for the grammar of RFC 8259. */
module JsonSpans {

  /** The scanner's four variables. */
  datatype Mode = Mode(depth: nat, start: int, inString: bool, escaped: bool)

  const START := Mode(0, -1, false, false)

  /** Half-open range of positions. */
  datatype Span = Span(from: int, to: int)

  function Step(m: Mode, index: int, c: char): Mode {
    if m.inString then
      if m.escaped then m.(escaped := false)
      else if c == '\\' then m.(escaped := true)
      else if c == '"' then m.(inString := false)
      else m
    else if c == '"' then m.(inString := true)
    else if c == '{' then m.(start := if m.depth == 0 then index else m.start, depth := m.depth + 1)
    else if c == '}' && m.depth > 0 then m.(depth := m.depth - 1)
    else m
  }

  predicate Closes(m: Mode, c: char) {
    !m.inString && c == '}' && m.depth == 1 && m.start >= 0
  }

  /** The mode after reading `text` from position `at`. */
  function Run(m: Mode, at: int, text: string): Mode {
    if text == [] then m else
    var n := |text| - 1;
    Step(Run(m, at, text[..n]), at + n, text[n])
  }

  /** The spans completed while reading `text` from position `at`. */
  function Spans(m: Mode, at: int, text: string): seq<Span> {
    if text == [] then [] else
    var n := |text| - 1;
    var before := Run(m, at, text[..n]);
    Spans(m, at, text[..n]) + if Closes(before, text[n]) then [Span(before.start, at + n + 1)] else []
  }

  function Cut(text: string, span: Span): string
    requires 0 <= span.from <= span.to <= |text|
  {
    text[span.from..span.to]
  }

  method BalancedSpans(text: string) returns (spans: seq<Span>)
    ensures spans == Spans(START, 0, text)
  {
    var depth: nat, start: int, inString, escaped := 0, -1, false, false;
    spans := [];
    for index := 0 to |text|
      invariant Mode(depth, start, inString, escaped) == Run(START, 0, text[..index])
      invariant spans == Spans(START, 0, text[..index])
    {
      var c := text[index];
      assert text[..index + 1][..index] == text[..index];
      if inString {
        if escaped {
          escaped := false;
        } else if c == '\\' {
          escaped := true;
        } else if c == '"' {
          inString := false;
        }
      } else if c == '"' {
        inString := true;
      } else if c == '{' {
        if depth == 0 {
          start := index;
        }
        depth := depth + 1;
      } else if c == '}' && depth != 0 {
        depth := depth - 1;
        if depth == 0 && start >= 0 {
          spans := spans + [Span(start, index + 1)];
        }
      }
    }
    assert text[..|text|] == text;
  }

  // ---- reading in pieces ----

  lemma LastStep(m: Mode, at: int, text: string)
    requires text != []
    ensures var n := |text| - 1;
      var before := Run(m, at, text[..n]);
      && Run(m, at, text) == Step(before, at + n, text[n])
      && Spans(m, at, text) == Spans(m, at, text[..n]) + if Closes(before, text[n]) then [Span(before.start, at + n + 1)] else []
  {
    hide Step, Closes;
  }

  lemma ReadOneMore(m: Mode, at: int, text: string, c: char)
    ensures Run(m, at, text + [c]) == Step(Run(m, at, text), at + |text|, c)
    ensures var before := Run(m, at, text);
      Spans(m, at, text + [c]) == Spans(m, at, text) + if Closes(before, c) then [Span(before.start, at + |text| + 1)] else []
  {
    hide Step, Closes, Run, Spans;
    var longer := text + [c];
    assert longer[..|text|] == text && longer[|text|] == c && longer != [];
    LastStep(m, at, longer);
  }

  lemma Regroup<T>(a: seq<T>, b: seq<T>, c: seq<T>)
    ensures a + (b + c) == (a + b) + c
  {
  }

  lemma {:induction false} RunInPieces(m: Mode, at: int, a: string, b: string)
    ensures Run(m, at, a + b) == Run(Run(m, at, a), at + |a|, b)
    ensures Spans(m, at, a + b) == Spans(m, at, a) + Spans(Run(m, at, a), at + |a|, b)
  {
    if b == [] {
      assert a + b == a;
    } else {
      var front, c := b[..|b| - 1], b[|b| - 1];
      assert front + [c] == b;
      RunInPieces(m, at, a, front);
      OneMorePiece(m, at, a, front, c);
    }
  }

  lemma OneMorePiece(m: Mode, at: int, a: string, b: string, c: char)
    requires Run(m, at, a + b) == Run(Run(m, at, a), at + |a|, b)
    requires Spans(m, at, a + b) == Spans(m, at, a) + Spans(Run(m, at, a), at + |a|, b)
    ensures Run(m, at, a + (b + [c])) == Run(Run(m, at, a), at + |a|, b + [c])
    ensures Spans(m, at, a + (b + [c])) == Spans(m, at, a) + Spans(Run(m, at, a), at + |a|, b + [c])
  {
    hide *;
    Regroup(a, b, [c]);
    ReadOneMore(m, at, a + b, c);
    var after := Run(m, at, a);
    ReadOneMore(after, at + |a|, b, c);
    var last := Run(m, at, a + b);
    Regroup(Spans(m, at, a), Spans(after, at + |a|, b), if Closes(last, c) then [Span(last.start, at + |a + b| + 1)] else []);
  }

  lemma ReadOne(m: Mode, at: int, c: char)
    ensures Run(m, at, [c]) == Step(m, at, c)
    ensures Spans(m, at, [c]) == if Closes(m, c) then [Span(m.start, at + 1)] else []
  {
    hide Step, Closes;
    assert [c][..0] == [];
  }

  // ---- on any text ----

  /** A span that lies in the text, is delimited by braces, and scans alone as exactly itself. */
  ghost predicate Balanced(text: string, span: Span) {
    && 0 <= span.from < span.to <= |text|
    && text[span.from] == '{' && text[span.to - 1] == '}'
    && Spans(START, 0, Cut(text, span)) == [Span(0, span.to - span.from)]
  }

  ghost predicate InOrder(spans: seq<Span>) {
    forall i, j :: 0 <= i < j < |spans| ==> spans[i].to <= spans[j].from
  }

  /** The part read since an open brace looks the same when read alone. */
  ghost predicate Open(text: string, m: Mode) {
    && 0 <= m.start < |text| && text[m.start] == '{'
    && Run(START, 0, text[m.start..]) == m.(start := 0)
    && Spans(START, 0, text[m.start..]) == []
  }

  lemma SuffixOfOneMore(front: string, c: char, k: nat)
    requires k <= |front|
    ensures (front + [c])[k..] == front[k..] + [c]
  {
  }

  lemma StaysOpen(front: string, c: char, m: Mode)
    requires m.depth > 0 && Open(front, m) && Step(m, |front|, c).depth > 0
    ensures Open(front + [c], Step(m, |front|, c))
  {
    hide Run, Spans;
    SuffixOfOneMore(front, c, m.start);
    ReadOneMore(START, 0, front[m.start..], c);
  }

  lemma OneMoreKeepsOpen(front: string, c: char, m: Mode)
    requires m.depth > 0 ==> Open(front, m)
    requires m.escaped ==> m.inString
    ensures var next := Step(m, |front|, c); next.depth > 0 ==> Open(front + [c], next)
  {
    hide Run, Spans;
    if m.depth == 0 {
      SuffixOfOneMore(front, c, |front|);
      ReadOne(START, 0, c);
    } else if Step(m, |front|, c).depth > 0 {
      hide Open;
      StaysOpen(front, c, m);
    }
  }

  lemma {:induction false} ReadingKeepsOpen(text: string)
    ensures Run(START, 0, text).depth > 0 ==> Open(text, Run(START, 0, text))
    ensures Run(START, 0, text).escaped ==> Run(START, 0, text).inString
    ensures Run(START, 0, text).start >= -1
  {
    if text != [] {
      var n := |text| - 1;
      var front, c := text[..n], text[n];
      ReadingKeepsOpen(front);
      var m := Run(START, 0, front);
      assert text == front + [c];
      assert Run(START, 0, text) == Step(m, n, c);
      hide Run, Spans;
      OneMoreKeepsOpen(front, c, m);
    }
  }

  lemma StillBalanced(front: string, c: char, span: Span)
    requires Balanced(front, span)
    ensures Balanced(front + [c], span) && span.to <= |front|
  {
    assert Cut(front + [c], span) == Cut(front, span);
  }

  lemma ClosingIsBalanced(front: string, c: char, m: Mode)
    requires Open(front, m) && Closes(m, c)
    ensures Balanced(front + [c], Span(m.start, |front| + 1))
  {
    var span := Span(m.start, |front| + 1);
    hide Run, Spans;
    assert Cut(front + [c], span) == front[m.start..] + [c];
    ReadOneMore(START, 0, front[m.start..], c);
  }

  /** All balanced, all over by position `end`. */
  ghost predicate AllBalanced(text: string, spans: seq<Span>, end: int) {
    forall i :: 0 <= i < |spans| ==> Balanced(text, spans[i]) && spans[i].to <= end
  }

  lemma OneMoreSpan(front: string, c: char, spans: seq<Span>, m: Mode)
    requires AllBalanced(front, spans, |front|) && InOrder(spans)
    requires m.depth > 0 ==> Open(front, m) && AllBalanced(front, spans, m.start)
    ensures var next := spans + if Closes(m, c) then [Span(m.start, |front| + 1)] else [];
      AllBalanced(front + [c], next, |front| + 1) && InOrder(next)
  {
    forall i | 0 <= i < |spans|
      ensures Balanced(front + [c], spans[i])
    {
      StillBalanced(front, c, spans[i]);
    }
    if Closes(m, c) {
      ClosingIsBalanced(front, c, m);
    }
    hide Balanced, Open;
  }

  lemma OlderSpansStay(front: string, c: char, spans: seq<Span>, end: int)
    requires AllBalanced(front, spans, end)
    ensures AllBalanced(front + [c], spans, end)
  {
    forall i | 0 <= i < |spans|
      ensures Balanced(front + [c], spans[i])
    {
      StillBalanced(front, c, spans[i]);
    }
  }

  ghost predicate FineSoFar(text: string, spans: seq<Span>, m: Mode) {
    && AllBalanced(text, spans, |text|) && InOrder(spans)
    && (m.depth > 0 ==> AllBalanced(text, spans, m.start))
  }

  lemma FineAfterOneMore(front: string, c: char, spans: seq<Span>, m: Mode)
    requires FineSoFar(front, spans, m) && (m.depth > 0 ==> Open(front, m))
    ensures FineSoFar(front + [c], spans + if Closes(m, c) then [Span(m.start, |front| + 1)] else [], Step(m, |front|, c))
  {
    hide AllBalanced, InOrder, Open;
    assert spans + [] == spans;
    OneMoreSpan(front, c, spans, m);
    OlderSpansStay(front, c, spans, |front|);
    if m.depth > 0 {
      OlderSpansStay(front, c, spans, m.start);
    }
  }

  lemma {:induction false} SpansSoFar(text: string)
    ensures FineSoFar(text, Spans(START, 0, text), Run(START, 0, text))
  {
    if text != [] {
      var front, c := text[..|text| - 1], text[|text| - 1];
      assert front + [c] == text;
      SpansSoFar(front);
      hide *;
      ReadingKeepsOpen(front);
      ReadOneMore(START, 0, front, c);
      FineAfterOneMore(front, c, Spans(START, 0, front), Run(START, 0, front));
    }
  }

  /** Over any text at all the spans are disjoint, in order, and each balanced on its own. */
  lemma SpansAreBalanced(text: string)
    ensures forall i :: 0 <= i < |Spans(START, 0, text)| ==> Balanced(text, Spans(START, 0, text)[i])
    ensures InOrder(Spans(START, 0, text))
  {
    SpansSoFar(text);
  }

  // ---- JSON, sections 2 to 7 of RFC 8259 ----

  type Gap = s: string | forall c :: c in s ==> c in " \t\n\r"
  /** Every number of section 6, and more. */
  type NumberText = s: string | forall c :: c in s ==> '0' <= c <= '9' || c == '+' || c == '-' || c == '.' || c == 'e' || c == 'E'
  type PlainChar = c: char | c != '"' && c != '\\' && c >= ' ' witness 'a'
  type EscapeChar = c: char | c in "\"\\/bfnrt" witness 'n'
  type HexDigit = c: char | '0' <= c <= '9' || 'a' <= c <= 'f' || 'A' <= c <= 'F' witness '0'

  datatype Piece =
    | Plain(plain: PlainChar)
    | Escape(escape: EscapeChar)
    | Unicode(a: HexDigit, b: HexDigit, c: HexDigit, d: HexDigit)

  datatype Json =
    | Null | True | False
    | Number(digits: NumberText)
    | String(pieces: seq<Piece>)
    | Array(elements: Elements)
    | Object(members: Members)

  /** The gap of the end of a list is written only when the list is empty. */
  datatype Elements =
    | NoElements(gap: Gap)
    | Element(before: Gap, value: Json, after: Gap, rest: Elements)

  datatype Members =
    | NoMembers(gap: Gap)
    | Member(before: Gap, name: seq<Piece>, afterName: Gap, beforeValue: Gap, value: Json, after: Gap, rest: Members)

  function PrintPiece(p: Piece): string {
    match p
    case Plain(c) => [c]
    case Escape(c) => ['\\', c]
    case Unicode(a, b, c, d) => ['\\', 'u', a, b, c, d]
  }

  function PrintPieces(pieces: seq<Piece>): string {
    if pieces == [] then [] else PrintPieces(pieces[..|pieces| - 1]) + PrintPiece(pieces[|pieces| - 1])
  }

  function PrintString(pieces: seq<Piece>): string { "\"" + PrintPieces(pieces) + "\"" }

  function Print(v: Json): string {
    match v
    case Null => "null"
    case True => "true"
    case False => "false"
    case Number(digits) => digits
    case String(pieces) => PrintString(pieces)
    case Array(elements) => "[" + (if elements.NoElements? then elements.gap else PrintElements(elements)) + "]"
    case Object(members) => "{" + PrintBody(members) + "}"
  }

  function PrintBody(members: Members): string
    decreases members, 1
  {
    if members.NoMembers? then members.gap else PrintMembers(members)
  }

  function PrintElements(e: Elements): string
    requires e.Element?
  {
    e.before + Print(e.value) + e.after + if e.rest.NoElements? then [] else "," + PrintElements(e.rest)
  }

  function PrintMembers(m: Members): string
    requires m.Member?
    decreases m, 0
  {
    m.before + PrintString(m.name) + m.afterName + ":" + m.beforeValue + Print(m.value) + m.after
    + if m.rest.NoMembers? then [] else "," + PrintMembers(m.rest)
  }

  // ---- text that leaves the scanner as it was ----

  ghost predicate Neutral(m: Mode, text: string) {
    forall at :: Run(m, at, text) == m && Spans(m, at, text) == []
  }

  lemma NeutralBoth(m: Mode, a: string, b: string)
    requires Neutral(m, a) && Neutral(m, b)
    ensures Neutral(m, a + b)
  {
    forall at
      ensures Run(m, at, a + b) == m && Spans(m, at, a + b) == []
    {
      RunInPieces(m, at, a, b);
    }
  }

  /** Outside strings only quotes and braces matter, and a closing brace only at depth. */
  predicate Quiet(m: Mode, c: char) { c != '"' && c != '{' && (c != '}' || m.depth == 0) }

  lemma {:induction false} QuietTextIsNeutral(m: Mode, text: string)
    requires !m.inString && forall c :: c in text ==> Quiet(m, c)
    ensures Neutral(m, text)
  {
    if text != [] {
      var front, last := text[..|text| - 1], text[|text| - 1];
      assert forall c :: c in front ==> c in text;
      assert last in text && front + [last] == text;
      QuietTextIsNeutral(m, front);
      hide Run, Spans;
      forall at
        ensures Run(m, at, text) == m && Spans(m, at, text) == []
      {
        ReadOneMore(m, at, front, last);
      }
    }
  }

  /** Inside a string no piece ends it. */
  lemma PieceIsNeutral(m: Mode, p: Piece)
    requires m.inString && !m.escaped
    ensures Neutral(m, PrintPiece(p))
  {
    match p
    case Plain(c) =>
      TextInStringIsNeutral(m, [c]);
    case Escape(c) =>
      EscapedChar(m, c);
    case Unicode(a, b, c, d) =>
      var digits := [a, b, c, d];
      EscapedChar(m, 'u');
      TextInStringIsNeutral(m, digits);
      NeutralBoth(m, ['\\', 'u'], digits);
      hide Neutral;
      assert PrintPiece(p) == ['\\', 'u'] + digits;
  }

  lemma EscapedChar(m: Mode, c: char)
    requires m.inString && !m.escaped
    ensures Neutral(m, ['\\', c])
  {
    assert ['\\', c] == ['\\'] + [c];
    forall at
      ensures Run(m, at, ['\\', c]) == m && Spans(m, at, ['\\', c]) == []
    {
      ReadOne(m, at, '\\');
      ReadOne(m.(escaped := true), at + 1, c);
      RunInPieces(m, at, ['\\'], [c]);
    }
  }

  lemma {:induction false} TextInStringIsNeutral(m: Mode, text: string)
    requires m.inString && !m.escaped
    requires forall c :: c in text ==> c != '"' && c != '\\'
    ensures Neutral(m, text)
  {
    if text != [] {
      var front, last := text[..|text| - 1], text[|text| - 1];
      assert forall c :: c in front ==> c in text;
      assert last in text;
      TextInStringIsNeutral(m, front);
    }
  }

  lemma {:induction false} PiecesAreNeutral(m: Mode, pieces: seq<Piece>)
    requires m.inString && !m.escaped
    ensures Neutral(m, PrintPieces(pieces))
  {
    if pieces != [] {
      var n := |pieces| - 1;
      PiecesAreNeutral(m, pieces[..n]);
      PieceIsNeutral(m, pieces[n]);
      NeutralBoth(m, PrintPieces(pieces[..n]), PrintPiece(pieces[n]));
    }
  }

  /** A printed string is skipped whole, whatever quotes and braces it escapes or holds. */
  lemma StringIsNeutral(m: Mode, pieces: seq<Piece>)
    requires !m.inString && !m.escaped
    ensures Neutral(m, PrintString(pieces))
  {
    var inside := m.(inString := true);
    PiecesAreNeutral(inside, pieces);
    var body := PrintPieces(pieces);
    forall at
      ensures Run(m, at, PrintString(pieces)) == m && Spans(m, at, PrintString(pieces)) == []
    {
      ReadOne(m, at, '"');
      RunInPieces(m, at, "\"", body);
      RunInPieces(m, at, "\"" + body, "\"");
      ReadOne(inside, at + 1 + |body|, '"');
    }
  }

  // ---- values inside an object ----

  ghost predicate InObject(m: Mode) { !m.inString && !m.escaped && m.depth > 0 }

  lemma GapIsNeutral(m: Mode, gap: Gap)
    requires !m.inString
    ensures Neutral(m, gap)
  {
    QuietTextIsNeutral(m, gap);
  }

  lemma AtomIsNeutral(m: Mode, v: Json)
    requires InObject(m) && (v.Null? || v.True? || v.False? || v.Number?)
    ensures Neutral(m, Print(v))
  {
    QuietTextIsNeutral(m, Print(v));
  }

  lemma {:induction false} ValueIsNeutral(m: Mode, v: Json)
    requires InObject(m)
    ensures Neutral(m, Print(v))
    decreases v
  {
    match v
    case Null | True | False | Number(_) => AtomIsNeutral(m, v);
    case String(pieces) => StringIsNeutral(m, pieces);
    case Array(elements) =>
      var body := if elements.NoElements? then elements.gap else PrintElements(elements);
      if elements.NoElements? {
        GapIsNeutral(m, elements.gap);
      } else {
        ElementsAreNeutral(m, elements);
      }
      BracketedIsNeutral(m, body);
    case Object(members) =>
      hide Neutral;
      BodyIsNeutral(m.(depth := m.depth + 1), members);
      NestedObjectIsNeutral(m, PrintBody(members));
  }

  lemma BracketedIsNeutral(m: Mode, body: string)
    requires InObject(m) && Neutral(m, body)
    ensures Neutral(m, "[" + body + "]")
  {
    QuietTextIsNeutral(m, "[");
    QuietTextIsNeutral(m, "]");
    NeutralBoth(m, "[", body);
    NeutralBoth(m, "[" + body, "]");
  }

  lemma NestedObjectIsNeutral(m: Mode, body: string)
    requires InObject(m) && Neutral(m.(depth := m.depth + 1), body)
    ensures Neutral(m, "{" + body + "}")
  {
    var deeper := m.(depth := m.depth + 1);
    forall at
      ensures Run(m, at, "{" + body + "}") == m && Spans(m, at, "{" + body + "}") == []
    {
      ReadOne(m, at, '{');
      RunInPieces(m, at, "{", body);
      RunInPieces(m, at, "{" + body, "}");
      ReadOne(deeper, at + 1 + |body|, '}');
    }
  }

  lemma {:induction false} ElementsAreNeutral(m: Mode, e: Elements)
    requires InObject(m) && e.Element?
    ensures Neutral(m, PrintElements(e))
    decreases e
  {
    GapIsNeutral(m, e.before);
    ValueIsNeutral(m, e.value);
    GapIsNeutral(m, e.after);
    NeutralBoth(m, e.before, Print(e.value));
    NeutralBoth(m, e.before + Print(e.value), e.after);
    var tail := if e.rest.NoElements? then [] else "," + PrintElements(e.rest);
    if e.rest.Element? {
      ElementsAreNeutral(m, e.rest);
      QuietTextIsNeutral(m, ",");
      NeutralBoth(m, ",", PrintElements(e.rest));
    } else {
      QuietTextIsNeutral(m, []);
    }
    NeutralBoth(m, e.before + Print(e.value) + e.after, tail);
  }

  lemma {:induction false} BodyIsNeutral(m: Mode, members: Members)
    requires InObject(m)
    ensures Neutral(m, PrintBody(members))
    decreases members, 1
  {
    if members.NoMembers? {
      GapIsNeutral(m, members.gap);
    } else {
      MembersAreNeutral(m, members);
    }
  }

  lemma {:induction false} MembersAreNeutral(m: Mode, o: Members)
    requires InObject(m) && o.Member?
    ensures Neutral(m, PrintMembers(o))
    decreases o, 0
  {
    GapIsNeutral(m, o.before);
    StringIsNeutral(m, o.name);
    GapIsNeutral(m, o.afterName);
    QuietTextIsNeutral(m, ":");
    GapIsNeutral(m, o.beforeValue);
    ValueIsNeutral(m, o.value);
    GapIsNeutral(m, o.after);
    var tail := if o.rest.NoMembers? then [] else "," + PrintMembers(o.rest);
    if o.rest.Member? {
      MembersAreNeutral(m, o.rest);
      QuietTextIsNeutral(m, ",");
      NeutralBoth(m, ",", PrintMembers(o.rest));
    } else {
      QuietTextIsNeutral(m, []);
    }
    hide Neutral;
    var name, value := PrintString(o.name), Print(o.value);
    NeutralBoth(m, o.before, name);
    NeutralBoth(m, o.before + name, o.afterName);
    NeutralBoth(m, o.before + name + o.afterName, ":");
    NeutralBoth(m, o.before + name + o.afterName + ":", o.beforeValue);
    NeutralBoth(m, o.before + name + o.afterName + ":" + o.beforeValue, value);
    NeutralBoth(m, o.before + name + o.afterName + ":" + o.beforeValue + value, o.after);
    NeutralBoth(m, o.before + name + o.afterName + ":" + o.beforeValue + value + o.after, tail);
  }

  // ---- print, then scan ----

  /** Between objects, outside strings. */
  ghost predicate Idle(m: Mode) { m.depth == 0 && !m.inString && !m.escaped }

  /** From any idle mode a printed object yields exactly one span, the whole of it. */
  lemma ObjectIsOneSpan(m: Mode, at: nat, members: Members)
    requires Idle(m)
    ensures var text := Print(Object(members));
      && Idle(Run(m, at, text))
      && Spans(m, at, text) == [Span(at, at + |text|)]
  {
    hide Run, Spans, Neutral, PrintBody;
    BodyIsNeutral(Mode(1, at, false, false), members);
    BracedIsOneSpan(m, at, PrintBody(members));
  }

  lemma BracedIsOneSpan(m: Mode, at: nat, body: string)
    requires Idle(m) && Neutral(Mode(1, at, false, false), body)
    ensures Idle(Run(m, at, "{" + body + "}"))
    ensures Spans(m, at, "{" + body + "}") == [Span(at, at + |body| + 2)]
  {
    hide Run, Spans;
    var inside := Mode(1, at, false, false);
    ReadOne(m, at, '{');
    ReadOne(inside, at + 1 + |body|, '}');
    RunInPieces(m, at, "{", body);
    RunInPieces(m, at, "{" + body, "}");
  }

  predicate NoQuoteOrOpening(text: string) { '"' !in text && '{' !in text }

  /** After any text without quotes or opening braces, and before any text at
      all, the first span is exactly the printed object. */
  lemma FirstSpanIsTheObject(prefix: string, members: Members, suffix: string)
    requires NoQuoteOrOpening(prefix)
    ensures var printed := Print(Object(members));
      var text := prefix + printed + suffix;
      var spans := Spans(START, 0, text);
      && spans != []
      && spans[0] == Span(|prefix|, |prefix| + |printed|)
      && Cut(text, spans[0]) == printed
  {
    var printed := Print(Object(members));
    hide Run, Spans, Print;
    ProseIsSkipped(START, 0, prefix);
    ObjectIsOneSpan(START, |prefix|, members);
    RunInPieces(START, 0, prefix, printed);
    RunInPieces(START, 0, prefix + printed, suffix);
    assert Cut(prefix + printed + suffix, Span(|prefix|, |prefix| + |printed|)) == printed;
  }

  // ---- a whole answer ----

  /** Prose and objects alternating. */
  datatype Answer = Prose(text: string) | Then(answer: Answer, members: Members, prose: string)

  predicate WellMarked(a: Answer) {
    match a
    case Prose(text) => NoQuoteOrOpening(text)
    case Then(before, _, prose) => WellMarked(before) && NoQuoteOrOpening(prose)
  }

  function PrintAnswer(a: Answer): string {
    match a
    case Prose(text) => text
    case Then(before, members, prose) => PrintAnswer(before) + Print(Object(members)) + prose
  }

  function ObjectsOf(a: Answer): seq<string> {
    match a
    case Prose(_) => []
    case Then(before, members, _) => ObjectsOf(before) + [Print(Object(members))]
  }

  /** The spans of `text` cut out exactly `objects`. */
  ghost predicate CutsOut(text: string, spans: seq<Span>, objects: seq<string>) {
    && |spans| == |objects|
    && forall i :: 0 <= i < |spans| ==> 0 <= spans[i].from <= spans[i].to <= |text| && Cut(text, spans[i]) == objects[i]
  }

  lemma OneMore(head: string, printed: string, prose: string, spans: seq<Span>, objects: seq<string>)
    requires CutsOut(head, spans, objects)
    ensures CutsOut(head + printed + prose, spans + [Span(|head|, |head| + |printed|)], objects + [printed])
  {
    var text := head + printed + prose;
    forall i | 0 <= i < |spans|
      ensures Cut(text, spans[i]) == Cut(head, spans[i])
    {
    }
    assert Cut(text, Span(|head|, |head| + |printed|)) == printed;
  }

  lemma ProseIsSkipped(m: Mode, at: int, prose: string)
    requires Idle(m) && NoQuoteOrOpening(prose)
    ensures Run(m, at, prose) == m && Spans(m, at, prose) == []
  {
    assert forall c :: c in prose ==> Quiet(m, c);
    QuietTextIsNeutral(m, prose);
  }

  lemma ReadOnePart(head: string, members: Members, prose: string)
    requires Idle(Run(START, 0, head)) && NoQuoteOrOpening(prose)
    ensures var printed := Print(Object(members));
      && Idle(Run(START, 0, head + printed + prose))
      && Spans(START, 0, head + printed + prose) == Spans(START, 0, head) + [Span(|head|, |head| + |printed|)]
  {
    var printed := Print(Object(members));
    hide *;
    var m := Run(START, 0, head);
    ObjectIsOneSpan(m, |head|, members);
    ProseIsSkipped(Run(m, |head|, printed), |head + printed|, prose);
    RunInPieces(START, 0, head, printed);
    RunInPieces(START, 0, head + printed, prose);
  }

  /** The scanner finds every object of an answer, in order, and nothing else. */
  lemma {:induction false} AnswerIsItsObjects(a: Answer)
    requires WellMarked(a)
    ensures Idle(Run(START, 0, PrintAnswer(a)))
    ensures CutsOut(PrintAnswer(a), Spans(START, 0, PrintAnswer(a)), ObjectsOf(a))
  {
    match a
    case Prose(text) =>
      assert forall c :: c in text ==> Quiet(START, c);
      QuietTextIsNeutral(START, text);
    case Then(before, members, prose) =>
      hide Run, Spans, Print, CutsOut, Idle;
      AnswerIsItsObjects(before);
      ReadOnePart(PrintAnswer(before), members, prose);
      OneMore(PrintAnswer(before), Print(Object(members)), prose, Spans(START, 0, PrintAnswer(before)), ObjectsOf(before));
  }
}
