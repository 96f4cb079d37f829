/** The text sink every writer appends to. Its implementation is not part of
    this model; what the writers rely on is captured as a token log: an
    indentation mark at the current depth, a written text fragment, or the
    line ending `writeLine` adds. The exact whitespace of one indentation
    level is left abstract. */
module StringStream {

  datatype Token = Indent(level: nat) | Text(s: string) | LineBreak

  predicate NoBreak(s: string)
  {
    '\n' !in s
  }

  /** Line endings a token contributes: a `writeLine` ending, or each line
      feed inside written text. */
  function Breaks(t: Token): nat
  {
    match t
    case Indent(_) => 0
    case Text(s) => multiset(s)['\n']
    case LineBreak => 1
  }

  function LineCount(ts: seq<Token>): nat
    decreases |ts|
  {
    if ts == [] then 0 else LineCount(ts[..|ts| - 1]) + Breaks(ts[|ts| - 1])
  }

  lemma {:induction false} LineCountAppend(a: seq<Token>, b: seq<Token>)
    ensures LineCount(a + b) == LineCount(a) + LineCount(b)
    decreases |b|
  {
    if b == [] {
      assert a + b == a;
    } else {
      var init := b[..|b| - 1];
      LineCountAppend(a, init);
      assert (a + b)[..|a + b| - 1] == a + init;
      assert (a + b)[|a + b| - 1] == b[|b| - 1];
    }
  }

  lemma LineCountAppend4(a: seq<Token>, b: seq<Token>, c: seq<Token>, e: seq<Token>)
    ensures LineCount(a + b + c + e) == LineCount(a) + LineCount(b) + LineCount(c) + LineCount(e)
  {
    LineCountAppend(a, b);
    LineCountAppend(a + b, c);
    LineCountAppend(a + b + c, e);
  }

  lemma LineCountAppend5(a: seq<Token>, b: seq<Token>, c: seq<Token>, e: seq<Token>, f: seq<Token>)
    ensures LineCount(a + b + c + e + f) == LineCount(a) + LineCount(b) + LineCount(c) + LineCount(e) + LineCount(f)
  {
    LineCountAppend(a, b);
    LineCountAppend(a + b, c);
    LineCountAppend(a + b + c, e);
    LineCountAppend(a + b + c + e, f);
  }

  lemma LineCountAppend5x5(a1: seq<Token>, a2: seq<Token>, a3: seq<Token>, a4: seq<Token>, a5: seq<Token>,
                           a6: seq<Token>, a7: seq<Token>, a8: seq<Token>, a9: seq<Token>, a10: seq<Token>)
    ensures LineCount(a1 + a2 + a3 + a4 + a5 + a6 + a7 + a8 + a9 + a10)
         == LineCount(a1 + a2 + a3 + a4 + a5) + LineCount(a6 + a7 + a8 + a9 + a10)
  {
    var x := a1 + a2 + a3 + a4 + a5;
    assert x + a6 + a7 + a8 + a9 + a10 == x + (a6 + a7 + a8 + a9 + a10);
    LineCountAppend(x, a6 + a7 + a8 + a9 + a10);
  }

  lemma LineCountAppend4x2(a1: seq<Token>, a2: seq<Token>, a3: seq<Token>, a4: seq<Token>,
                           a5: seq<Token>, a6: seq<Token>)
    ensures LineCount(a1 + a2 + a3 + a4 + a5 + a6)
         == LineCount(a1 + a2 + a3 + a4) + LineCount(a5) + LineCount(a6)
  {
    LineCountAppend(a1 + a2 + a3 + a4, a5);
    LineCountAppend(a1 + a2 + a3 + a4 + a5, a6);
  }

  /** The written text of a token log, without indentation and `writeLine`
      endings. */
  function Written(ts: seq<Token>): string
    decreases |ts|
  {
    if ts == [] then ""
    else Written(ts[..|ts| - 1]) + (if ts[|ts| - 1].Text? then ts[|ts| - 1].s else "")
  }

  lemma {:induction false} WrittenAppend(a: seq<Token>, b: seq<Token>)
    ensures Written(a + b) == Written(a) + Written(b)
    decreases |b|
  {
    if b == [] {
      assert a + b == a;
    } else {
      var init := b[..|b| - 1];
      WrittenAppend(a, init);
      assert (a + b)[..|a + b| - 1] == a + init;
      assert (a + b)[|a + b| - 1] == b[|b| - 1];
    }
  }

  predicate EndsLine(t: Token)
  {
    t == LineBreak || (t.Text? && |t.s| > 0 && t.s[|t.s| - 1] == '\n')
  }

  /** Exactly one line at depth d: it starts with the indentation mark, holds
      no further indentation, ends with a line ending and has no other one. */
  predicate OneLine(ts: seq<Token>, d: nat)
  {
    && |ts| >= 2
    && ts[0] == Indent(d)
    && (forall i :: 1 <= i < |ts| ==> !ts[i].Indent?)
    && LineCount(ts) == 1
    && EndsLine(ts[|ts| - 1])
  }

  /** Every indentation mark in ts is at depth d. */
  predicate IndentsAt(ts: seq<Token>, d: nat)
  {
    forall i :: 0 <= i < |ts| && ts[i].Indent? ==> ts[i].level == d
  }

  /** Every indentation mark in ts is at depth d or deeper. */
  predicate IndentsFrom(ts: seq<Token>, d: nat)
  {
    forall i :: 0 <= i < |ts| && ts[i].Indent? ==> ts[i].level >= d
  }

  /** What `writeIndentation().writeLine(text)` appends at depth d. */
  function Line(d: nat, text: string): seq<Token>
  {
    [Indent(d), Text(text), LineBreak]
  }

  lemma LineCountSingle(t: Token)
    ensures LineCount([t]) == Breaks(t)
    ensures Written([t]) == if t.Text? then t.s else ""
  {
    assert [t][..0] == [];
  }

  lemma LineIsOneLine(d: nat, text: string)
    requires NoBreak(text)
    ensures OneLine(Line(d, text), d)
    ensures Written(Line(d, text)) == text
  {
    assert OneLine(Line(d, text), d) by {
      assert PlainTexts([Text(text)]);
      LineCountSingle(LineBreak);
      OneLineOf(d, [Text(text)], LineBreak);
      assert [Indent(d)] + [Text(text)] + [LineBreak] == Line(d, text);
    }
    assert Written(Line(d, text)) == text by {
      WrittenOpening(d, text);
      LineCountSingle(LineBreak);
      WrittenAppend([Indent(d), Text(text)], [LineBreak]);
      assert [Indent(d), Text(text)] + [LineBreak] == Line(d, text);
    }
  }

  lemma WrittenOpening(d: nat, s: string)
    ensures Written([Indent(d), Text(s)]) == s
  {
    assert [Indent(d), Text(s)][..1] == [Indent(d)];
    assert [Indent(d)][..0] == [];
    assert Written([Indent(d)]) == "";
  }

  lemma WrittenLineEnd(s: string)
    ensures Written([Text(s), LineBreak]) == s
  {
    assert [Text(s), LineBreak][..1] == [Text(s)];
    assert [Text(s)][..0] == [];
    assert Written([Text(s)]) == s;
  }

  lemma WrittenParts(a: Token, b: Token, c: Token, e: Token)
    requires a.Indent? && b.Text? && c.Text? && e.Text?
    ensures Written([a, b, c, e]) == b.s + c.s + e.s
  {
    var l := [a, b, c, e];
    assert l[..3] == [a, b, c] && [a, b, c][..2] == [a, b] && [a, b][..1] == [a] && [a][..0] == [];
    assert Written([a]) == "";
    assert Written([a, b]) == b.s;
    assert Written([a, b, c]) == b.s + c.s;
  }

  // Regrouping a concatenation. Called by name where a proof switches between
  // "old log + header + body" and "old log + (header + body)", so the solver
  // is handed the regrouping instead of searching for it.

  lemma AppendAssoc(a: seq<Token>, b: seq<Token>, c: seq<Token>)
    ensures a + b + c == a + (b + c)
  {
  }

  lemma AppendAssoc4(a: seq<Token>, b: seq<Token>, c: seq<Token>, e: seq<Token>)
    ensures a + b + c + e == a + (b + c + e)
  {
  }

  lemma AppendAssoc5(a: seq<Token>, b: seq<Token>, c: seq<Token>, e: seq<Token>, f: seq<Token>)
    ensures a + b + c + e + f == a + (b + c + e + f)
  {
  }

  lemma IndentsAppend(a: seq<Token>, b: seq<Token>, d: nat)
    ensures IndentsAt(a, d) && IndentsAt(b, d) ==> IndentsAt(a + b, d)
    ensures IndentsFrom(a, d) && IndentsFrom(b, d) ==> IndentsFrom(a + b, d)
  {
  }

  lemma IndentsAppend5(a: seq<Token>, b: seq<Token>, c: seq<Token>, e: seq<Token>, f: seq<Token>, d: nat)
    requires IndentsAt(a, d) && IndentsAt(b, d) && IndentsAt(c, d) && IndentsAt(e, d) && IndentsAt(f, d)
    ensures IndentsAt(a + b + c + e + f, d)
  {
    IndentsAppend(a, b, d);
    IndentsAppend(a + b, c, d);
    IndentsAppend(a + b + c, e, d);
    IndentsAppend(a + b + c + e, f, d);
  }

  /** Text tokens none of which breaks a line. */
  predicate PlainTexts(ts: seq<Token>)
  {
    forall i :: 0 <= i < |ts| ==> ts[i].Text? && NoBreak(ts[i].s)
  }

  lemma NoBreakCount(s: string)
    requires NoBreak(s)
    ensures multiset(s)['\n'] == 0
  {
    assert '\n' !in multiset(s);
  }

  lemma BreakAtEnd(x: string)
    requires NoBreak(x)
    ensures Breaks(Text(x + "\n")) == 1 && EndsLine(Text(x + "\n"))
  {
    NoBreakCount(x);
    assert multiset(x + "\n") == multiset(x) + multiset{'\n'};
  }

  lemma {:induction false} PlainTextsCount(ts: seq<Token>)
    requires PlainTexts(ts)
    ensures LineCount(ts) == 0
    decreases |ts|
  {
    if ts != [] {
      PlainTextsCount(ts[..|ts| - 1]);
      NoBreakCount(ts[|ts| - 1].s);
    }
  }

  lemma FramedCount(d: nat, ts: seq<Token>, last: Token)
    requires PlainTexts(ts)
    ensures LineCount([Indent(d)] + ts + [last]) == Breaks(last)
  {
    PlainTextsCount(ts);
    LineCountSingle(Indent(d));
    LineCountSingle(last);
    LineCountAppend([Indent(d)], ts);
    LineCountAppend([Indent(d)] + ts, [last]);
  }

  /** An indentation mark, break-free text and one final line ending make
      exactly one line. */
  lemma OneLineOf(d: nat, ts: seq<Token>, last: Token)
    requires PlainTexts(ts)
    requires EndsLine(last) && Breaks(last) == 1
    ensures OneLine([Indent(d)] + ts + [last], d)
  {
    var l := [Indent(d)] + ts + [last];
    FramedCount(d, ts, last);
    assert forall i :: 1 <= i < |l| ==> l[i] == if i <= |ts| then ts[i - 1] else last;
  }

  /** An indentation mark, two break-free fragments and a third one closed
      by a line feed make exactly one line. */
  lemma FragmentsLine(d: nat, a: string, b: string, x: string)
    requires NoBreak(a) && NoBreak(b) && NoBreak(x)
    ensures OneLine([Indent(d), Text(a), Text(b), Text(x + "\n")], d)
  {
    var mid := [Text(a), Text(b)];
    assert PlainTexts(mid);
    BreakAtEnd(x);
    OneLineOf(d, mid, Text(x + "\n"));
    assert [Indent(d)] + mid + [Text(x + "\n")] == [Indent(d), Text(a), Text(b), Text(x + "\n")];
  }

  class Sink {
    var out: seq<Token>
    var depth: nat

    constructor ()
      ensures out == [] && depth == 0
    {
      out := [];
      depth := 0;
    }

    method WriteIndentation()
      modifies this
      ensures out == old(out) + [Indent(old(depth))] && depth == old(depth)
    {
      out := out + [Indent(depth)];
    }

    method WriteString(s: string)
      modifies this
      ensures out == old(out) + [Text(s)] && depth == old(depth)
    {
      out := out + [Text(s)];
    }

    method WriteLine(s: string)
      modifies this
      ensures out == old(out) + [Text(s), LineBreak] && depth == old(depth)
    {
      out := out + [Text(s), LineBreak];
    }

    method PushIndent()
      modifies this
      ensures out == old(out) && depth == old(depth) + 1
    {
      depth := depth + 1;
    }

    /** A pop without a matching push is a caller error the sink does not
        handle. */
    method PopIndent()
      requires depth > 0
      modifies this
      ensures out == old(out) && depth == old(depth) - 1
    {
      depth := depth - 1;
    }
  }
}
