/** The properties every frame shares and the writers that emit them: each
    writer appends nothing when its value is absent and one line at the
    current depth when it is present; the common data and the font data are
    written in a fixed order. */
module FrameBase {
  import opened StringStream
  import opened FrameTypes
  import opened Format
  import opened SetPoints

  // ---------------------------------------------------------------------
  // Construction

  /** A frame's shared properties after construction: the given name, every
      supplied argument, and the defaults (no flags, no children, no anchors)
      for the rest. */
  function NewProps(name: string, args: FrameArgs): (p: Props)
    ensures p.Name == name
    ensures p.Width == args.Width && p.Height == args.Height
    ensures p.InheritsFrom == args.InheritsFrom
    ensures p.InheritsWithChildren <==> args.InheritsWithChildren == Some(true)
    ensures p.SetAllPoints <==> args.SetAllPoints == Some(true)
    ensures p.DecorateFileNames <==> args.DecorateFileNames == Some(true)
    ensures args.Children.Some? ==> p.Children == args.Children.value
    ensures args.Children.None? ==> p.Children == []
    ensures args.Points.Some? ==> p.Points == args.Points.value
    ensures args.Points.None? ==> p.Points == []
    ensures p.FrameFont == args.FrameFont
    ensures p.FontJustificationH == args.FontJustificationH && p.FontJustificationV == args.FontJustificationV
    ensures p.FontJustificationOffset == args.FontJustificationOffset && p.FontFlags == args.FontFlags
    ensures p.FontColor == args.FontColor && p.FontHighlightColor == args.FontHighlightColor
    ensures p.FontDisabledColor == args.FontDisabledColor && p.FontShadowColor == args.FontShadowColor
    ensures p.FontShadowOffset == args.FontShadowOffset
  {
    Props(
      name, args.Width, args.Height, args.InheritsFrom,
      args.InheritsWithChildren.GetOr(false), args.SetAllPoints.GetOr(false),
      args.DecorateFileNames.GetOr(false), args.Children.GetOr([]), args.Points.GetOr([]),
      args.FrameFont, args.FontJustificationH, args.FontJustificationV,
      args.FontJustificationOffset, args.FontFlags, args.FontColor, args.FontHighlightColor,
      args.FontDisabledColor, args.FontShadowColor, args.FontShadowOffset)
  }

  /** The frame with c appended after its existing children; nothing else
      changes. */
  function AddChild(f: Frame, c: Frame): (g: Frame)
    ensures g.props.Children == f.props.Children + [c]
    ensures g.props == f.props.(Children := g.props.Children)
    ensures g.LayerFrame? == f.LayerFrame?
    ensures g.LayerFrame? ==> g.Type == f.Type
    ensures g.StringFrame? ==> g.Font == f.Font
  {
    f.(props := f.props.(Children := f.props.Children + [c]))
  }

  // ---------------------------------------------------------------------
  // Single-property writers

  function OptNum(o: Option<int>): Option<Scalar>
  {
    match o
    case None => None
    case Some(n) => Some(Num(n))
  }

  function OptStr(o: Option<string>): Option<Scalar>
  {
    match o
    case None => None
    case Some(s) => Some(Str(s))
  }

  /** A value as `writeGeneric` writes it: a string in quotes unless bare
      output is asked for, a number always bare. */
  function ValueText(v: Scalar, noQuote: bool): string
  {
    match v
    case Str(s) => if noQuote then s else Quote(s)
    case Num(n) => IntToString(n)
  }

  function GenericTokens(v: Option<Scalar>, header: string, noQuote: bool, d: nat): seq<Token>
  {
    match v
    case None => []
    case Some(x) => Line(d, header + " " + ValueText(x, noQuote) + ",")
  }

  /** A color or a vector: its canonical text, unquoted. */
  function OpaqueTokens(v: Option<string>, header: string, d: nat): seq<Token>
  {
    match v
    case None => []
    case Some(t) => Line(d, header + " " + t + ",")
  }

  /** A frame reference: its resolved name, quoted. */
  function FrameRefTokens(r: Option<Ref>, header: string, d: nat): seq<Token>
  {
    match r
    case None => []
    case Some(x) => Line(d, header + " " + Quote(Resolve(x)) + ",")
  }

  /** The members of a set as written one by one, a `|` before every member
      but the first. */
  function EntryTokens(ms: seq<string>): seq<Token>
    decreases |ms|
  {
    if |ms| == 0 then []
    else EntryTokens(ms[..|ms| - 1]) + (if |ms| > 1 then [Text("|")] else []) + [Text(ms[|ms| - 1])]
  }

  function SetTokens(ms: seq<string>, header: string, d: nat): seq<Token>
  {
    if |ms| == 0 then []
    else [Indent(d), Text(header + " \"")] + EntryTokens(ms) + [Text("\",\n")]
  }

  /** The inheritance clause of a header, as written fragments. */
  function InheritsTokens(p: Props): seq<Token>
  {
    match p.InheritsFrom
    case None => []
    case Some(r) =>
      [Text(" INHERITS")] + (if p.InheritsWithChildren then [Text(" WITHCHILDREN")] else [])
      + [Text(" " + Quote(Resolve(r)))]
  }

  /** A header line: its opening words, the inheritance clause, ` {`. */
  function HeaderTokens(opening: string, p: Props, d: nat): seq<Token>
  {
    [Indent(d), Text(opening)] + InheritsTokens(p) + [Text(" {"), LineBreak]
  }

  function BaseHeaderTokens(p: Props, frameType: string, d: nat): seq<Token>
  {
    HeaderTokens("Frame " + Quote(frameType) + " " + Quote(p.Name), p, d)
  }

  /** A foreign font description, as the indented lines it writes. */
  function BlockTokens(b: Block, d: nat): seq<Token>
    decreases |b|
  {
    if |b| == 0 then [] else BlockTokens(b[..|b| - 1], d) + Line(d, b[|b| - 1])
  }

  function OptBlockTokens(o: Option<Block>, d: nat): seq<Token>
  {
    match o
    case None => []
    case Some(b) => BlockTokens(b, d)
  }

  function PointsTokens(ps: seq<SetPoint>, d: nat): seq<Token>
    decreases |ps|
  {
    if |ps| == 0 then [] else PointsTokens(ps[..|ps| - 1], d) + SetPointTokens(ps[|ps| - 1], d)
  }

  // ---------------------------------------------------------------------
  // Blocks of properties, in their fixed order

  /** A flag is written only when it is true. */
  function FlagTokens(flag: bool, text: string, d: nat): seq<Token>
  {
    if flag then Line(d, text) else []
  }

  function FontTokens(p: Props, d: nat): seq<Token>
  {
    OpaqueTokens(p.FontColor, "FontColor", d)
    + OpaqueTokens(p.FontHighlightColor, "FontHighlightColor", d)
    + OpaqueTokens(p.FontDisabledColor, "FontDisabledColor", d)
    + OpaqueTokens(p.FontShadowColor, "FontShadowColor", d)
    + OpaqueTokens(p.FontShadowOffset, "FontShadowOffset", d)
    + OptBlockTokens(p.FrameFont, d)
    + OpaqueTokens(p.FontJustificationOffset, "FontJustificationOffset", d)
    + GenericTokens(OptStr(p.FontJustificationH), "FontJustificationH", true, d)
    + GenericTokens(OptStr(p.FontJustificationV), "FontJustificationV", true, d)
    + GenericTokens(OptStr(p.FontFlags), "FontFlags", false, d)
  }

  function CommonTokens(p: Props, d: nat): seq<Token>
  {
    FlagTokens(p.DecorateFileNames, "DecorateFileNames,", d)
    + FlagTokens(p.SetAllPoints, "SetAllPoints,", d)
    + GenericTokens(OptNum(p.Width), "Width", false, d)
    + GenericTokens(OptNum(p.Height), "Height", false, d)
    + PointsTokens(p.Points, d)
    + FontTokens(p, d)
  }

  // ---------------------------------------------------------------------
  // The writers against the sink

  method WriteGeneric(str: Sink, v: Option<Scalar>, header: string, noQuote: bool)
    modifies str
    ensures str.out == old(str.out) + GenericTokens(v, header, noQuote, old(str.depth))
    ensures str.depth == old(str.depth)
  {
    if v.Some? {
      str.WriteIndentation();
      if !noQuote && v.value.Str? {
        str.WriteLine(header + " " + Quote(v.value.s) + ",");
      } else {
        str.WriteLine(header + " " + ValueText(v.value, true) + ",");
      }
    }
  }

  method WriteColor(str: Sink, color: Option<string>, header: string)
    modifies str
    ensures str.out == old(str.out) + OpaqueTokens(color, header, old(str.depth))
    ensures str.depth == old(str.depth)
  {
    if color.Some? {
      str.WriteIndentation();
      str.WriteLine(header + " " + color.value + ",");
    }
  }

  method WriteVector(str: Sink, vec: Option<string>, header: string)
    modifies str
    ensures str.out == old(str.out) + OpaqueTokens(vec, header, old(str.depth))
    ensures str.depth == old(str.depth)
  {
    if vec.Some? {
      str.WriteIndentation();
      str.WriteLine(header + " " + vec.value + ",");
    }
  }

  method WriteFrame(str: Sink, frame: Option<Ref>, header: string)
    modifies str
    ensures str.out == old(str.out) + FrameRefTokens(frame, header, old(str.depth))
    ensures str.depth == old(str.depth)
  {
    if frame.Some? {
      var name := match frame.value case ByName(n) => n case ByFrame(t) => t.Name;
      str.WriteIndentation();
      str.WriteLine(header + " " + Quote(name) + ",");
    }
  }

  method WriteSet(str: Sink, members: seq<string>, header: string)
    modifies str
    ensures str.out == old(str.out) + SetTokens(members, header, old(str.depth))
    ensures str.depth == old(str.depth)
  {
    if |members| > 0 {
      str.WriteIndentation();
      str.WriteString(header + " \"");
      ghost var start := str.out;
      var first := true;
      for i := 0 to |members|
        invariant str.out == start + EntryTokens(members[..i])
        invariant first <==> i == 0
        invariant str.depth == old(str.depth)
      {
        if !first {
          str.WriteString("|");
        }
        str.WriteString(members[i]);
        first := false;
        assert members[..i + 1][..i] == members[..i];
      }
      assert members[..|members|] == members;
      str.WriteString("\",\n");
    }
  }

  method WriteInheritsFrom(str: Sink, p: Props)
    modifies str
    ensures str.out == old(str.out) + InheritsTokens(p)
    ensures str.depth == old(str.depth)
  {
    if p.InheritsFrom.Some? {
      str.WriteString(" INHERITS");
      if p.InheritsWithChildren {
        str.WriteString(" WITHCHILDREN");
      }
      str.WriteString(" " + Quote(Resolve(p.InheritsFrom.value)));
    }
  }

  method WriteBaseHeader(str: Sink, p: Props, frameType: string)
    modifies str
    ensures str.out == old(str.out) + BaseHeaderTokens(p, frameType, old(str.depth))
    ensures str.depth == old(str.depth)
  {
    str.WriteIndentation();
    str.WriteString("Frame " + Quote(frameType) + " " + Quote(p.Name));
    WriteInheritsFrom(str, p);
    str.WriteLine(" {");
  }

  /** Stands for a font object's own `compileToStringStream`. */
  method WriteBlock(str: Sink, b: Block)
    modifies str
    ensures str.out == old(str.out) + BlockTokens(b, old(str.depth))
    ensures str.depth == old(str.depth)
  {
    ghost var start := str.out;
    for i := 0 to |b|
      invariant str.out == start + BlockTokens(b[..i], str.depth)
      invariant str.depth == old(str.depth)
    {
      str.WriteIndentation();
      str.WriteLine(b[i]);
      assert b[..i + 1][..i] == b[..i];
    }
    assert b[..|b|] == b;
  }

  /** `if (flag) str.writeIndentation().writeLine(text)` */
  method WriteFlag(str: Sink, flag: bool, text: string)
    modifies str
    ensures str.out == old(str.out) + FlagTokens(flag, text, old(str.depth))
    ensures str.depth == old(str.depth)
  {
    if flag {
      str.WriteIndentation();
      str.WriteLine(text);
    }
  }

  /** Writes a font object when one is set. */
  method WriteOptBlock(str: Sink, font: Option<Block>)
    modifies str
    ensures str.out == old(str.out) + OptBlockTokens(font, old(str.depth))
    ensures str.depth == old(str.depth)
  {
    if font.Some? {
      WriteBlock(str, font.value);
    }
  }

  /** Every anchor, in list order. */
  method WritePoints(str: Sink, points: seq<SetPoint>)
    modifies str
    ensures str.out == old(str.out) + PointsTokens(points, old(str.depth))
    ensures str.depth == old(str.depth)
  {
    ghost var start := str.out;
    for i := 0 to |points|
      invariant str.out == start + PointsTokens(points[..i], str.depth)
      invariant str.depth == old(str.depth)
    {
      WriteSetPoint(str, points[i]);
      assert points[..i + 1][..i] == points[..i];
    }
    assert points[..|points|] == points;
  }

  method WriteFontData(str: Sink, p: Props)
    modifies str
    ensures str.out == old(str.out) + FontTokens(p, old(str.depth))
    ensures str.depth == old(str.depth)
  {
    ghost var o, d := str.out, str.depth;
    WriteColor(str, p.FontColor, "FontColor");
    ghost var w := OpaqueTokens(p.FontColor, "FontColor", d);
    WriteColor(str, p.FontHighlightColor, "FontHighlightColor");
    AppendAssoc(o, w, OpaqueTokens(p.FontHighlightColor, "FontHighlightColor", d));
    w := w + OpaqueTokens(p.FontHighlightColor, "FontHighlightColor", d);
    WriteColor(str, p.FontDisabledColor, "FontDisabledColor");
    AppendAssoc(o, w, OpaqueTokens(p.FontDisabledColor, "FontDisabledColor", d));
    w := w + OpaqueTokens(p.FontDisabledColor, "FontDisabledColor", d);
    WriteColor(str, p.FontShadowColor, "FontShadowColor");
    AppendAssoc(o, w, OpaqueTokens(p.FontShadowColor, "FontShadowColor", d));
    w := w + OpaqueTokens(p.FontShadowColor, "FontShadowColor", d);
    WriteVector(str, p.FontShadowOffset, "FontShadowOffset");
    AppendAssoc(o, w, OpaqueTokens(p.FontShadowOffset, "FontShadowOffset", d));
    w := w + OpaqueTokens(p.FontShadowOffset, "FontShadowOffset", d);
    WriteOptBlock(str, p.FrameFont);
    AppendAssoc(o, w, OptBlockTokens(p.FrameFont, d));
    w := w + OptBlockTokens(p.FrameFont, d);
    WriteVector(str, p.FontJustificationOffset, "FontJustificationOffset");
    AppendAssoc(o, w, OpaqueTokens(p.FontJustificationOffset, "FontJustificationOffset", d));
    w := w + OpaqueTokens(p.FontJustificationOffset, "FontJustificationOffset", d);
    WriteGeneric(str, OptStr(p.FontJustificationH), "FontJustificationH", true);
    AppendAssoc(o, w, GenericTokens(OptStr(p.FontJustificationH), "FontJustificationH", true, d));
    w := w + GenericTokens(OptStr(p.FontJustificationH), "FontJustificationH", true, d);
    WriteGeneric(str, OptStr(p.FontJustificationV), "FontJustificationV", true);
    AppendAssoc(o, w, GenericTokens(OptStr(p.FontJustificationV), "FontJustificationV", true, d));
    w := w + GenericTokens(OptStr(p.FontJustificationV), "FontJustificationV", true, d);
    WriteGeneric(str, OptStr(p.FontFlags), "FontFlags", false);
    AppendAssoc(o, w, GenericTokens(OptStr(p.FontFlags), "FontFlags", false, d));
  }

  method WriteCommonData(str: Sink, p: Props)
    modifies str
    ensures str.out == old(str.out) + CommonTokens(p, old(str.depth))
    ensures str.depth == old(str.depth)
  {
    ghost var o, d := str.out, str.depth;
    WriteFlag(str, p.DecorateFileNames, "DecorateFileNames,");
    ghost var w := FlagTokens(p.DecorateFileNames, "DecorateFileNames,", d);
    WriteFlag(str, p.SetAllPoints, "SetAllPoints,");
    AppendAssoc(o, w, FlagTokens(p.SetAllPoints, "SetAllPoints,", d));
    w := w + FlagTokens(p.SetAllPoints, "SetAllPoints,", d);
    WriteGeneric(str, OptNum(p.Width), "Width", false);
    AppendAssoc(o, w, GenericTokens(OptNum(p.Width), "Width", false, d));
    w := w + GenericTokens(OptNum(p.Width), "Width", false, d);
    WriteGeneric(str, OptNum(p.Height), "Height", false);
    AppendAssoc(o, w, GenericTokens(OptNum(p.Height), "Height", false, d));
    w := w + GenericTokens(OptNum(p.Height), "Height", false, d);
    WritePoints(str, p.Points);
    AppendAssoc(o, w, PointsTokens(p.Points, d));
    w := w + PointsTokens(p.Points, d);
    WriteFontData(str, p);
    AppendAssoc(o, w, FontTokens(p, d));
  }

  // ---------------------------------------------------------------------
  // What the writers promise

  function Present<T>(o: Option<T>): nat
  {
    if o.Some? then 1 else 0
  }

  predicate CleanOpt(o: Option<string>)
  {
    o.Some? ==> NoBreak(o.value)
  }

  predicate CleanRef(o: Option<Ref>)
  {
    o.Some? ==> NoBreak(Resolve(o.value))
  }

  predicate CleanBlock(o: Option<Block>)
  {
    o.Some? ==> forall i :: 0 <= i < |o.value| ==> NoBreak(o.value[i])
  }

  /** No property value of p holds a line break. */
  predicate CleanProps(p: Props)
  {
    && CleanRef(p.InheritsFrom)
    && (forall i :: 0 <= i < |p.Points| ==> CleanPoint(p.Points[i]))
    && CleanBlock(p.FrameFont)
    && CleanOpt(p.FontJustificationH) && CleanOpt(p.FontJustificationV)
    && CleanOpt(p.FontJustificationOffset) && CleanOpt(p.FontFlags)
    && CleanOpt(p.FontColor) && CleanOpt(p.FontHighlightColor)
    && CleanOpt(p.FontDisabledColor) && CleanOpt(p.FontShadowColor)
    && CleanOpt(p.FontShadowOffset)
  }

  /** Strings are quoted unless bare output is asked for; numbers are never
      quoted. */
  lemma ValueQuoting(v: Scalar, noQuote: bool)
    ensures v.Str? && !noQuote ==> ValueText(v, noQuote) == Quote(v.s)
    ensures v.Str? && noQuote ==> ValueText(v, noQuote) == v.s
    ensures v.Num? ==> ValueText(v, noQuote) == IntToString(v.n)
    ensures v.Num? ==> '"' !in ValueText(v, noQuote) && NoBreak(ValueText(v, noQuote))
  {
    if v.Num? {
      IntToStringPlain(v.n);
    }
  }

  /** `writeGeneric` writes nothing for an absent value and exactly one line
      `<header> <value>,` for a present one, whatever the value (0 and the
      empty string included). */
  lemma GenericLine(v: Option<Scalar>, header: string, noQuote: bool, d: nat)
    ensures GenericTokens(v, header, noQuote, d) == [] <==> v.None?
    ensures v.Some? && NoBreak(header) && NoBreak(ValueText(v.value, noQuote)) ==>
              && OneLine(GenericTokens(v, header, noQuote, d), d)
              && Written(GenericTokens(v, header, noQuote, d)) == header + " " + ValueText(v.value, noQuote) + ","
    ensures IndentsAt(GenericTokens(v, header, noQuote, d), d)
  {
    if v.Some? && NoBreak(header) && NoBreak(ValueText(v.value, noQuote)) {
      LineIsOneLine(d, header + " " + ValueText(v.value, noQuote) + ",");
    }
  }

  /** A color or a vector: nothing when absent, one line with its text bare
      when present. */
  lemma OpaqueLine(v: Option<string>, header: string, d: nat)
    ensures OpaqueTokens(v, header, d) == [] <==> v.None?
    ensures v.Some? && NoBreak(header) && NoBreak(v.value) ==>
              && OneLine(OpaqueTokens(v, header, d), d)
              && Written(OpaqueTokens(v, header, d)) == header + " " + v.value + ","
    ensures IndentsAt(OpaqueTokens(v, header, d), d)
  {
    if v.Some? && NoBreak(header) && NoBreak(v.value) {
      LineIsOneLine(d, header + " " + v.value + ",");
    }
  }

  /** A reference: nothing when absent, otherwise one line with the raw name
      or the referenced frame's Name, quoted. */
  lemma FrameRefLine(r: Option<Ref>, header: string, d: nat)
    ensures FrameRefTokens(r, header, d) == [] <==> r.None?
    ensures r.Some? && NoBreak(header) && NoBreak(Resolve(r.value)) ==>
              && OneLine(FrameRefTokens(r, header, d), d)
              && Written(FrameRefTokens(r, header, d)) == header + " " + Quote(Resolve(r.value)) + ","
    ensures r.Some? && r.value.ByName? ==> Resolve(r.value) == r.value.name
    ensures r.Some? && r.value.ByFrame? ==> Resolve(r.value) == r.value.target.Name
    ensures IndentsAt(FrameRefTokens(r, header, d), d)
  {
    if r.Some? && NoBreak(header) && NoBreak(Resolve(r.value)) {
      LineIsOneLine(d, header + " " + Quote(Resolve(r.value)) + ",");
    }
  }

  /** The members written one by one spell out their `|`-joined form. */
  lemma {:induction false} EntriesText(ms: seq<string>)
    ensures Written(EntryTokens(ms)) == Join(ms)
    decreases |ms|
  {
    if |ms| > 0 {
      var init, last := ms[..|ms| - 1], ms[|ms| - 1];
      var sep: seq<Token> := if |ms| > 1 then [Text("|")] else [];
      EntriesText(init);
      WrittenAppend(EntryTokens(init), sep);
      WrittenAppend(EntryTokens(init) + sep, [Text(last)]);
      LineCountSingle(Text(last));
      if |ms| > 1 {
        LineCountSingle(Text("|"));
      }
    }
  }

  lemma {:induction false} EntriesAreTexts(ms: seq<string>)
    ensures forall i :: 0 <= i < |EntryTokens(ms)| ==> EntryTokens(ms)[i].Text?
    decreases |ms|
  {
    if |ms| > 0 {
      EntriesAreTexts(ms[..|ms| - 1]);
    }
  }

  /** A set line holds no indentation mark but its first. */
  lemma SetIndents(ms: seq<string>, header: string, d: nat)
    ensures IndentsAt(SetTokens(ms, header, d), d)
  {
    if |ms| > 0 {
      EntriesAreTexts(ms);
      var e := EntryTokens(ms);
      var l := SetTokens(ms, header, d);
      assert forall i :: 2 <= i < 2 + |e| ==> l[i] == e[i - 2];
    }
  }

  lemma {:induction false} EntriesPlain(ms: seq<string>)
    requires forall i :: 0 <= i < |ms| ==> NoBreak(ms[i])
    ensures PlainTexts(EntryTokens(ms))
    decreases |ms|
  {
    if |ms| > 0 {
      var init := ms[..|ms| - 1];
      assert forall i :: 0 <= i < |init| ==> init[i] == ms[i];
      EntriesPlain(init);
    }
  }

  /** The text of a non-empty set line: the header, the members joined by
      `|` inside quotes, a comma and the line feed. */
  lemma SetWritten(ms: seq<string>, header: string, d: nat)
    requires |ms| > 0
    ensures Written(SetTokens(ms, header, d)) == header + " \"" + Join(ms) + "\",\n"
  {
    var opening := [Indent(d), Text(header + " \"")];
    var last := [Text("\",\n")];
    var e := EntryTokens(ms);
    EntriesText(ms);
    WrittenOpening(d, header + " \"");
    LineCountSingle(last[0]);
    WrittenAppend(opening, e);
    WrittenAppend(opening + e, last);
  }

  lemma SetOneLine(ms: seq<string>, header: string, d: nat)
    requires |ms| > 0 && NoBreak(header) && forall i :: 0 <= i < |ms| ==> NoBreak(ms[i])
    ensures OneLine(SetTokens(ms, header, d), d)
  {
    var head := [Text(header + " \"")];
    var last := Text("\",\n");
    var e := EntryTokens(ms);
    EntriesPlain(ms);
    assert PlainTexts(head + e);
    BreakAtEnd("\",");
    OneLineOf(d, head + e, last);
    assert [Indent(d)] + (head + e) + [last] == SetTokens(ms, header, d);
  }

  /** `writeSet` writes nothing for an empty set; otherwise exactly one line
      `<header> "m1|...|mk",` whose quoted part splits back into the members
      in order (so k - 1 separators, none leading or trailing). */
  lemma SetLine(ms: seq<string>, header: string, d: nat)
    ensures SetTokens(ms, header, d) == [] <==> |ms| == 0
    ensures |ms| > 0 && NoBreak(header) && (forall i :: 0 <= i < |ms| ==> NoBreak(ms[i])) ==>
              OneLine(SetTokens(ms, header, d), d)
    ensures |ms| > 0 ==> Written(SetTokens(ms, header, d)) == header + " \"" + Join(ms) + "\",\n"
    ensures |ms| > 0 && (forall i :: 0 <= i < |ms| ==> BarFree(ms[i])) ==>
              Split(Join(ms)) == ms && multiset(Join(ms))['|'] == |ms| - 1
  {
    if |ms| > 0 {
      if NoBreak(header) && (forall i :: 0 <= i < |ms| ==> NoBreak(ms[i])) {
        SetOneLine(ms, header, d);
      }
      SetWritten(ms, header, d);
      if forall i :: 0 <= i < |ms| ==> BarFree(ms[i]) {
        SplitJoin(ms);
        JoinBarCount(ms);
      }
    }
  }

  /** The text of the inheritance clause: empty when InheritsFrom is unset,
      otherwise ` INHERITS`, then ` WITHCHILDREN` only when the flag is set,
      then the target's name quoted. */
  function InheritsClause(p: Props): string
  {
    if p.InheritsFrom.None? then ""
    else " INHERITS" + (if p.InheritsWithChildren then " WITHCHILDREN" else "")
         + (" " + Quote(Resolve(p.InheritsFrom.value)))
  }

  lemma InheritsText(p: Props)
    ensures Written(InheritsTokens(p)) == InheritsClause(p)
  {
    if p.InheritsFrom.Some? {
      var a := [Text(" INHERITS")];
      var b: seq<Token> := if p.InheritsWithChildren then [Text(" WITHCHILDREN")] else [];
      var c := [Text(" " + Quote(Resolve(p.InheritsFrom.value)))];
      LineCountSingle(a[0]);
      LineCountSingle(c[0]);
      if p.InheritsWithChildren {
        LineCountSingle(b[0]);
      }
      WrittenAppend(a, b);
      WrittenAppend(a + b, c);
    }
  }

  lemma InheritsPlain(p: Props)
    requires CleanRef(p.InheritsFrom)
    ensures PlainTexts(InheritsTokens(p))
  {
  }

  lemma HeaderWritten(opening: string, p: Props, d: nat)
    ensures Written(HeaderTokens(opening, p, d)) == opening + InheritsClause(p) + " {"
  {
    var start := [Indent(d), Text(opening)];
    var i := InheritsTokens(p);
    var end := [Text(" {"), LineBreak];
    InheritsText(p);
    WrittenOpening(d, opening);
    WrittenLineEnd(" {");
    WrittenAppend(start, i);
    WrittenAppend(start + i, end);
  }

  lemma HeaderOneLine(opening: string, p: Props, d: nat)
    requires NoBreak(opening) && CleanRef(p.InheritsFrom)
    ensures OneLine(HeaderTokens(opening, p, d), d)
  {
    var mid := [Text(opening)] + InheritsTokens(p) + [Text(" {")];
    InheritsPlain(p);
    assert PlainTexts(mid);
    LineCountSingle(LineBreak);
    OneLineOf(d, mid, LineBreak);
    assert [Indent(d)] + mid + [LineBreak] == HeaderTokens(opening, p, d);
  }

  /** A header is exactly one line: its opening words, the inheritance
      clause, ` {`. */
  lemma HeaderLine(opening: string, p: Props, d: nat)
    ensures Written(HeaderTokens(opening, p, d)) == opening + InheritsClause(p) + " {"
    ensures NoBreak(opening) && CleanRef(p.InheritsFrom) ==> OneLine(HeaderTokens(opening, p, d), d)
    ensures IndentsAt(HeaderTokens(opening, p, d), d)
  {
    HeaderWritten(opening, p, d);
    if NoBreak(opening) && CleanRef(p.InheritsFrom) {
      HeaderOneLine(opening, p, d);
    }
  }

  /** `writeBaseHeader`: `Frame "<type>" "<Name>"`, the inheritance clause,
      ` {`. */
  lemma BaseHeaderLine(p: Props, frameType: string, d: nat)
    ensures Written(BaseHeaderTokens(p, frameType, d))
         == "Frame " + Quote(frameType) + " " + Quote(p.Name) + InheritsClause(p) + " {"
    ensures NoBreak(frameType) && NoBreak(p.Name) && CleanRef(p.InheritsFrom) ==>
              OneLine(BaseHeaderTokens(p, frameType, d), d)
  {
    HeaderLine("Frame " + Quote(frameType) + " " + Quote(p.Name), p, d);
  }

  lemma {:induction false} PointsLines(ps: seq<SetPoint>, d: nat)
    requires forall i :: 0 <= i < |ps| ==> CleanPoint(ps[i])
    ensures LineCount(PointsTokens(ps, d)) == |ps|
    decreases |ps|
  {
    if |ps| > 0 {
      var init, last := ps[..|ps| - 1], ps[|ps| - 1];
      assert forall i :: 0 <= i < |init| ==> init[i] == ps[i];
      PointsLines(init, d);
      LineCountAppend(PointsTokens(init, d), SetPointTokens(last, d));
      SetPointLine(last, d);
    }
  }

  lemma {:induction false} PointsIndents(ps: seq<SetPoint>, d: nat)
    ensures IndentsAt(PointsTokens(ps, d), d)
    decreases |ps|
  {
    if |ps| > 0 {
      PointsIndents(ps[..|ps| - 1], d);
      IndentsAppend(PointsTokens(ps[..|ps| - 1], d), SetPointTokens(ps[|ps| - 1], d), d);
    }
  }

  lemma {:induction false} BlockLines(b: Block, d: nat)
    requires forall i :: 0 <= i < |b| ==> NoBreak(b[i])
    ensures LineCount(BlockTokens(b, d)) == |b|
    decreases |b|
  {
    if |b| > 0 {
      var init, last := b[..|b| - 1], b[|b| - 1];
      assert forall i :: 0 <= i < |init| ==> init[i] == b[i];
      BlockLines(init, d);
      LineCountAppend(BlockTokens(init, d), Line(d, last));
      LineIsOneLine(d, last);
    }
  }

  lemma {:induction false} BlockIndents(b: Block, d: nat)
    ensures IndentsAt(BlockTokens(b, d), d)
    decreases |b|
  {
    if |b| > 0 {
      BlockIndents(b[..|b| - 1], d);
      IndentsAppend(BlockTokens(b[..|b| - 1], d), Line(d, b[|b| - 1]), d);
    }
  }

  /** The number of lines the font block writes: one per present property,
      plus the font object's own lines. */
  function FontLines(p: Props): nat
  {
    Present(p.FontColor) + Present(p.FontHighlightColor) + Present(p.FontDisabledColor)
    + Present(p.FontShadowColor) + Present(p.FontShadowOffset)
    + (if p.FrameFont.Some? then |p.FrameFont.value| else 0)
    + Present(p.FontJustificationOffset) + Present(p.FontJustificationH)
    + Present(p.FontJustificationV) + Present(p.FontFlags)
  }

  /** The number of lines the common data writes: one per true flag, per
      present size, per anchor, plus the font block's. */
  function CommonLines(p: Props): nat
  {
    (if p.DecorateFileNames then 1 else 0) + (if p.SetAllPoints then 1 else 0)
    + Present(p.Width) + Present(p.Height) + |p.Points| + FontLines(p)
  }

  lemma OpaqueLines(v: Option<string>, header: string, d: nat)
    requires NoBreak(header) && CleanOpt(v)
    ensures LineCount(OpaqueTokens(v, header, d)) == Present(v)
  {
    OpaqueLine(v, header, d);
  }

  lemma GenericLines(v: Option<Scalar>, header: string, noQuote: bool, d: nat)
    requires NoBreak(header)
    requires v.Some? && v.value.Str? ==> NoBreak(v.value.s)
    ensures LineCount(GenericTokens(v, header, noQuote, d)) == Present(v)
  {
    if v.Some? {
      ValueQuoting(v.value, noQuote);
    }
    GenericLine(v, header, noQuote, d);
  }

  lemma NumLines(o: Option<int>, header: string, d: nat)
    requires NoBreak(header)
    ensures LineCount(GenericTokens(OptNum(o), header, false, d)) == Present(o)
  {
    GenericLines(OptNum(o), header, false, d);
  }

  lemma StrLines(o: Option<string>, header: string, noQuote: bool, d: nat)
    requires NoBreak(header) && CleanOpt(o)
    ensures LineCount(GenericTokens(OptStr(o), header, noQuote, d)) == Present(o)
  {
    GenericLines(OptStr(o), header, noQuote, d);
  }

  lemma FlagLines(flag: bool, text: string, d: nat)
    requires NoBreak(text)
    ensures LineCount(FlagTokens(flag, text, d)) == if flag then 1 else 0
  {
    LineIsOneLine(d, text);
  }

  lemma OptBlockLines(o: Option<Block>, d: nat)
    requires CleanBlock(o)
    ensures LineCount(OptBlockTokens(o, d)) == if o.Some? then |o.value| else 0
  {
    if o.Some? {
      BlockLines(o.value, d);
    }
  }

  /** The colors and the shadow offset: one line each when present. */
  lemma FontColorLines(p: Props, d: nat)
    requires CleanProps(p)
    ensures LineCount(OpaqueTokens(p.FontColor, "FontColor", d)
                      + OpaqueTokens(p.FontHighlightColor, "FontHighlightColor", d)
                      + OpaqueTokens(p.FontDisabledColor, "FontDisabledColor", d)
                      + OpaqueTokens(p.FontShadowColor, "FontShadowColor", d)
                      + OpaqueTokens(p.FontShadowOffset, "FontShadowOffset", d))
         == Present(p.FontColor) + Present(p.FontHighlightColor) + Present(p.FontDisabledColor)
            + Present(p.FontShadowColor) + Present(p.FontShadowOffset)
  {
    OpaqueLines(p.FontColor, "FontColor", d);
    OpaqueLines(p.FontHighlightColor, "FontHighlightColor", d);
    OpaqueLines(p.FontDisabledColor, "FontDisabledColor", d);
    OpaqueLines(p.FontShadowColor, "FontShadowColor", d);
    OpaqueLines(p.FontShadowOffset, "FontShadowOffset", d);
    LineCountAppend5(OpaqueTokens(p.FontColor, "FontColor", d),
                     OpaqueTokens(p.FontHighlightColor, "FontHighlightColor", d),
                     OpaqueTokens(p.FontDisabledColor, "FontDisabledColor", d),
                     OpaqueTokens(p.FontShadowColor, "FontShadowColor", d),
                     OpaqueTokens(p.FontShadowOffset, "FontShadowOffset", d));
  }

  /** The font object, the justification offset and the three text
      properties: the font's own lines, then one line each when present. */
  lemma FontTextLines(p: Props, d: nat)
    requires CleanProps(p)
    ensures LineCount(OptBlockTokens(p.FrameFont, d)
                      + OpaqueTokens(p.FontJustificationOffset, "FontJustificationOffset", d)
                      + GenericTokens(OptStr(p.FontJustificationH), "FontJustificationH", true, d)
                      + GenericTokens(OptStr(p.FontJustificationV), "FontJustificationV", true, d)
                      + GenericTokens(OptStr(p.FontFlags), "FontFlags", false, d))
         == (if p.FrameFont.Some? then |p.FrameFont.value| else 0)
            + Present(p.FontJustificationOffset) + Present(p.FontJustificationH)
            + Present(p.FontJustificationV) + Present(p.FontFlags)
  {
    OptBlockLines(p.FrameFont, d);
    OpaqueLines(p.FontJustificationOffset, "FontJustificationOffset", d);
    StrLines(p.FontJustificationH, "FontJustificationH", true, d);
    StrLines(p.FontJustificationV, "FontJustificationV", true, d);
    StrLines(p.FontFlags, "FontFlags", false, d);
    LineCountAppend5(OptBlockTokens(p.FrameFont, d),
                     OpaqueTokens(p.FontJustificationOffset, "FontJustificationOffset", d),
                     GenericTokens(OptStr(p.FontJustificationH), "FontJustificationH", true, d),
                     GenericTokens(OptStr(p.FontJustificationV), "FontJustificationV", true, d),
                     GenericTokens(OptStr(p.FontFlags), "FontFlags", false, d));
  }

  /** Each present font property adds exactly one line and an absent one
      adds none; the font object adds its own lines. */
  lemma FontLineCount(p: Props, d: nat)
    requires CleanProps(p)
    ensures LineCount(FontTokens(p, d)) == FontLines(p)
  {
    FontColorLines(p, d);
    FontTextLines(p, d);
    LineCountAppend5x5(OpaqueTokens(p.FontColor, "FontColor", d),
                       OpaqueTokens(p.FontHighlightColor, "FontHighlightColor", d),
                       OpaqueTokens(p.FontDisabledColor, "FontDisabledColor", d),
                       OpaqueTokens(p.FontShadowColor, "FontShadowColor", d),
                       OpaqueTokens(p.FontShadowOffset, "FontShadowOffset", d),
                       OptBlockTokens(p.FrameFont, d),
                       OpaqueTokens(p.FontJustificationOffset, "FontJustificationOffset", d),
                       GenericTokens(OptStr(p.FontJustificationH), "FontJustificationH", true, d),
                       GenericTokens(OptStr(p.FontJustificationV), "FontJustificationV", true, d),
                       GenericTokens(OptStr(p.FontFlags), "FontFlags", false, d));
  }

  lemma FontIndents(p: Props, d: nat)
    ensures IndentsAt(FontTokens(p, d), d)
  {
    var a1 := OpaqueTokens(p.FontColor, "FontColor", d);
    var a2 := OpaqueTokens(p.FontHighlightColor, "FontHighlightColor", d);
    var a3 := OpaqueTokens(p.FontDisabledColor, "FontDisabledColor", d);
    var a4 := OpaqueTokens(p.FontShadowColor, "FontShadowColor", d);
    var a5 := OpaqueTokens(p.FontShadowOffset, "FontShadowOffset", d);
    var a6 := OptBlockTokens(p.FrameFont, d);
    var a7 := OpaqueTokens(p.FontJustificationOffset, "FontJustificationOffset", d);
    var a8 := GenericTokens(OptStr(p.FontJustificationH), "FontJustificationH", true, d);
    var a9 := GenericTokens(OptStr(p.FontJustificationV), "FontJustificationV", true, d);
    var a10 := GenericTokens(OptStr(p.FontFlags), "FontFlags", false, d);
    assert IndentsAt(a6, d) by {
      if p.FrameFont.Some? {
        BlockIndents(p.FrameFont.value, d);
      }
    }
    var x := a1 + a2 + a3 + a4 + a5;
    IndentsAppend5(a1, a2, a3, a4, a5, d);
    IndentsAppend5(x, a6, a7, a8, a9, d);
    IndentsAppend(x + a6 + a7 + a8 + a9, a10, d);
  }

  /** The flags and the sizes: one line each when set. */
  lemma FlagsAndSizeLines(p: Props, d: nat)
    ensures LineCount(FlagTokens(p.DecorateFileNames, "DecorateFileNames,", d)
                      + FlagTokens(p.SetAllPoints, "SetAllPoints,", d)
                      + GenericTokens(OptNum(p.Width), "Width", false, d)
                      + GenericTokens(OptNum(p.Height), "Height", false, d))
         == (if p.DecorateFileNames then 1 else 0) + (if p.SetAllPoints then 1 else 0)
            + Present(p.Width) + Present(p.Height)
  {
    var a1 := FlagTokens(p.DecorateFileNames, "DecorateFileNames,", d);
    var a2 := FlagTokens(p.SetAllPoints, "SetAllPoints,", d);
    var a3 := GenericTokens(OptNum(p.Width), "Width", false, d);
    var a4 := GenericTokens(OptNum(p.Height), "Height", false, d);
    assert LineCount(a1) == if p.DecorateFileNames then 1 else 0 by {
      FlagLines(p.DecorateFileNames, "DecorateFileNames,", d);
    }
    assert LineCount(a2) == if p.SetAllPoints then 1 else 0 by {
      FlagLines(p.SetAllPoints, "SetAllPoints,", d);
    }
    assert LineCount(a3) == Present(p.Width) by {
      NumLines(p.Width, "Width", d);
    }
    assert LineCount(a4) == Present(p.Height) by {
      NumLines(p.Height, "Height", d);
    }
    LineCountAppend4(a1, a2, a3, a4);
  }

  /** Each true flag, present size, anchor and font property adds exactly
      one line; nothing else is written. */
  lemma CommonLineCount(p: Props, d: nat)
    requires CleanProps(p)
    ensures LineCount(CommonTokens(p, d)) == CommonLines(p)
  {
    FlagsAndSizeLines(p, d);
    PointsLines(p.Points, d);
    FontLineCount(p, d);
    LineCountAppend4x2(FlagTokens(p.DecorateFileNames, "DecorateFileNames,", d),
                       FlagTokens(p.SetAllPoints, "SetAllPoints,", d),
                       GenericTokens(OptNum(p.Width), "Width", false, d),
                       GenericTokens(OptNum(p.Height), "Height", false, d),
                       PointsTokens(p.Points, d), FontTokens(p, d));
  }

  /** All of the common data sits at the current depth. */
  lemma CommonIndents(p: Props, d: nat)
    ensures IndentsAt(CommonTokens(p, d), d)
  {
    var a1 := FlagTokens(p.DecorateFileNames, "DecorateFileNames,", d);
    var a2 := FlagTokens(p.SetAllPoints, "SetAllPoints,", d);
    var a3 := GenericTokens(OptNum(p.Width), "Width", false, d);
    var a4 := GenericTokens(OptNum(p.Height), "Height", false, d);
    var a5 := PointsTokens(p.Points, d);
    var a6 := FontTokens(p, d);
    PointsIndents(p.Points, d);
    FontIndents(p, d);
    IndentsAppend5(a1, a2, a3, a4, a5, d);
    IndentsAppend(a1 + a2 + a3 + a4 + a5, a6, d);
  }

  /** FontFlags is the last property written: setting it appends its line,
      quoted, at the very end. */
  lemma FontFlagsAppended(p: Props, flags: string, d: nat)
    requires p.FontFlags.None?
    ensures CommonTokens(p.(FontFlags := Some(flags)), d)
         == CommonTokens(p, d) + Line(d, "FontFlags " + Quote(flags) + ",")
  {
    var q := p.(FontFlags := Some(flags));
    var line := Line(d, "FontFlags " + Quote(flags) + ",");
    var y := OpaqueTokens(p.FontColor, "FontColor", d)
             + OpaqueTokens(p.FontHighlightColor, "FontHighlightColor", d)
             + OpaqueTokens(p.FontDisabledColor, "FontDisabledColor", d)
             + OpaqueTokens(p.FontShadowColor, "FontShadowColor", d)
             + OpaqueTokens(p.FontShadowOffset, "FontShadowOffset", d)
             + OptBlockTokens(p.FrameFont, d)
             + OpaqueTokens(p.FontJustificationOffset, "FontJustificationOffset", d)
             + GenericTokens(OptStr(p.FontJustificationH), "FontJustificationH", true, d)
             + GenericTokens(OptStr(p.FontJustificationV), "FontJustificationV", true, d);
    assert y + [] == y;
    assert FontTokens(p, d) == y;
    assert "FontFlags" + " " == "FontFlags ";
    assert GenericTokens(OptStr(q.FontFlags), "FontFlags", false, d) == line;
    assert FontTokens(q, d) == y + line;
    var x := FlagTokens(p.DecorateFileNames, "DecorateFileNames,", d)
             + FlagTokens(p.SetAllPoints, "SetAllPoints,", d)
             + GenericTokens(OptNum(p.Width), "Width", false, d)
             + GenericTokens(OptNum(p.Height), "Height", false, d)
             + PointsTokens(p.Points, d);
    AppendAssoc(x, y, line);
  }

  // ---------------------------------------------------------------------
  // Setting one single-line property

  /** One of the properties of the common data that is written as a single
      line, with the value it is set to. */
  datatype Setting =
    | Decorate
    | AllPoints
    | SetWidth(w: int)
    | SetHeight(h: int)
    | SetFontColor(color: string)
    | SetFontHighlightColor(color: string)
    | SetFontDisabledColor(color: string)
    | SetFontShadowColor(color: string)
    | SetFontShadowOffset(vec: string)
    | SetJustificationOffset(vec: string)
    | SetJustificationH(just: string)
    | SetJustificationV(just: string)
    | SetFontFlags(flags: string)

  /** The property s sets is absent (or false) in p. */
  predicate Unset(p: Props, s: Setting)
  {
    match s
    case Decorate => !p.DecorateFileNames
    case AllPoints => !p.SetAllPoints
    case SetWidth(_) => p.Width.None?
    case SetHeight(_) => p.Height.None?
    case SetFontColor(_) => p.FontColor.None?
    case SetFontHighlightColor(_) => p.FontHighlightColor.None?
    case SetFontDisabledColor(_) => p.FontDisabledColor.None?
    case SetFontShadowColor(_) => p.FontShadowColor.None?
    case SetFontShadowOffset(_) => p.FontShadowOffset.None?
    case SetJustificationOffset(_) => p.FontJustificationOffset.None?
    case SetJustificationH(_) => p.FontJustificationH.None?
    case SetJustificationV(_) => p.FontJustificationV.None?
    case SetFontFlags(_) => p.FontFlags.None?
  }

  function Apply(p: Props, s: Setting): Props
  {
    match s
    case Decorate => p.(DecorateFileNames := true)
    case AllPoints => p.(SetAllPoints := true)
    case SetWidth(w) => p.(Width := Some(w))
    case SetHeight(h) => p.(Height := Some(h))
    case SetFontColor(c) => p.(FontColor := Some(c))
    case SetFontHighlightColor(c) => p.(FontHighlightColor := Some(c))
    case SetFontDisabledColor(c) => p.(FontDisabledColor := Some(c))
    case SetFontShadowColor(c) => p.(FontShadowColor := Some(c))
    case SetFontShadowOffset(v) => p.(FontShadowOffset := Some(v))
    case SetJustificationOffset(v) => p.(FontJustificationOffset := Some(v))
    case SetJustificationH(j) => p.(FontJustificationH := Some(j))
    case SetJustificationV(j) => p.(FontJustificationV := Some(j))
    case SetFontFlags(f) => p.(FontFlags := Some(f))
  }

  /** The text of the line a setting writes, spelled out property by
      property: colors, vectors and the two justifications bare, the font
      flags quoted, sizes in decimal. */
  function SettingText(s: Setting): string
  {
    match s
    case Decorate => "DecorateFileNames,"
    case AllPoints => "SetAllPoints,"
    case SetWidth(w) => "Width " + IntToString(w) + ","
    case SetHeight(h) => "Height " + IntToString(h) + ","
    case SetFontColor(c) => "FontColor " + c + ","
    case SetFontHighlightColor(c) => "FontHighlightColor " + c + ","
    case SetFontDisabledColor(c) => "FontDisabledColor " + c + ","
    case SetFontShadowColor(c) => "FontShadowColor " + c + ","
    case SetFontShadowOffset(v) => "FontShadowOffset " + v + ","
    case SetJustificationOffset(v) => "FontJustificationOffset " + v + ","
    case SetJustificationH(j) => "FontJustificationH " + j + ","
    case SetJustificationV(j) => "FontJustificationV " + j + ","
    case SetFontFlags(f) => "FontFlags " + Quote(f) + ","
  }

  /** The place of a setting's line among the parts of the common data. */
  function Slot(s: Setting): nat
  {
    match s
    case Decorate => 0
    case AllPoints => 1
    case SetWidth(_) => 2
    case SetHeight(_) => 3
    case SetFontColor(_) => 5
    case SetFontHighlightColor(_) => 6
    case SetFontDisabledColor(_) => 7
    case SetFontShadowColor(_) => 8
    case SetFontShadowOffset(_) => 9
    case SetJustificationOffset(_) => 11
    case SetJustificationH(_) => 12
    case SetJustificationV(_) => 13
    case SetFontFlags(_) => 14
  }

  /** The parts written one after the other. */
  function Concat(parts: seq<seq<Token>>): seq<Token>
    decreases |parts|
  {
    if |parts| == 0 then [] else Concat(parts[..|parts| - 1]) + parts[|parts| - 1]
  }

  lemma ConcatSnoc(ps: seq<seq<Token>>, x: seq<Token>)
    ensures Concat(ps + [x]) == Concat(ps) + x
  {
    assert (ps + [x])[..|ps|] == ps;
  }

  lemma {:induction false} ConcatAppend(a: seq<seq<Token>>, b: seq<seq<Token>>)
    ensures Concat(a + b) == Concat(a) + Concat(b)
    decreases |b|
  {
    if |b| == 0 {
      assert a + b == a;
    } else {
      var b' := b[..|b| - 1];
      assert a + b == (a + b') + [b[|b| - 1]];
      ConcatSnoc(a + b', b[|b| - 1]);
      ConcatAppend(a, b');
      ConcatSnoc(b', b[|b| - 1]);
      assert b == b' + [b[|b| - 1]];
      AppendAssoc(Concat(a), Concat(b'), b[|b| - 1]);
    }
  }

  /** Replacing an empty part by x puts x between the parts before it and
      the parts after it, which are themselves what the whole was. */
  lemma PartReplaced(ps: seq<seq<Token>>, k: nat, x: seq<Token>)
    requires k < |ps| && ps[k] == []
    ensures Concat(ps) == Concat(ps[..k]) + Concat(ps[k + 1..])
    ensures Concat(ps[k := x]) == Concat(ps[..k]) + x + Concat(ps[k + 1..])
  {
    var pre, post := ps[..k], ps[k + 1..];
    assert ps == pre + [[]] + post;
    assert ps[k := x] == pre + [x] + post;
    ConcatAppend(pre + [[]], post);
    ConcatSnoc(pre, []);
    ConcatAppend(pre + [x], post);
    ConcatSnoc(pre, x);
    assert Concat(pre) + [] == Concat(pre);
  }

  /** The head of the common data: the flags, the sizes and the anchors. */
  function HeadParts(p: Props, d: nat): seq<seq<Token>>
  {
    [FlagTokens(p.DecorateFileNames, "DecorateFileNames,", d),
     FlagTokens(p.SetAllPoints, "SetAllPoints,", d),
     GenericTokens(OptNum(p.Width), "Width", false, d),
     GenericTokens(OptNum(p.Height), "Height", false, d),
     PointsTokens(p.Points, d)]
  }

  /** The font data, property by property. */
  function FontParts(p: Props, d: nat): seq<seq<Token>>
  {
    [OpaqueTokens(p.FontColor, "FontColor", d),
     OpaqueTokens(p.FontHighlightColor, "FontHighlightColor", d),
     OpaqueTokens(p.FontDisabledColor, "FontDisabledColor", d),
     OpaqueTokens(p.FontShadowColor, "FontShadowColor", d),
     OpaqueTokens(p.FontShadowOffset, "FontShadowOffset", d),
     OptBlockTokens(p.FrameFont, d),
     OpaqueTokens(p.FontJustificationOffset, "FontJustificationOffset", d),
     GenericTokens(OptStr(p.FontJustificationH), "FontJustificationH", true, d),
     GenericTokens(OptStr(p.FontJustificationV), "FontJustificationV", true, d),
     GenericTokens(OptStr(p.FontFlags), "FontFlags", false, d)]
  }

  /** The common data cut into its fifteen parts, in the order they are
      written. */
  function CommonParts(p: Props, d: nat): seq<seq<Token>>
  {
    HeadParts(p, d) + FontParts(p, d)
  }

  // Concat5 and Concat10 unfold Concat over displays of opaque parts, so the
  // split of the common data never unfolds the writers inside the parts.

  lemma Concat5(a: seq<Token>, b: seq<Token>, c: seq<Token>, e: seq<Token>, f: seq<Token>)
    ensures Concat([a, b, c, e, f]) == a + b + c + e + f
  {
    var ps := [a, b, c, e, f];
    assert [a] == [] + [a];
    ConcatSnoc([], a);
    assert [a, b] == [a] + [b];
    ConcatSnoc([a], b);
    assert [a, b, c] == [a, b] + [c];
    ConcatSnoc([a, b], c);
    assert [a, b, c, e] == [a, b, c] + [e];
    ConcatSnoc([a, b, c], e);
    assert ps == [a, b, c, e] + [f];
    ConcatSnoc([a, b, c, e], f);
  }

  lemma HeadConcat(p: Props, d: nat)
    ensures Concat(HeadParts(p, d)) == FlagTokens(p.DecorateFileNames, "DecorateFileNames,", d)
      + FlagTokens(p.SetAllPoints, "SetAllPoints,", d)
      + GenericTokens(OptNum(p.Width), "Width", false, d)
      + GenericTokens(OptNum(p.Height), "Height", false, d)
      + PointsTokens(p.Points, d)
  {
    Concat5(FlagTokens(p.DecorateFileNames, "DecorateFileNames,", d),
            FlagTokens(p.SetAllPoints, "SetAllPoints,", d),
            GenericTokens(OptNum(p.Width), "Width", false, d),
            GenericTokens(OptNum(p.Height), "Height", false, d),
            PointsTokens(p.Points, d));
  }

  lemma Concat10(c1: seq<Token>, c2: seq<Token>, c3: seq<Token>, c4: seq<Token>, c5: seq<Token>,
                 j1: seq<Token>, j2: seq<Token>, j3: seq<Token>, j4: seq<Token>, j5: seq<Token>)
    ensures Concat([c1, c2, c3, c4, c5, j1, j2, j3, j4, j5])
         == c1 + c2 + c3 + c4 + c5 + j1 + j2 + j3 + j4 + j5
  {
    assert [c1, c2, c3, c4, c5, j1, j2, j3, j4, j5] == [c1, c2, c3, c4, c5] + [j1, j2, j3, j4, j5];
    ConcatAppend([c1, c2, c3, c4, c5], [j1, j2, j3, j4, j5]);
    Concat5(c1, c2, c3, c4, c5);
    Concat5(j1, j2, j3, j4, j5);
    var x := c1 + c2 + c3 + c4 + c5;
    assert x + (j1 + j2 + j3 + j4 + j5) == x + j1 + j2 + j3 + j4 + j5;
  }

  lemma FontConcat(p: Props, d: nat)
    ensures Concat(FontParts(p, d)) == FontTokens(p, d)
  {
    Concat10(OpaqueTokens(p.FontColor, "FontColor", d),
             OpaqueTokens(p.FontHighlightColor, "FontHighlightColor", d),
             OpaqueTokens(p.FontDisabledColor, "FontDisabledColor", d),
             OpaqueTokens(p.FontShadowColor, "FontShadowColor", d),
             OpaqueTokens(p.FontShadowOffset, "FontShadowOffset", d),
             OptBlockTokens(p.FrameFont, d),
             OpaqueTokens(p.FontJustificationOffset, "FontJustificationOffset", d),
             GenericTokens(OptStr(p.FontJustificationH), "FontJustificationH", true, d),
             GenericTokens(OptStr(p.FontJustificationV), "FontJustificationV", true, d),
             GenericTokens(OptStr(p.FontFlags), "FontFlags", false, d));
  }

  /** Concatenating the parts gives back the common data. */
  lemma CommonTokensParts(p: Props, d: nat)
    ensures CommonTokens(p, d) == Concat(CommonParts(p, d))
  {
    HeadConcat(p, d);
    FontConcat(p, d);
    ConcatAppend(HeadParts(p, d), FontParts(p, d));
  }

  /** Setting one absent single-line property changes exactly its own part
      of the common data, from nothing to the one line of SettingText: every
      line before it and after it stays as it was. */
  lemma SettingInserted(p: Props, s: Setting, d: nat)
    requires Unset(p, s)
    ensures var ps := CommonParts(p, d);
            var k := Slot(s);
            && k < |ps| && ps[k] == []
            && CommonParts(Apply(p, s), d) == ps[k := Line(d, SettingText(s))]
            && CommonTokens(p, d) == Concat(ps[..k]) + Concat(ps[k + 1..])
            && CommonTokens(Apply(p, s), d) == Concat(ps[..k]) + Line(d, SettingText(s)) + Concat(ps[k + 1..])
  {
    var ps := CommonParts(p, d);
    SettingPart(p, s, d);
    CommonTokensParts(p, d);
    CommonTokensParts(Apply(p, s), d);
    PartReplaced(ps, Slot(s), Line(d, SettingText(s)));
  }

  /** A setting replaces the empty part at its slot by its line and touches
      no other part. */
  lemma SettingPart(p: Props, s: Setting, d: nat)
    requires Unset(p, s)
    ensures Slot(s) < |CommonParts(p, d)| && CommonParts(p, d)[Slot(s)] == []
    ensures CommonParts(Apply(p, s), d) == CommonParts(p, d)[Slot(s) := Line(d, SettingText(s))]
  {
    var h, f, q := HeadParts(p, d), FontParts(p, d), Apply(p, s);
    var k, line := Slot(s), Line(d, SettingText(s));
    if k < 5 {
      HeadSetting(p, s, d);
      UpdateSplit(h, f, k, line);
      assert CommonParts(q, d) == h[k := line] + f;
    } else {
      if k < 10 {
        ColorSetting(p, s, d);
      } else {
        JustificationSetting(p, s, d);
      }
      UpdateSplit(h, f, k, line);
      assert CommonParts(q, d) == h + f[k - 5 := line];
    }
  }

  // The settings by group: the head of the common data, the font colors and
  // offset, and the justification and flags.

  lemma HeadSetting(p: Props, s: Setting, d: nat)
    requires Unset(p, s) && Slot(s) < 5
    ensures HeadParts(p, d)[Slot(s)] == []
    ensures HeadParts(Apply(p, s), d) == HeadParts(p, d)[Slot(s) := Line(d, SettingText(s))]
    ensures FontParts(Apply(p, s), d) == FontParts(p, d)
  {
    match s
    case Decorate => DecoratePart(p, d);
    case AllPoints => AllPointsPart(p, d);
    case SetWidth(w) => WidthPart(p, w, d);
    case SetHeight(h) => HeightPart(p, h, d);
  }

  lemma ColorSetting(p: Props, s: Setting, d: nat)
    requires Unset(p, s) && 5 <= Slot(s) < 10
    ensures FontParts(p, d)[Slot(s) - 5] == []
    ensures FontParts(Apply(p, s), d) == FontParts(p, d)[Slot(s) - 5 := Line(d, SettingText(s))]
    ensures HeadParts(Apply(p, s), d) == HeadParts(p, d)
  {
    match s
    case SetFontColor(c) => FontColorPart(p, c, d);
    case SetFontHighlightColor(c) => HighlightColorPart(p, c, d);
    case SetFontDisabledColor(c) => DisabledColorPart(p, c, d);
    case SetFontShadowColor(c) => ShadowColorPart(p, c, d);
    case SetFontShadowOffset(v) => ShadowOffsetPart(p, v, d);
  }

  lemma JustificationSetting(p: Props, s: Setting, d: nat)
    requires Unset(p, s) && 10 <= Slot(s)
    ensures Slot(s) < 15 && FontParts(p, d)[Slot(s) - 5] == []
    ensures FontParts(Apply(p, s), d) == FontParts(p, d)[Slot(s) - 5 := Line(d, SettingText(s))]
    ensures HeadParts(Apply(p, s), d) == HeadParts(p, d)
  {
    match s
    case SetJustificationOffset(v) => JustificationOffsetPart(p, v, d);
    case SetJustificationH(j) => JustificationHPart(p, j, d);
    case SetJustificationV(j) => JustificationVPart(p, j, d);
    case SetFontFlags(f) => FontFlagsPart(p, f, d);
  }

  /** A setting leaves the name, the inheritance and the children alone. */
  lemma ApplyKeeps(p: Props, s: Setting)
    ensures Apply(p, s).Name == p.Name && Apply(p, s).Children == p.Children
    ensures Apply(p, s).InheritsFrom == p.InheritsFrom
    ensures Apply(p, s).InheritsWithChildren == p.InheritsWithChildren
  {
  }

  /** Updating one element of a concatenation updates it in the half that
      holds it. */
  lemma UpdateSplit(h: seq<seq<Token>>, f: seq<seq<Token>>, k: nat, x: seq<Token>)
    requires k < |h| + |f|
    ensures k < |h| ==> (h + f)[k := x] == h[k := x] + f
    ensures |h| <= k ==> (h + f)[k := x] == h + f[k - |h| := x]
  {
  }

  // One lemma per property: setting it fills its own part and no other.

  lemma DecoratePart(p: Props, d: nat)
    requires !p.DecorateFileNames
    ensures HeadParts(p, d)[0] == []
    ensures HeadParts(p.(DecorateFileNames := true), d) == HeadParts(p, d)[0 := Line(d, "DecorateFileNames,")]
    ensures FontParts(p.(DecorateFileNames := true), d) == FontParts(p, d)
  {
  }

  lemma AllPointsPart(p: Props, d: nat)
    requires !p.SetAllPoints
    ensures HeadParts(p, d)[1] == []
    ensures HeadParts(p.(SetAllPoints := true), d) == HeadParts(p, d)[1 := Line(d, "SetAllPoints,")]
    ensures FontParts(p.(SetAllPoints := true), d) == FontParts(p, d)
  {
  }

  lemma WidthPart(p: Props, w: int, d: nat)
    requires p.Width.None?
    ensures HeadParts(p, d)[2] == []
    ensures HeadParts(p.(Width := Some(w)), d) == HeadParts(p, d)[2 := Line(d, "Width " + IntToString(w) + ",")]
    ensures FontParts(p.(Width := Some(w)), d) == FontParts(p, d)
  {
    assert "Width" + " " + IntToString(w) + "," == "Width " + IntToString(w) + ",";
  }

  lemma HeightPart(p: Props, h: int, d: nat)
    requires p.Height.None?
    ensures HeadParts(p, d)[3] == []
    ensures HeadParts(p.(Height := Some(h)), d) == HeadParts(p, d)[3 := Line(d, "Height " + IntToString(h) + ",")]
    ensures FontParts(p.(Height := Some(h)), d) == FontParts(p, d)
  {
    assert "Height" + " " + IntToString(h) + "," == "Height " + IntToString(h) + ",";
  }

  lemma FontColorPart(p: Props, c: string, d: nat)
    requires p.FontColor.None?
    ensures FontParts(p, d)[0] == []
    ensures FontParts(p.(FontColor := Some(c)), d) == FontParts(p, d)[0 := Line(d, "FontColor " + c + ",")]
    ensures HeadParts(p.(FontColor := Some(c)), d) == HeadParts(p, d)
  {
    assert "FontColor" + " " + c + "," == "FontColor " + c + ",";
  }

  lemma HighlightColorPart(p: Props, c: string, d: nat)
    requires p.FontHighlightColor.None?
    ensures FontParts(p, d)[1] == []
    ensures FontParts(p.(FontHighlightColor := Some(c)), d) == FontParts(p, d)[1 := Line(d, "FontHighlightColor " + c + ",")]
    ensures HeadParts(p.(FontHighlightColor := Some(c)), d) == HeadParts(p, d)
  {
    assert "FontHighlightColor" + " " + c + "," == "FontHighlightColor " + c + ",";
  }

  lemma DisabledColorPart(p: Props, c: string, d: nat)
    requires p.FontDisabledColor.None?
    ensures FontParts(p, d)[2] == []
    ensures FontParts(p.(FontDisabledColor := Some(c)), d) == FontParts(p, d)[2 := Line(d, "FontDisabledColor " + c + ",")]
    ensures HeadParts(p.(FontDisabledColor := Some(c)), d) == HeadParts(p, d)
  {
    assert "FontDisabledColor" + " " + c + "," == "FontDisabledColor " + c + ",";
  }

  lemma ShadowColorPart(p: Props, c: string, d: nat)
    requires p.FontShadowColor.None?
    ensures FontParts(p, d)[3] == []
    ensures FontParts(p.(FontShadowColor := Some(c)), d) == FontParts(p, d)[3 := Line(d, "FontShadowColor " + c + ",")]
    ensures HeadParts(p.(FontShadowColor := Some(c)), d) == HeadParts(p, d)
  {
    assert "FontShadowColor" + " " + c + "," == "FontShadowColor " + c + ",";
  }

  lemma ShadowOffsetPart(p: Props, v: string, d: nat)
    requires p.FontShadowOffset.None?
    ensures FontParts(p, d)[4] == []
    ensures FontParts(p.(FontShadowOffset := Some(v)), d) == FontParts(p, d)[4 := Line(d, "FontShadowOffset " + v + ",")]
    ensures HeadParts(p.(FontShadowOffset := Some(v)), d) == HeadParts(p, d)
  {
    assert "FontShadowOffset" + " " + v + "," == "FontShadowOffset " + v + ",";
  }

  lemma JustificationOffsetPart(p: Props, v: string, d: nat)
    requires p.FontJustificationOffset.None?
    ensures FontParts(p, d)[6] == []
    ensures FontParts(p.(FontJustificationOffset := Some(v)), d) == FontParts(p, d)[6 := Line(d, "FontJustificationOffset " + v + ",")]
    ensures HeadParts(p.(FontJustificationOffset := Some(v)), d) == HeadParts(p, d)
  {
    assert "FontJustificationOffset" + " " + v + "," == "FontJustificationOffset " + v + ",";
  }

  lemma JustificationHPart(p: Props, j: string, d: nat)
    requires p.FontJustificationH.None?
    ensures FontParts(p, d)[7] == []
    ensures FontParts(p.(FontJustificationH := Some(j)), d) == FontParts(p, d)[7 := Line(d, "FontJustificationH " + j + ",")]
    ensures HeadParts(p.(FontJustificationH := Some(j)), d) == HeadParts(p, d)
  {
    assert "FontJustificationH" + " " + j + "," == "FontJustificationH " + j + ",";
  }

  lemma JustificationVPart(p: Props, j: string, d: nat)
    requires p.FontJustificationV.None?
    ensures FontParts(p, d)[8] == []
    ensures FontParts(p.(FontJustificationV := Some(j)), d) == FontParts(p, d)[8 := Line(d, "FontJustificationV " + j + ",")]
    ensures HeadParts(p.(FontJustificationV := Some(j)), d) == HeadParts(p, d)
  {
    assert "FontJustificationV" + " " + j + "," == "FontJustificationV " + j + ",";
  }

  lemma FontFlagsPart(p: Props, f: string, d: nat)
    requires p.FontFlags.None?
    ensures FontParts(p, d)[9] == []
    ensures FontParts(p.(FontFlags := Some(f)), d) == FontParts(p, d)[9 := Line(d, "FontFlags " + Quote(f) + ",")]
    ensures HeadParts(p.(FontFlags := Some(f)), d) == HeadParts(p, d)
  {
    assert "FontFlags" + " " + Quote(f) + "," == "FontFlags " + Quote(f) + ",";
  }

  /** No flag set, no size, no anchor and no font property. */
  predicate NoCommonData(p: Props)
  {
    && !p.DecorateFileNames && !p.SetAllPoints && p.Width.None? && p.Height.None?
    && p.Points == [] && p.FrameFont.None? && p.FontJustificationH.None?
    && p.FontJustificationV.None? && p.FontJustificationOffset.None? && p.FontFlags.None?
    && p.FontColor.None? && p.FontHighlightColor.None? && p.FontDisabledColor.None?
    && p.FontShadowColor.None? && p.FontShadowOffset.None?
  }

  /** A frame with no optional property set writes no common data, and a
      freshly built frame with no arguments is such a frame. */
  lemma NothingSetWritesNothing(p: Props, d: nat)
    requires NoCommonData(p)
    ensures CommonTokens(p, d) == []
  {
    assert FontTokens(p, d) == [];
  }

  /** A frame built without arguments has every flag off, no children, no
      anchors, no parent to inherit from, and no common data to write. */
  lemma DefaultsWriteNothing(name: string, d: nat)
    ensures var p := NewProps(name, NoArgs);
            && NoCommonData(p) && p.Children == [] && p.InheritsFrom.None?
            && !p.InheritsWithChildren && CommonTokens(p, d) == []
  {
    NothingSetWritesNothing(NewProps(name, NoArgs), d);
  }
}
