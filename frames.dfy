/** The two concrete frames of the core, a text element (`String`) and a
    drawable layer (`Layer`), and the recursive emission of a frame block:
    header line, the frame's own properties one level deeper, its children's
    blocks one level deeper still, and a closing brace at the frame's own
    depth. */
module Frames {
  import opened StringStream
  import opened FrameTypes
  import opened Format
  import opened FrameBase

  // ---------------------------------------------------------------------
  // Construction

  /** A text frame: the given name, or the empty name when none is given,
      with every supplied argument and its optional font. */
  function NewString(name: Option<string>, args: StringArgs): (f: Frame)
    ensures f.StringFrame?
    ensures name.Some? ==> f.props.Name == name.value
    ensures name.None? ==> f.props.Name == ""
    ensures f.props == NewProps(f.props.Name, args.base)
    ensures f.Font == args.Font
  {
    StringFrame(NewProps(name.GetOr(""), args.base), args.Font)
  }

  /** A layer of the given type: always the empty name, with every supplied
      argument. */
  function NewLayer(layerType: string, args: FrameArgs): (f: Frame)
    ensures f.LayerFrame? && f.Type == layerType
    ensures f.props == NewProps("", args)
  {
    LayerFrame(NewProps("", args), layerType)
  }

  // ---------------------------------------------------------------------
  // Emission, as a specification

  /** `String "<Name>"`, the inheritance clause, ` {`: there is no type tag. */
  function StringHeaderTokens(p: Props, d: nat): seq<Token>
  {
    HeaderTokens("String " + Quote(p.Name), p, d)
  }

  /** `Layer "<Type>"`, the inheritance clause, ` {`: there is no name slot. */
  function LayerHeaderTokens(p: Props, layerType: string, d: nat): seq<Token>
  {
    HeaderTokens("Layer " + Quote(layerType), p, d)
  }

  function HeaderOf(f: Frame, d: nat): seq<Token>
  {
    match f
    case LayerFrame(p, t) => LayerHeaderTokens(p, t, d)
    case StringFrame(p, _) => StringHeaderTokens(p, d)
  }

  /** The closing brace at the frame's own depth. */
  function Closing(d: nat): seq<Token>
  {
    [Indent(d), Text("}\n")]
  }

  /** Everything between a frame's header and its closing brace, written
      one level deeper than the frame: the common data, a text frame's font,
      then every child's block. */
  function BodyTokens(f: Frame, d: nat): seq<Token>
    decreases f, 1
  {
    match f
    case LayerFrame(p, _) =>
      CommonTokens(p, d + 1) + ChildrenTokens(p, |p.Children|, d + 1)
    case StringFrame(p, font) =>
      CommonTokens(p, d + 1) + OptBlockTokens(font, d + 1) + ChildrenTokens(p, |p.Children|, d + 1)
  }

  /** The block a frame emits at depth d. */
  function Emit(f: Frame, d: nat): seq<Token>
    decreases f, 2
  {
    HeaderOf(f, d) + BodyTokens(f, d) + Closing(d)
  }

  /** The blocks of the first n children of p, in list order. */
  function ChildrenTokens(p: Props, n: nat, d: nat): seq<Token>
    requires n <= |p.Children|
    decreases p, n
  {
    if n == 0 then [] else ChildrenTokens(p, n - 1, d) + Emit(p.Children[n - 1], d)
  }

  /** The blocks of all children of p, as `printChildren` writes them. */
  function ChildBlocks(p: Props, d: nat): seq<Token>
  {
    ChildrenTokens(p, |p.Children|, d)
  }

  // ---------------------------------------------------------------------
  // Emission against the sink

  method WriteStringHeader(str: Sink, p: Props)
    modifies str
    ensures str.out == old(str.out) + StringHeaderTokens(p, old(str.depth))
    ensures str.depth == old(str.depth)
  {
    str.WriteIndentation();
    str.WriteString("String " + Quote(p.Name));
    WriteInheritsFrom(str, p);
    str.WriteLine(" {");
  }

  method WriteLayerHeader(str: Sink, p: Props, layerType: string)
    modifies str
    ensures str.out == old(str.out) + LayerHeaderTokens(p, layerType, old(str.depth))
    ensures str.depth == old(str.depth)
  {
    str.WriteIndentation();
    str.WriteString("Layer " + Quote(layerType));
    WriteInheritsFrom(str, p);
    str.WriteLine(" {");
  }

  /** `str.writeIndentation().writeString("}\n")` */
  method WriteClosing(str: Sink)
    modifies str
    ensures str.out == old(str.out) + Closing(old(str.depth))
    ensures str.depth == old(str.depth)
  {
    str.WriteIndentation();
    str.WriteString("}\n");
  }

  /** `compileToStringStream`: emits the frame's block and leaves the depth
      as it found it. */
  method Compile(str: Sink, f: Frame)
    modifies str
    ensures str.out == old(str.out) + Emit(f, old(str.depth))
    ensures str.depth == old(str.depth)
    decreases f, 4
  {
    match f
    case LayerFrame(p, t) =>
      CompileLayer(str, p, t);
    case StringFrame(p, font) =>
      CompileString(str, p, font);
  }

  /** A layer's block, part by part. */
  lemma EmitLayerParts(p: Props, layerType: string, d: nat)
    ensures Emit(LayerFrame(p, layerType), d)
         == LayerHeaderTokens(p, layerType, d) + (CommonTokens(p, d + 1) + ChildBlocks(p, d + 1)) + Closing(d)
  {
  }

  /** A text frame's block, part by part. */
  lemma EmitStringParts(p: Props, font: Option<Block>, d: nat)
    ensures Emit(StringFrame(p, font), d)
         == StringHeaderTokens(p, d) + (CommonTokens(p, d + 1) + OptBlockTokens(font, d + 1) + ChildBlocks(p, d + 1))
            + Closing(d)
  {
  }

  method CompileLayer(str: Sink, p: Props, layerType: string)
    modifies str
    ensures str.out == old(str.out) + Emit(LayerFrame(p, layerType), old(str.depth))
    ensures str.depth == old(str.depth)
    decreases p, 3
  {
    ghost var o, d := str.out, str.depth;
    ghost var h, b := LayerHeaderTokens(p, layerType, d), CommonTokens(p, d + 1) + ChildBlocks(p, d + 1);
    WriteLayerHeader(str, p, layerType);
    WriteLayerBody(str, p);
    AppendAssoc(o, h, b);
    WriteClosing(str);
    AppendAssoc(o, h + b, Closing(d));
    EmitLayerParts(p, layerType, d);
  }

  /** One level deeper: the common data, then the children. */
  method WriteLayerBody(str: Sink, p: Props)
    modifies str
    ensures str.out == old(str.out) + (CommonTokens(p, old(str.depth) + 1) + ChildBlocks(p, old(str.depth) + 1))
    ensures str.depth == old(str.depth)
    decreases p, 2
  {
    ghost var o, d := str.out, str.depth;
    str.PushIndent();
    WriteCommonData(str, p);
    PrintChildren(str, p);
    str.PopIndent();
    AppendAssoc(o, CommonTokens(p, d + 1), ChildBlocks(p, d + 1));
  }

  method CompileString(str: Sink, p: Props, font: Option<Block>)
    modifies str
    ensures str.out == old(str.out) + Emit(StringFrame(p, font), old(str.depth))
    ensures str.depth == old(str.depth)
    decreases p, 3
  {
    ghost var o, d := str.out, str.depth;
    ghost var h, b := StringHeaderTokens(p, d),
                      CommonTokens(p, d + 1) + OptBlockTokens(font, d + 1) + ChildBlocks(p, d + 1);
    WriteStringHeader(str, p);
    WriteStringBody(str, p, font);
    AppendAssoc(o, h, b);
    WriteClosing(str);
    AppendAssoc(o, h + b, Closing(d));
    EmitStringParts(p, font, d);
  }

  /** One level deeper: the common data, the font, then the children. */
  method WriteStringBody(str: Sink, p: Props, font: Option<Block>)
    modifies str
    ensures str.out == old(str.out) + (CommonTokens(p, old(str.depth) + 1) + OptBlockTokens(font, old(str.depth) + 1)
                                       + ChildBlocks(p, old(str.depth) + 1))
    ensures str.depth == old(str.depth)
    decreases p, 2
  {
    ghost var o, d := str.out, str.depth;
    ghost var c, f, k := CommonTokens(p, d + 1), OptBlockTokens(font, d + 1), ChildBlocks(p, d + 1);
    str.PushIndent();
    WriteCommonData(str, p);
    WriteOptBlock(str, font);
    AppendAssoc(o, c, f);
    PrintChildren(str, p);
    str.PopIndent();
    AppendAssoc4(o, c, f, k);
  }

  /** `printChildren`: every child's block, in list order, at the current
      depth. */
  method PrintChildren(str: Sink, p: Props)
    modifies str
    ensures str.out == old(str.out) + ChildBlocks(p, old(str.depth))
    ensures str.depth == old(str.depth)
    decreases p, 1
  {
    ghost var o, d := str.out, str.depth;
    for i := 0 to |p.Children|
      invariant str.out == o + ChildrenTokens(p, i, d)
      invariant str.depth == d
    {
      PrintChild(str, p, i, o);
    }
  }

  /** One turn of `printChildren`: the next child's block follows the
      blocks of the children before it. */
  method PrintChild(str: Sink, p: Props, i: nat, ghost o: seq<Token>)
    requires i < |p.Children|
    requires str.out == o + ChildrenTokens(p, i, str.depth)
    modifies str
    ensures str.out == o + ChildrenTokens(p, i + 1, old(str.depth))
    ensures str.depth == old(str.depth)
    decreases p, 0
  {
    ghost var d := str.depth;
    ghost var before := ChildrenTokens(p, i, d);
    Compile(str, p.Children[i]);
    AppendAssoc(o, before, Emit(p.Children[i], d));
  }

  // ---------------------------------------------------------------------
  // Headers and the closing brace

  /** `writeStringHeader`: `String "<Name>"`, the inheritance clause, ` {`,
      one line at the frame's own depth. */
  lemma StringHeaderLine(p: Props, d: nat)
    ensures Written(StringHeaderTokens(p, d)) == "String " + Quote(p.Name) + InheritsClause(p) + " {"
    ensures NoBreak(p.Name) && CleanRef(p.InheritsFrom) ==> OneLine(StringHeaderTokens(p, d), d)
    ensures IndentsAt(StringHeaderTokens(p, d), d)
  {
    HeaderLine("String " + Quote(p.Name), p, d);
  }

  /** `writeLayerHeader`: `Layer "<Type>"`, the inheritance clause, ` {`,
      one line at the frame's own depth. */
  lemma LayerHeaderLine(p: Props, layerType: string, d: nat)
    ensures Written(LayerHeaderTokens(p, layerType, d)) == "Layer " + Quote(layerType) + InheritsClause(p) + " {"
    ensures NoBreak(layerType) && CleanRef(p.InheritsFrom) ==> OneLine(LayerHeaderTokens(p, layerType, d), d)
    ensures IndentsAt(LayerHeaderTokens(p, layerType, d), d)
  {
    HeaderLine("Layer " + Quote(layerType), p, d);
  }

  /** The closing brace is one line at the frame's own depth. */
  lemma ClosingLine(d: nat)
    ensures OneLine(Closing(d), d) && IndentsAt(Closing(d), d)
    ensures Written(Closing(d)) == "}\n"
  {
    OneLineOf(d, [], Text("}\n"));
    assert [Indent(d)] + [] + [Text("}\n")] == Closing(d);
    WrittenOpening(d, "}\n");
  }

  /** Inheriting from another frame together with its children puts
      ` INHERITS WITHCHILDREN "<target's Name>"` between the frame's name and
      the opening brace. */
  lemma InheritsWithChildrenHeader(f: Frame, target: Props, d: nat)
    requires f.props.InheritsFrom == Some(ByFrame(target)) && f.props.InheritsWithChildren
    ensures f.StringFrame? ==>
              Written(HeaderOf(f, d))
              == "String " + Quote(f.props.Name) + (" INHERITS WITHCHILDREN " + Quote(target.Name)) + " {"
    ensures f.LayerFrame? ==>
              Written(HeaderOf(f, d))
              == "Layer " + Quote(f.Type) + (" INHERITS WITHCHILDREN " + Quote(target.Name)) + " {"
  {
    var q := Quote(target.Name);
    assert InheritsClause(f.props) == " INHERITS WITHCHILDREN " + q by {
      assert " INHERITS" + " WITHCHILDREN" == " INHERITS WITHCHILDREN";
      assert " INHERITS WITHCHILDREN" + (" " + q) == " INHERITS WITHCHILDREN " + q;
    }
    match f
    case LayerFrame(p, t) => LayerHeaderLine(p, t, d);
    case StringFrame(p, _) => StringHeaderLine(p, d);
  }

  // ---------------------------------------------------------------------
  // Nesting: body and children one level deeper than header and brace

  /** Every line exactly at depth d is in particular at depth d or deeper. */
  lemma AtIsFrom(ts: seq<Token>, d: nat)
    requires IndentsAt(ts, d)
    ensures IndentsFrom(ts, d)
  {
  }

  /** Lines at depth d + 1 or deeper are at depth d or deeper; the nesting
      proofs call these two to weaken a part's depth bound to the frame's. */
  lemma DeeperIsFrom(ts: seq<Token>, d: nat)
    requires IndentsFrom(ts, d + 1)
    ensures IndentsFrom(ts, d)
  {
  }

  /** A frame's header and closing brace sit at its own depth, everything
      between them at least one level deeper; the block opens with the
      header's indentation and ends with the closing brace. */
  lemma {:induction false} EmitNesting(f: Frame, d: nat)
    ensures IndentsAt(HeaderOf(f, d), d) && IndentsAt(Closing(d), d)
    ensures IndentsFrom(BodyTokens(f, d), d + 1)
    ensures IndentsFrom(Emit(f, d), d)
    decreases f, 2
  {
    var p := f.props;
    var h, b := HeaderOf(f, d), BodyTokens(f, d);
    assert IndentsAt(h, d) by {
      match f
      case LayerFrame(_, t) => LayerHeaderLine(p, t, d);
      case StringFrame(_, _) => StringHeaderLine(p, d);
    }
    assert IndentsFrom(b, d + 1) by { BodyNesting(f, d); }
    assert IndentsAt(Closing(d), d) by { ClosingLine(d); }
    assert IndentsFrom(h + b + Closing(d), d) by {
      AtIsFrom(h, d);
      DeeperIsFrom(b, d);
      AtIsFrom(Closing(d), d);
      IndentsAppend(h, b, d);
      IndentsAppend(h + b, Closing(d), d);
    }
  }

  /** The body of a frame: common data, font, children, all one level
      deeper than the frame. */
  lemma {:induction false} BodyNesting(f: Frame, d: nat)
    ensures IndentsFrom(BodyTokens(f, d), d + 1)
    decreases f, 1
  {
    var p := f.props;
    var c, k := CommonTokens(p, d + 1), ChildrenTokens(p, |p.Children|, d + 1);
    assert IndentsFrom(c, d + 1) by {
      CommonIndents(p, d + 1);
      AtIsFrom(c, d + 1);
    }
    assert IndentsFrom(k, d + 1) by { ChildrenNesting(p, |p.Children|, d + 1); }
    match f {
      case LayerFrame(_, _) =>
        IndentsAppend(c, k, d + 1);
      case StringFrame(_, font) =>
        var o := OptBlockTokens(font, d + 1);
        assert IndentsFrom(o, d + 1) by {
          if font.Some? {
            BlockIndents(font.value, d + 1);
          }
        }
        IndentsAppend(c, o, d + 1);
        IndentsAppend(c + o, k, d + 1);
    }
  }

  /** Every child's block sits at the depth the children are printed at or
      deeper. */
  lemma {:induction false} ChildrenNesting(p: Props, n: nat, d: nat)
    requires n <= |p.Children|
    ensures IndentsFrom(ChildrenTokens(p, n, d), d)
    decreases p, n
  {
    if n > 0 {
      var a, e := ChildrenTokens(p, n - 1, d), Emit(p.Children[n - 1], d);
      assert IndentsFrom(a, d) by { ChildrenNesting(p, n - 1, d); }
      assert IndentsFrom(e, d) by { EmitNesting(p.Children[n - 1], d); }
      IndentsAppend(a, e, d);
    }
  }

  // ---------------------------------------------------------------------
  // Line counts

  /** No text anywhere in the frame tree holds a line break of its own. */
  predicate CleanFrame(f: Frame)
    decreases f, 1
  {
    && CleanProps(f.props)
    && (match f
        case LayerFrame(_, t) => NoBreak(t)
        case StringFrame(p, font) => NoBreak(p.Name) && CleanBlock(font))
    && CleanChildren(f.props, |f.props.Children|)
  }

  predicate CleanChildren(p: Props, n: nat)
    requires n <= |p.Children|
    decreases p, n
  {
    n > 0 ==> CleanChildren(p, n - 1) && CleanFrame(p.Children[n - 1])
  }

  /** The lines of a frame's block: header and closing brace, the common
      data, a text frame's font, and the lines of every child. */
  function FrameLines(f: Frame): nat
    decreases f, 1
  {
    2 + CommonLines(f.props)
    + (if f.StringFrame? && f.Font.Some? then |f.Font.value| else 0)
    + ChildrenLines(f.props, |f.props.Children|)
  }

  function ChildrenLines(p: Props, n: nat): nat
    requires n <= |p.Children|
    decreases p, n
  {
    if n == 0 then 0 else ChildrenLines(p, n - 1) + FrameLines(p.Children[n - 1])
  }

  /** The header and closing brace of a clean frame are a line each. */
  lemma FrameEdgeLines(f: Frame, d: nat)
    requires CleanFrame(f)
    ensures LineCount(HeaderOf(f, d)) == 1 && LineCount(Closing(d)) == 1
  {
    ClosingLine(d);
    match f
    case LayerFrame(p, t) => LayerHeaderLine(p, t, d);
    case StringFrame(p, _) => StringHeaderLine(p, d);
  }

  /** A clean frame's block has exactly as many lines as FrameLines counts. */
  lemma {:induction false} EmitLineCount(f: Frame, d: nat)
    requires CleanFrame(f)
    ensures LineCount(Emit(f, d)) == FrameLines(f)
    decreases f, 2
  {
    var h, b := HeaderOf(f, d), BodyTokens(f, d);
    assert LineCount(h) == 1 && LineCount(Closing(d)) == 1 by { FrameEdgeLines(f, d); }
    assert LineCount(b) == FrameLines(f) - 2 by { BodyLineCount(f, d); }
    assert LineCount(h + b + Closing(d)) == LineCount(h) + LineCount(b) + LineCount(Closing(d)) by {
      LineCountAppend(h, b);
      LineCountAppend(h + b, Closing(d));
    }
  }

  lemma {:induction false} BodyLineCount(f: Frame, d: nat)
    requires CleanFrame(f)
    ensures LineCount(BodyTokens(f, d)) + 2 == FrameLines(f)
    decreases f, 1
  {
    var p := f.props;
    var c, k := CommonTokens(p, d + 1), ChildrenTokens(p, |p.Children|, d + 1);
    assert LineCount(c) == CommonLines(p) by { CommonLineCount(p, d + 1); }
    assert LineCount(k) == ChildrenLines(p, |p.Children|) by {
      ChildrenLineCount(p, |p.Children|, d + 1);
    }
    match f {
      case LayerFrame(_, _) =>
        LineCountAppend(c, k);
      case StringFrame(_, font) =>
        var o := OptBlockTokens(font, d + 1);
        assert LineCount(o) == if font.Some? then |font.value| else 0 by {
          OptBlockLines(font, d + 1);
        }
        LineCountAppend(c, o);
        LineCountAppend(c + o, k);
    }
  }

  lemma {:induction false} ChildrenLineCount(p: Props, n: nat, d: nat)
    requires n <= |p.Children|
    requires CleanChildren(p, n)
    ensures LineCount(ChildrenTokens(p, n, d)) == ChildrenLines(p, n)
    decreases p, n
  {
    if n > 0 {
      var a, e := ChildrenTokens(p, n - 1, d), Emit(p.Children[n - 1], d);
      assert LineCount(a) == ChildrenLines(p, n - 1) by { ChildrenLineCount(p, n - 1, d); }
      assert LineCount(e) == FrameLines(p.Children[n - 1]) by { EmitLineCount(p.Children[n - 1], d); }
      LineCountAppend(a, e);
    }
  }

  // ---------------------------------------------------------------------
  // Children: insertion order

  /** Blocks depend on the children only through the children themselves:
      two property sets that share their first n children print those
      children identically. */
  lemma {:induction false} ChildrenAgree(p: Props, q: Props, n: nat, d: nat)
    requires n <= |p.Children| && n <= |q.Children|
    requires forall i :: 0 <= i < n ==> p.Children[i] == q.Children[i]
    ensures ChildrenTokens(p, n, d) == ChildrenTokens(q, n, d)
    decreases n
  {
    if n > 0 {
      var a := ChildrenTokens(p, n - 1, d);
      assert a == ChildrenTokens(q, n - 1, d) by { ChildrenAgree(p, q, n - 1, d); }
      assert p.Children[n - 1] == q.Children[n - 1];
    }
  }

  /** `printChildren` writes the blocks of the first i children before
      anything of the later ones: the output for i children is a prefix of
      the output for n >= i children. */
  lemma {:induction false} ChildrenPrefix(p: Props, i: nat, n: nat, d: nat)
    requires i <= n <= |p.Children|
    ensures ChildrenTokens(p, i, d) <= ChildrenTokens(p, n, d)
    decreases n - i
  {
    if i < n {
      var x, a, e := ChildrenTokens(p, i, d), ChildrenTokens(p, n - 1, d), Emit(p.Children[n - 1], d);
      assert x <= a by { ChildrenPrefix(p, i, n - 1, d); }
      assert ChildrenTokens(p, n, d) == a + e;
      PrefixAppend(a, e, x);
    }
  }

  lemma PrefixAppend(a: seq<Token>, e: seq<Token>, x: seq<Token>)
    requires x <= a
    ensures x <= a + e
  {
    assert (a + e)[..|x|] == a[..|x|];
  }

  /** The header and the common data do not look at the children. */
  lemma ChildrenIgnored(p: Props, q: Props, d: nat)
    requires q == p.(Children := q.Children)
    ensures InheritsTokens(q) == InheritsTokens(p)
    ensures CommonTokens(q, d) == CommonTokens(p, d)
  {
    assert FontTokens(q, d) == FontTokens(p, d);
  }

  /** `addChild` then emission: the new child's block, one level deeper,
      comes right before the parent's closing brace, and everything the
      parent wrote before stays as it was. */
  lemma AddChildEmits(f: Frame, c: Frame, d: nat)
    ensures var e := Emit(f, d);
            && |e| >= 2
            && Emit(AddChild(f, c), d) == e[..|e| - 2] + Emit(c, d + 1) + Closing(d)
  {
    var g := AddChild(f, c);
    var p, q := f.props, g.props;
    var x := Emit(c, d + 1);
    assert ChildBlocks(q, d + 1) == ChildBlocks(p, d + 1) + x by {
      ChildrenAgree(p, q, |p.Children|, d + 1);
    }
    ChildrenIgnored(p, q, d + 1);
    match f {
      case LayerFrame(_, t) =>
        assert LayerHeaderTokens(q, t, d) == LayerHeaderTokens(p, t, d);
        EmitLayerParts(p, t, d);
        EmitLayerParts(q, t, d);
        CloseAfterChild(LayerHeaderTokens(p, t, d), CommonTokens(p, d + 1), ChildBlocks(p, d + 1), x, Closing(d));
      case StringFrame(_, font) =>
        assert StringHeaderTokens(q, d) == StringHeaderTokens(p, d);
        EmitStringParts(p, font, d);
        EmitStringParts(q, font, d);
        CloseAfterChild(StringHeaderTokens(p, d), CommonTokens(p, d + 1) + OptBlockTokens(font, d + 1),
                        ChildBlocks(p, d + 1), x, Closing(d));
    }
  }

  /** Cutting a two-token closing off a block, appending one more child
      block and closing again is the same as closing a block whose children
      end with that child. */
  lemma CloseAfterChild(h: seq<Token>, b: seq<Token>, k: seq<Token>, x: seq<Token>, cl: seq<Token>)
    requires |cl| == 2
    ensures var e := h + (b + k) + cl;
            && |e| >= 2
            && h + (b + (k + x)) + cl == e[..|e| - 2] + x + cl
  {
    var e := h + (b + k) + cl;
    assert e[..|e| - 2] == h + (b + k);
    assert h + (b + (k + x)) == h + (b + k) + x;
  }

  // ---------------------------------------------------------------------
  // Frames with nothing set

  /** A frame with no optional property set and no children writes its
      header line and its closing line and nothing else. */
  lemma BareFrameTwoLines(f: Frame, d: nat)
    requires NoCommonData(f.props) && f.props.Children == []
    requires f.StringFrame? ==> f.Font.None?
    ensures Emit(f, d) == HeaderOf(f, d) + Closing(d)
    ensures Written(Emit(f, d)) == Written(HeaderOf(f, d)) + "}\n"
  {
    var h := HeaderOf(f, d);
    assert BodyTokens(f, d) == [] by {
      NothingSetWritesNothing(f.props, d + 1);
    }
    assert Emit(f, d) == h + Closing(d) by {
      assert h + [] == h;
    }
    assert Written(h + Closing(d)) == Written(h) + "}\n" by {
      WrittenAppend(h, Closing(d));
      ClosingLine(d);
    }
  }

  /** ... and so, when its header text holds no line break, exactly two
      lines. */
  lemma BareFrameLineCount(f: Frame, d: nat)
    requires NoCommonData(f.props) && f.props.Children == []
    requires f.StringFrame? ==> f.Font.None?
    requires CleanFrame(f)
    ensures LineCount(Emit(f, d)) == 2
  {
    var h := HeaderOf(f, d);
    assert Emit(f, d) == h + Closing(d) by { BareFrameTwoLines(f, d); }
    FrameEdgeLines(f, d);
    LineCountAppend(h, Closing(d));
  }

  /** A freshly built layer or text frame without arguments writes exactly
      its header line `Layer "<Type>" {` or `String "<name>" {`, ended by a
      line break, then the closing brace `}` and its line feed. */
  lemma FreshFramesAreBare(name: Option<string>, layerType: string, d: nat)
    ensures Emit(NewLayer(layerType, NoArgs), d)
         == [Indent(d), Text("Layer " + Quote(layerType)), Text(" {"), LineBreak, Indent(d), Text("}\n")]
    ensures Emit(NewString(name, StringArgs(NoArgs, None)), d)
         == [Indent(d), Text("String " + Quote(name.GetOr(""))), Text(" {"), LineBreak, Indent(d), Text("}\n")]
  {
    var l, t := NewLayer(layerType, NoArgs), NewString(name, StringArgs(NoArgs, None));
    DefaultsWriteNothing("", d);
    DefaultsWriteNothing(name.GetOr(""), d);
    BareFrameTwoLines(l, d);
    BareFrameTwoLines(t, d);
    assert InheritsTokens(l.props) == [] && InheritsTokens(t.props) == [];
  }

  // ---------------------------------------------------------------------
  // A worked layer

  /** The text frame "Title" with only its font colour set. */
  function TitleFrame(color: string): Frame
  {
    NewString(Some("Title"), StringArgs(NoArgs.(FontColor := Some(color)), None))
  }

  /** An ARTWORK layer, 100 by 50, stretched over its parent. */
  function ArtworkLayer(): Frame
  {
    NewLayer("ARTWORK", NoArgs.(Width := Some(100), Height := Some(50), SetAllPoints := Some(true)))
  }

  lemma TitleBody(color: string, d: nat)
    ensures CommonTokens(TitleFrame(color).props, d) == Line(d, "FontColor " + color + ",")
  {
    var p := TitleFrame(color).props;
    assert FontTokens(p, d) == Line(d, "FontColor" + " " + color + ",");
    assert "FontColor" + " " == "FontColor ";
  }

  lemma ArtworkBody(d: nat)
    ensures CommonTokens(ArtworkLayer().props, d)
         == Line(d, "SetAllPoints,") + Line(d, "Width 100,") + Line(d, "Height 50,")
  {
    var p := ArtworkLayer().props;
    assert IntToString(100) == "100" && IntToString(50) == "50" by {
      assert NatToString(10) == "10" by { assert DigitChar(1) == '1' && DigitChar(0) == '0'; }
      assert DigitChar(5) == '5';
    }
    assert FontTokens(p, d) == [];
    assert "Width" + " " + "100" + "," == "Width 100,";
    assert "Height" + " " + "50" + "," == "Height 50,";
  }

  /** The title's own block at depth d. */
  lemma TitleBlock(color: string, d: nat)
    ensures Emit(TitleFrame(color), d)
         == [Indent(d), Text("String \"Title\""), Text(" {"), LineBreak]
            + Line(d + 1, "FontColor " + color + ",") + [Indent(d), Text("}\n")]
  {
    var p := TitleFrame(color).props;
    var h := [Indent(d), Text("String \"Title\""), Text(" {"), LineBreak];
    assert StringHeaderTokens(p, d) == h by {
      assert Quote("Title") == "\"Title\"";
      assert "String " + "\"Title\"" == "String \"Title\"";
    }
    assert CommonTokens(p, d + 1) == Line(d + 1, "FontColor " + color + ",") by { TitleBody(color, d + 1); }
    EmitStringParts(p, None, d);
  }

  /** The layer's own block at depth d, before any child is added. */
  lemma ArtworkBlock(d: nat)
    ensures Emit(ArtworkLayer(), d)
         == [Indent(d), Text("Layer \"ARTWORK\""), Text(" {"), LineBreak]
            + (Line(d + 1, "SetAllPoints,") + Line(d + 1, "Width 100,") + Line(d + 1, "Height 50,"))
            + Closing(d)
  {
    var p := ArtworkLayer().props;
    var h := [Indent(d), Text("Layer \"ARTWORK\""), Text(" {"), LineBreak];
    assert LayerHeaderTokens(p, "ARTWORK", d) == h by {
      assert Quote("ARTWORK") == "\"ARTWORK\"";
      assert "Layer " + "\"ARTWORK\"" == "Layer \"ARTWORK\"";
    }
    assert CommonTokens(p, d + 1)
        == Line(d + 1, "SetAllPoints,") + Line(d + 1, "Width 100,") + Line(d + 1, "Height 50,") by {
      ArtworkBody(d + 1);
    }
    EmitLayerParts(p, "ARTWORK", d);
  }

  lemma Regroup(h: seq<Token>, b: seq<Token>, c: seq<Token>, x: seq<Token>, y: seq<Token>)
    ensures (h + b + c)[..|h + b + c| - |c|] + x + y == h + b + x + y
  {
    assert (h + b + c)[..|h + b + c| - |c|] == h + b;
  }

  /** The layer with the title added as its child: the layer's header with
      no name slot, its three property lines one level deeper, then the
      title's block one level deeper again inside it, each block closed by
      its own brace at its own depth. */
  lemma ArtworkScenario(color: string, d: nat)
    ensures Emit(AddChild(ArtworkLayer(), TitleFrame(color)), d)
         == [Indent(d), Text("Layer \"ARTWORK\""), Text(" {"), LineBreak]
            + (Line(d + 1, "SetAllPoints,") + Line(d + 1, "Width 100,") + Line(d + 1, "Height 50,"))
            + ([Indent(d + 1), Text("String \"Title\""), Text(" {"), LineBreak]
               + Line(d + 2, "FontColor " + color + ",") + [Indent(d + 1), Text("}\n")])
            + [Indent(d), Text("}\n")]
  {
    var l, t := ArtworkLayer(), TitleFrame(color);
    var h := [Indent(d), Text("Layer \"ARTWORK\""), Text(" {"), LineBreak];
    var b := Line(d + 1, "SetAllPoints,") + Line(d + 1, "Width 100,") + Line(d + 1, "Height 50,");
    var x := Emit(t, d + 1);
    var e := Emit(l, d);
    assert e == h + b + Closing(d) by { ArtworkBlock(d); }
    assert x == [Indent(d + 1), Text("String \"Title\""), Text(" {"), LineBreak]
               + Line(d + 2, "FontColor " + color + ",") + [Indent(d + 1), Text("}\n")] by {
      TitleBlock(color, d + 1);
    }
    assert Emit(AddChild(l, t), d) == e[..|e| - 2] + x + Closing(d) by { AddChildEmits(l, t, d); }
    Regroup(h, b, Closing(d), x, Closing(d));
  }

  // ---------------------------------------------------------------------
  // Setting one property of a frame

  /** Setting one absent single-line property of a layer adds exactly its
      line to the layer's block, one level deeper than the header, at its
      place among the common data; the header, every other property line,
      the children's blocks and the closing brace stay as they were. */
  lemma SettingInLayer(p: Props, layerType: string, s: Setting, d: nat)
    requires Unset(p, s)
    ensures var ps, k := CommonParts(p, d + 1), Slot(s);
            var h, cs := LayerHeaderTokens(p, layerType, d), ChildBlocks(p, d + 1);
            && k < |ps|
            && Emit(LayerFrame(p, layerType), d)
               == h + (Concat(ps[..k]) + Concat(ps[k + 1..]) + cs) + Closing(d)
            && Emit(LayerFrame(Apply(p, s), layerType), d)
               == h + (Concat(ps[..k]) + Line(d + 1, SettingText(s)) + Concat(ps[k + 1..]) + cs) + Closing(d)
  {
    var q := Apply(p, s);
    SettingInserted(p, s, d + 1);
    ApplyKeeps(p, s);
    EmitLayerParts(p, layerType, d);
    EmitLayerParts(q, layerType, d);
    assert InheritsTokens(q) == InheritsTokens(p);
    ChildrenAgree(p, q, |p.Children|, d + 1);
  }

  /** The same for a text frame: the setting's line joins the common data,
      and the font, the children and the rest of the block are unchanged. */
  lemma SettingInString(p: Props, font: Option<Block>, s: Setting, d: nat)
    requires Unset(p, s)
    ensures var ps, k := CommonParts(p, d + 1), Slot(s);
            var h, fb, cs := StringHeaderTokens(p, d), OptBlockTokens(font, d + 1), ChildBlocks(p, d + 1);
            && k < |ps|
            && Emit(StringFrame(p, font), d)
               == h + (Concat(ps[..k]) + Concat(ps[k + 1..]) + fb + cs) + Closing(d)
            && Emit(StringFrame(Apply(p, s), font), d)
               == h + (Concat(ps[..k]) + Line(d + 1, SettingText(s)) + Concat(ps[k + 1..]) + fb + cs) + Closing(d)
  {
    var q := Apply(p, s);
    SettingInserted(p, s, d + 1);
    ApplyKeeps(p, s);
    EmitStringParts(p, font, d);
    EmitStringParts(q, font, d);
    assert InheritsTokens(q) == InheritsTokens(p);
    ChildrenAgree(p, q, |p.Children|, d + 1);
  }
}
