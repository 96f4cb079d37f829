/** The base of clickable frames: a style set, four backdrops and a
    mouse-over highlight, written after the shared properties by
    `writeControl`. The concrete control frames that call it are not part
    of this model. */
module FrameControlBase {
  import opened StringStream
  import opened FrameTypes
  import opened Format
  import opened FrameBase

  /** A control after construction: the shared properties as for any frame,
      the supplied control properties, and an empty style set when none is
      given. */
  function NewControl(name: string, args: ControlArgs): (c: ControlFrame)
    ensures c.props == NewProps(name, args.base)
    ensures args.ControlStyle.Some? ==> c.control.ControlStyle == args.ControlStyle.value
    ensures args.ControlStyle.None? ==> c.control.ControlStyle == []
    ensures c.control.ControlBackdrop == args.ControlBackdrop
    ensures c.control.ControlPushedBackdrop == args.ControlPushedBackdrop
    ensures c.control.ControlDisabledBackdrop == args.ControlDisabledBackdrop
    ensures c.control.ControlDisabledPushedBackdrop == args.ControlDisabledPushedBackdrop
    ensures c.control.ControlMouseOverHighlight == args.ControlMouseOverHighlight
  {
    ControlFrame(
      NewProps(name, args.base),
      ControlProps(args.ControlStyle.GetOr([]), args.ControlBackdrop, args.ControlPushedBackdrop,
                   args.ControlDisabledBackdrop, args.ControlDisabledPushedBackdrop,
                   args.ControlMouseOverHighlight))
  }

  /** The four backdrop references, in the order they are written. */
  function BackdropTokens(c: ControlProps, d: nat): seq<Token>
  {
    FrameRefTokens(c.ControlBackdrop, "ControlBackdrop", d)
    + FrameRefTokens(c.ControlPushedBackdrop, "ControlPushedBackdrop", d)
    + FrameRefTokens(c.ControlDisabledBackdrop, "ControlDisabledBackdrop", d)
    + FrameRefTokens(c.ControlDisabledPushedBackdrop, "ControlDisabledPushedBackdrop", d)
  }

  /** What `writeControl` appends at depth d: the style set, the backdrops,
      the highlight. */
  function ControlTokens(c: ControlProps, d: nat): seq<Token>
  {
    SetTokens(c.ControlStyle, "ControlStyle", d)
    + BackdropTokens(c, d)
    + FrameRefTokens(c.ControlMouseOverHighlight, "ControlMouseOverHighlight", d)
  }

  method WriteBackdrops(str: Sink, c: ControlProps)
    modifies str
    ensures str.out == old(str.out) + BackdropTokens(c, old(str.depth))
    ensures str.depth == old(str.depth)
  {
    ghost var o, d := str.out, str.depth;
    WriteFrame(str, c.ControlBackdrop, "ControlBackdrop");
    ghost var w := FrameRefTokens(c.ControlBackdrop, "ControlBackdrop", d);
    WriteFrame(str, c.ControlPushedBackdrop, "ControlPushedBackdrop");
    AppendAssoc(o, w, FrameRefTokens(c.ControlPushedBackdrop, "ControlPushedBackdrop", d));
    w := w + FrameRefTokens(c.ControlPushedBackdrop, "ControlPushedBackdrop", d);
    WriteFrame(str, c.ControlDisabledBackdrop, "ControlDisabledBackdrop");
    AppendAssoc(o, w, FrameRefTokens(c.ControlDisabledBackdrop, "ControlDisabledBackdrop", d));
    w := w + FrameRefTokens(c.ControlDisabledBackdrop, "ControlDisabledBackdrop", d);
    WriteFrame(str, c.ControlDisabledPushedBackdrop, "ControlDisabledPushedBackdrop");
    AppendAssoc(o, w, FrameRefTokens(c.ControlDisabledPushedBackdrop, "ControlDisabledPushedBackdrop", d));
  }

  method WriteControl(str: Sink, c: ControlProps)
    modifies str
    ensures str.out == old(str.out) + ControlTokens(c, old(str.depth))
    ensures str.depth == old(str.depth)
  {
    ghost var o, d := str.out, str.depth;
    WriteSet(str, c.ControlStyle, "ControlStyle");
    ghost var w := SetTokens(c.ControlStyle, "ControlStyle", d);
    WriteBackdrops(str, c);
    AppendAssoc(o, w, BackdropTokens(c, d));
    w := w + BackdropTokens(c, d);
    WriteFrame(str, c.ControlMouseOverHighlight, "ControlMouseOverHighlight");
    AppendAssoc(o, w, FrameRefTokens(c.ControlMouseOverHighlight, "ControlMouseOverHighlight", d));
  }

  /** No style member and no referenced name holds a line break. */
  predicate CleanControl(c: ControlProps)
  {
    && (forall i :: 0 <= i < |c.ControlStyle| ==> NoBreak(c.ControlStyle[i]))
    && CleanRef(c.ControlBackdrop) && CleanRef(c.ControlPushedBackdrop)
    && CleanRef(c.ControlDisabledBackdrop) && CleanRef(c.ControlDisabledPushedBackdrop)
    && CleanRef(c.ControlMouseOverHighlight)
  }

  /** The number of lines a control's properties take: one for a non-empty
      style set and one per present reference. */
  function ControlLines(c: ControlProps): nat
  {
    (if |c.ControlStyle| > 0 then 1 else 0)
    + Present(c.ControlBackdrop) + Present(c.ControlPushedBackdrop)
    + Present(c.ControlDisabledBackdrop) + Present(c.ControlDisabledPushedBackdrop)
    + Present(c.ControlMouseOverHighlight)
  }

  lemma RefLines(r: Option<Ref>, header: string, d: nat)
    requires NoBreak(header) && CleanRef(r)
    ensures LineCount(FrameRefTokens(r, header, d)) == Present(r)
    ensures IndentsAt(FrameRefTokens(r, header, d), d)
  {
    FrameRefLine(r, header, d);
  }

  lemma StyleLines(ms: seq<string>, d: nat)
    requires forall i :: 0 <= i < |ms| ==> NoBreak(ms[i])
    ensures LineCount(SetTokens(ms, "ControlStyle", d)) == if |ms| > 0 then 1 else 0
  {
    SetLine(ms, "ControlStyle", d);
  }

  lemma BackdropLines(c: ControlProps, d: nat)
    requires CleanControl(c)
    ensures LineCount(BackdropTokens(c, d))
         == Present(c.ControlBackdrop) + Present(c.ControlPushedBackdrop)
            + Present(c.ControlDisabledBackdrop) + Present(c.ControlDisabledPushedBackdrop)
  {
    var a1 := FrameRefTokens(c.ControlBackdrop, "ControlBackdrop", d);
    var a2 := FrameRefTokens(c.ControlPushedBackdrop, "ControlPushedBackdrop", d);
    var a3 := FrameRefTokens(c.ControlDisabledBackdrop, "ControlDisabledBackdrop", d);
    var a4 := FrameRefTokens(c.ControlDisabledPushedBackdrop, "ControlDisabledPushedBackdrop", d);
    ControlHeadersClean();
    assert LineCount(a1) == Present(c.ControlBackdrop) by {
      RefLines(c.ControlBackdrop, "ControlBackdrop", d);
    }
    assert LineCount(a2) == Present(c.ControlPushedBackdrop) by {
      RefLines(c.ControlPushedBackdrop, "ControlPushedBackdrop", d);
    }
    assert LineCount(a3) == Present(c.ControlDisabledBackdrop) by {
      RefLines(c.ControlDisabledBackdrop, "ControlDisabledBackdrop", d);
    }
    assert LineCount(a4) == Present(c.ControlDisabledPushedBackdrop) by {
      RefLines(c.ControlDisabledPushedBackdrop, "ControlDisabledPushedBackdrop", d);
    }
    LineCountAppend4(a1, a2, a3, a4);
  }

  /** `writeControl` writes one line for a non-empty style set and one per
      present reference, and nothing else. */
  lemma ControlLineCount(c: ControlProps, d: nat)
    requires CleanControl(c)
    ensures LineCount(ControlTokens(c, d)) == ControlLines(c)
  {
    var s := SetTokens(c.ControlStyle, "ControlStyle", d);
    var b := BackdropTokens(c, d);
    var h := FrameRefTokens(c.ControlMouseOverHighlight, "ControlMouseOverHighlight", d);
    ControlHeadersClean();
    assert LineCount(ControlTokens(c, d)) == LineCount(s) + LineCount(b) + LineCount(h) by {
      LineCountAppend3(s, b, h);
    }
    assert LineCount(s) == if |c.ControlStyle| > 0 then 1 else 0 by {
      StyleLines(c.ControlStyle, d);
    }
    assert LineCount(b) == Present(c.ControlBackdrop) + Present(c.ControlPushedBackdrop)
                           + Present(c.ControlDisabledBackdrop) + Present(c.ControlDisabledPushedBackdrop) by {
      BackdropLines(c, d);
    }
    assert LineCount(h) == Present(c.ControlMouseOverHighlight) by {
      RefLines(c.ControlMouseOverHighlight, "ControlMouseOverHighlight", d);
    }
  }

  /** None of the control headers holds a line break. Stated once here so
      that the line-count proofs do not re-derive it from the literals. */
  lemma ControlHeadersClean()
    ensures NoBreak("ControlStyle") && NoBreak("ControlBackdrop") && NoBreak("ControlPushedBackdrop")
    ensures NoBreak("ControlDisabledBackdrop") && NoBreak("ControlDisabledPushedBackdrop")
    ensures NoBreak("ControlMouseOverHighlight")
  {
  }

  lemma LineCountAppend3(s: seq<Token>, b: seq<Token>, h: seq<Token>)
    ensures LineCount(s + b + h) == LineCount(s) + LineCount(b) + LineCount(h)
  {
    LineCountAppend(s, b);
    LineCountAppend(s + b, h);
  }

  lemma BackdropIndents(c: ControlProps, d: nat)
    ensures IndentsAt(BackdropTokens(c, d), d)
  {
    var a1 := FrameRefTokens(c.ControlBackdrop, "ControlBackdrop", d);
    var a2 := FrameRefTokens(c.ControlPushedBackdrop, "ControlPushedBackdrop", d);
    var a3 := FrameRefTokens(c.ControlDisabledBackdrop, "ControlDisabledBackdrop", d);
    var a4 := FrameRefTokens(c.ControlDisabledPushedBackdrop, "ControlDisabledPushedBackdrop", d);
    FrameRefLine(c.ControlBackdrop, "ControlBackdrop", d);
    FrameRefLine(c.ControlPushedBackdrop, "ControlPushedBackdrop", d);
    FrameRefLine(c.ControlDisabledBackdrop, "ControlDisabledBackdrop", d);
    FrameRefLine(c.ControlDisabledPushedBackdrop, "ControlDisabledPushedBackdrop", d);
    IndentsAppend(a1, a2, d);
    IndentsAppend(a1 + a2, a3, d);
    IndentsAppend(a1 + a2 + a3, a4, d);
  }

  /** Every line of the control's properties sits at the current depth. */
  lemma ControlIndents(c: ControlProps, d: nat)
    ensures IndentsAt(ControlTokens(c, d), d)
  {
    var s := SetTokens(c.ControlStyle, "ControlStyle", d);
    var b := BackdropTokens(c, d);
    var h := FrameRefTokens(c.ControlMouseOverHighlight, "ControlMouseOverHighlight", d);
    SetIndents(c.ControlStyle, "ControlStyle", d);
    BackdropIndents(c, d);
    FrameRefLine(c.ControlMouseOverHighlight, "ControlMouseOverHighlight", d);
    IndentsAppend(s, b, d);
    IndentsAppend(s + b, h, d);
  }

  /** `writeControl` writes nothing exactly when the style set is empty and
      no reference is set. */
  lemma ControlWritesNothing(c: ControlProps, d: nat)
    ensures ControlTokens(c, d) == [] <==>
              && c.ControlStyle == [] && c.ControlBackdrop.None? && c.ControlPushedBackdrop.None?
              && c.ControlDisabledBackdrop.None? && c.ControlDisabledPushedBackdrop.None?
              && c.ControlMouseOverHighlight.None?
  {
    SetLine(c.ControlStyle, "ControlStyle", d);
    FrameRefLine(c.ControlBackdrop, "ControlBackdrop", d);
    FrameRefLine(c.ControlPushedBackdrop, "ControlPushedBackdrop", d);
    FrameRefLine(c.ControlDisabledBackdrop, "ControlDisabledBackdrop", d);
    FrameRefLine(c.ControlDisabledPushedBackdrop, "ControlDisabledPushedBackdrop", d);
    FrameRefLine(c.ControlMouseOverHighlight, "ControlMouseOverHighlight", d);
  }

  /** A control built without control arguments writes no control line at
      all, in particular no `ControlStyle` line. */
  lemma FreshControlWritesNothing(name: string, base: FrameArgs, d: nat)
    ensures ControlTokens(NewControl(name, ControlArgs(base, None, None, None, None, None, None)).control, d) == []
  {
    var c := NewControl(name, ControlArgs(base, None, None, None, None, None, None)).control;
    ControlWritesNothing(c, d);
  }

  /** The ControlBackdrop line comes straight after the style line and names
      the backdrop frame by its Name (or the raw name given). */
  lemma BackdropFollowsStyle(c: ControlProps, d: nat)
    requires c.ControlBackdrop.Some?
    ensures var s := SetTokens(c.ControlStyle, "ControlStyle", d);
            && |ControlTokens(c, d)| >= |s| + 3
            && ControlTokens(c, d)[|s|..|s| + 3]
               == Line(d, "ControlBackdrop " + Quote(Resolve(c.ControlBackdrop.value)) + ",")
  {
    var s := SetTokens(c.ControlStyle, "ControlStyle", d);
    var line := Line(d, "ControlBackdrop " + Quote(Resolve(c.ControlBackdrop.value)) + ",");
    var r2 := FrameRefTokens(c.ControlPushedBackdrop, "ControlPushedBackdrop", d);
    var r3 := FrameRefTokens(c.ControlDisabledBackdrop, "ControlDisabledBackdrop", d);
    var r4 := FrameRefTokens(c.ControlDisabledPushedBackdrop, "ControlDisabledPushedBackdrop", d);
    assert FrameRefTokens(c.ControlBackdrop, "ControlBackdrop", d) == line by {
      assert "ControlBackdrop" + " " == "ControlBackdrop ";
    }
    assert BackdropTokens(c, d) == line + (r2 + r3 + r4) by {
      AppendAssoc4(line, r2, r3, r4);
    }
    SliceBetween(s, line, r2 + r3 + r4, FrameRefTokens(c.ControlMouseOverHighlight, "ControlMouseOverHighlight", d));
  }

  /** The middle part x of s + (x + y) + z sits right after s. */
  lemma SliceBetween(s: seq<Token>, x: seq<Token>, y: seq<Token>, z: seq<Token>)
    ensures |s + (x + y) + z| >= |s| + |x|
    ensures (s + (x + y) + z)[|s|..|s| + |x|] == x
  {
    var t := s + (x + y) + z;
    forall i | 0 <= i < |x|
      ensures t[|s| + i] == x[i]
    {
    }
  }

  // ---------------------------------------------------------------------
  // Setting one control property

  /** One control property with the value it is set to: a non-empty style
      set, or one of the five frame references. */
  datatype ControlSetting =
    | SetStyle(members: seq<string>)
    | SetBackdrop(target: Ref)
    | SetPushedBackdrop(target: Ref)
    | SetDisabledBackdrop(target: Ref)
    | SetDisabledPushedBackdrop(target: Ref)
    | SetHighlight(target: Ref)

  /** The property s sets is absent in c (an empty style set counts as
      absent, since it writes nothing). */
  predicate ControlUnset(c: ControlProps, s: ControlSetting)
  {
    match s
    case SetStyle(_) => c.ControlStyle == []
    case SetBackdrop(_) => c.ControlBackdrop.None?
    case SetPushedBackdrop(_) => c.ControlPushedBackdrop.None?
    case SetDisabledBackdrop(_) => c.ControlDisabledBackdrop.None?
    case SetDisabledPushedBackdrop(_) => c.ControlDisabledPushedBackdrop.None?
    case SetHighlight(_) => c.ControlMouseOverHighlight.None?
  }

  function ApplyControl(c: ControlProps, s: ControlSetting): ControlProps
  {
    match s
    case SetStyle(ms) => c.(ControlStyle := ms)
    case SetBackdrop(r) => c.(ControlBackdrop := Some(r))
    case SetPushedBackdrop(r) => c.(ControlPushedBackdrop := Some(r))
    case SetDisabledBackdrop(r) => c.(ControlDisabledBackdrop := Some(r))
    case SetDisabledPushedBackdrop(r) => c.(ControlDisabledPushedBackdrop := Some(r))
    case SetHighlight(r) => c.(ControlMouseOverHighlight := Some(r))
  }

  /** What a control setting writes, spelled out: the style line, or
      `<header> "<resolved name>",` on one line. */
  function ControlSettingTokens(s: ControlSetting, d: nat): seq<Token>
  {
    match s
    case SetStyle(ms) => [Indent(d), Text("ControlStyle \"")] + EntryTokens(ms) + [Text("\",\n")]
    case SetBackdrop(r) => Line(d, "ControlBackdrop " + Quote(Resolve(r)) + ",")
    case SetPushedBackdrop(r) => Line(d, "ControlPushedBackdrop " + Quote(Resolve(r)) + ",")
    case SetDisabledBackdrop(r) => Line(d, "ControlDisabledBackdrop " + Quote(Resolve(r)) + ",")
    case SetDisabledPushedBackdrop(r) => Line(d, "ControlDisabledPushedBackdrop " + Quote(Resolve(r)) + ",")
    case SetHighlight(r) => Line(d, "ControlMouseOverHighlight " + Quote(Resolve(r)) + ",")
  }

  /** The place of a setting's line among the parts of the control data. */
  function ControlSlot(s: ControlSetting): nat
  {
    match s
    case SetStyle(_) => 0
    case SetBackdrop(_) => 1
    case SetPushedBackdrop(_) => 2
    case SetDisabledBackdrop(_) => 3
    case SetDisabledPushedBackdrop(_) => 4
    case SetHighlight(_) => 5
  }

  /** The control data cut into its six parts, in the order they are
      written. */
  function ControlParts(c: ControlProps, d: nat): seq<seq<Token>>
  {
    [SetTokens(c.ControlStyle, "ControlStyle", d),
     FrameRefTokens(c.ControlBackdrop, "ControlBackdrop", d),
     FrameRefTokens(c.ControlPushedBackdrop, "ControlPushedBackdrop", d),
     FrameRefTokens(c.ControlDisabledBackdrop, "ControlDisabledBackdrop", d),
     FrameRefTokens(c.ControlDisabledPushedBackdrop, "ControlDisabledPushedBackdrop", d),
     FrameRefTokens(c.ControlMouseOverHighlight, "ControlMouseOverHighlight", d)]
  }

  // Unfolds Concat over a display of opaque parts, regrouped as the control
  // data is: the style set, the four backdrops, the highlight.
  lemma Concat6(a: seq<Token>, b: seq<Token>, e: seq<Token>, f: seq<Token>, g: seq<Token>, h: seq<Token>)
    ensures Concat([a, b, e, f, g, h]) == a + (b + e + f + g) + h
  {
    assert [a, b, e, f, g, h] == [a, b, e, f, g] + [h];
    ConcatSnoc([a, b, e, f, g], h);
    Concat5(a, b, e, f, g);
    assert a + b + e + f + g == a + (b + e + f + g);
  }

  /** Concatenating the parts gives back the control data. */
  lemma ControlTokensParts(c: ControlProps, d: nat)
    ensures ControlTokens(c, d) == Concat(ControlParts(c, d))
  {
    Concat6(SetTokens(c.ControlStyle, "ControlStyle", d),
            FrameRefTokens(c.ControlBackdrop, "ControlBackdrop", d),
            FrameRefTokens(c.ControlPushedBackdrop, "ControlPushedBackdrop", d),
            FrameRefTokens(c.ControlDisabledBackdrop, "ControlDisabledBackdrop", d),
            FrameRefTokens(c.ControlDisabledPushedBackdrop, "ControlDisabledPushedBackdrop", d),
            FrameRefTokens(c.ControlMouseOverHighlight, "ControlMouseOverHighlight", d));
  }

  /** Setting one absent control property (a non-empty style set where there
      was none, or one unset reference) changes exactly its own part of the
      control data, from nothing to the tokens of ControlSettingTokens; every
      line before and after it stays as it was. */
  lemma ControlSettingInserted(c: ControlProps, s: ControlSetting, d: nat)
    requires ControlUnset(c, s)
    requires s.SetStyle? ==> |s.members| > 0
    ensures var ps := ControlParts(c, d);
            var k := ControlSlot(s);
            && k < |ps| && ps[k] == []
            && ControlParts(ApplyControl(c, s), d) == ps[k := ControlSettingTokens(s, d)]
            && ControlTokens(c, d) == Concat(ps[..k]) + Concat(ps[k + 1..])
            && ControlTokens(ApplyControl(c, s), d)
               == Concat(ps[..k]) + ControlSettingTokens(s, d) + Concat(ps[k + 1..])
  {
    var ps := ControlParts(c, d);
    ControlSettingPart(c, s, d);
    ControlTokensParts(c, d);
    ControlTokensParts(ApplyControl(c, s), d);
    PartReplaced(ps, ControlSlot(s), ControlSettingTokens(s, d));
  }

  /** A control setting replaces the empty part at its slot and touches no
      other part. */
  lemma ControlSettingPart(c: ControlProps, s: ControlSetting, d: nat)
    requires ControlUnset(c, s)
    requires s.SetStyle? ==> |s.members| > 0
    ensures ControlSlot(s) < |ControlParts(c, d)| && ControlParts(c, d)[ControlSlot(s)] == []
    ensures ControlParts(ApplyControl(c, s), d) == ControlParts(c, d)[ControlSlot(s) := ControlSettingTokens(s, d)]
  {
    match s
    case SetStyle(ms) => StylePart(c, ms, d);
    case SetBackdrop(r) => BackdropPart(c, r, d);
    case SetPushedBackdrop(r) => PushedBackdropPart(c, r, d);
    case SetDisabledBackdrop(r) => DisabledBackdropPart(c, r, d);
    case SetDisabledPushedBackdrop(r) => DisabledPushedBackdropPart(c, r, d);
    case SetHighlight(r) => HighlightPart(c, r, d);
  }

  // One lemma per control property: setting it fills its own part and no
  // other.

  lemma StylePart(c: ControlProps, ms: seq<string>, d: nat)
    requires c.ControlStyle == [] && |ms| > 0
    ensures ControlParts(c, d)[0] == []
    ensures ControlParts(c.(ControlStyle := ms), d)
         == ControlParts(c, d)[0 := [Indent(d), Text("ControlStyle \"")] + EntryTokens(ms) + [Text("\",\n")]]
  {
    var ps, qs := ControlParts(c, d), ControlParts(c.(ControlStyle := ms), d);
    var x := [Indent(d), Text("ControlStyle \"")] + EntryTokens(ms) + [Text("\",\n")];
    assert qs[0] == x by {
      assert "ControlStyle" + " \"" == "ControlStyle \"";
    }
    assert qs[1..] == ps[1..];
    FirstReplaced(ps, qs, x);
  }

  /** A list that differs from ps only in its first element x is ps with
      its first element replaced by x. */
  lemma FirstReplaced(ps: seq<seq<Token>>, qs: seq<seq<Token>>, x: seq<Token>)
    requires |ps| == |qs| > 0 && qs[0] == x && qs[1..] == ps[1..]
    ensures qs == ps[0 := x]
  {
    assert forall i :: 1 <= i < |qs| ==> qs[i] == qs[1..][i - 1];
  }

  lemma BackdropPart(c: ControlProps, r: Ref, d: nat)
    requires c.ControlBackdrop.None?
    ensures ControlParts(c, d)[1] == []
    ensures ControlParts(c.(ControlBackdrop := Some(r)), d)
         == ControlParts(c, d)[1 := Line(d, "ControlBackdrop " + Quote(Resolve(r)) + ",")]
  {
    assert "ControlBackdrop" + " " == "ControlBackdrop ";
  }

  lemma PushedBackdropPart(c: ControlProps, r: Ref, d: nat)
    requires c.ControlPushedBackdrop.None?
    ensures ControlParts(c, d)[2] == []
    ensures ControlParts(c.(ControlPushedBackdrop := Some(r)), d)
         == ControlParts(c, d)[2 := Line(d, "ControlPushedBackdrop " + Quote(Resolve(r)) + ",")]
  {
    assert "ControlPushedBackdrop" + " " == "ControlPushedBackdrop ";
  }

  lemma DisabledBackdropPart(c: ControlProps, r: Ref, d: nat)
    requires c.ControlDisabledBackdrop.None?
    ensures ControlParts(c, d)[3] == []
    ensures ControlParts(c.(ControlDisabledBackdrop := Some(r)), d)
         == ControlParts(c, d)[3 := Line(d, "ControlDisabledBackdrop " + Quote(Resolve(r)) + ",")]
  {
    assert "ControlDisabledBackdrop" + " " == "ControlDisabledBackdrop ";
  }

  lemma DisabledPushedBackdropPart(c: ControlProps, r: Ref, d: nat)
    requires c.ControlDisabledPushedBackdrop.None?
    ensures ControlParts(c, d)[4] == []
    ensures ControlParts(c.(ControlDisabledPushedBackdrop := Some(r)), d)
         == ControlParts(c, d)[4 := Line(d, "ControlDisabledPushedBackdrop " + Quote(Resolve(r)) + ",")]
  {
    assert "ControlDisabledPushedBackdrop" + " " == "ControlDisabledPushedBackdrop ";
  }

  lemma HighlightPart(c: ControlProps, r: Ref, d: nat)
    requires c.ControlMouseOverHighlight.None?
    ensures ControlParts(c, d)[5] == []
    ensures ControlParts(c.(ControlMouseOverHighlight := Some(r)), d)
         == ControlParts(c, d)[5 := Line(d, "ControlMouseOverHighlight " + Quote(Resolve(r)) + ",")]
  {
    assert "ControlMouseOverHighlight" + " " == "ControlMouseOverHighlight ";
  }
}
