/** Emission of an anchor point: one line
    `SetPoint <myPoint>, "<parent>", <parentPoint>, <xx>, <yy>, ` at the
    current depth, written as three fragments. */
module SetPoints {
  import opened StringStream
  import opened FrameTypes
  import opened Format

  function SetPointTokens(p: SetPoint, d: nat): seq<Token>
  {
    [ Indent(d),
      Text("SetPoint " + p.myPoint + ", "),
      Text(Quote(Resolve(p.parentFrame)) + ", "),
      Text(p.parentPoint + ", " + IntToString(p.xx) + ", " + IntToString(p.yy) + ", \n") ]
  }

  method WriteSetPoint(str: Sink, p: SetPoint)
    modifies str
    ensures str.out == old(str.out) + SetPointTokens(p, old(str.depth))
    ensures str.depth == old(str.depth)
  {
    str.WriteIndentation();
    str.WriteString("SetPoint " + p.myPoint + ", ");
    str.WriteString(Quote(Resolve(p.parentFrame)) + ", ");
    str.WriteString(p.parentPoint + ", " + IntToString(p.xx) + ", " + IntToString(p.yy) + ", \n");
  }

  /** The anchor names and the parent's name are free of line breaks. */
  predicate CleanPoint(p: SetPoint)
  {
    NoBreak(p.myPoint) && NoBreak(Resolve(p.parentFrame)) && NoBreak(p.parentPoint)
  }

  /** The three fragments of a clean anchor hold no line break. */
  lemma SetPointFragmentsPlain(p: SetPoint)
    requires CleanPoint(p)
    ensures NoBreak("SetPoint " + p.myPoint + ", ")
    ensures NoBreak(Quote(Resolve(p.parentFrame)) + ", ")
    ensures NoBreak(p.parentPoint + ", " + IntToString(p.xx) + ", " + IntToString(p.yy) + ", ")
  {
    IntToStringPlain(p.xx);
    IntToStringPlain(p.yy);
  }

  /** An anchor is exactly one line at the current depth. */
  lemma SetPointLine(p: SetPoint, d: nat)
    requires CleanPoint(p)
    ensures OneLine(SetPointTokens(p, d), d)
  {
    var y := p.parentPoint + ", " + IntToString(p.xx) + ", " + IntToString(p.yy);
    SetPointFragmentsPlain(p);
    FragmentsLine(d, "SetPoint " + p.myPoint + ", ", Quote(Resolve(p.parentFrame)) + ", ", y + ", ");
    assert y + ", " + "\n" == y + ", \n";
  }

  /** The text of an anchor's line: the two anchor names bare, the parent's
      name quoted, then the two offsets, each followed by a comma and a
      space. */
  lemma SetPointText(p: SetPoint, d: nat)
    ensures Written(SetPointTokens(p, d))
         == "SetPoint " + p.myPoint + ", " + Quote(Resolve(p.parentFrame)) + ", "
            + p.parentPoint + ", " + IntToString(p.xx) + ", " + IntToString(p.yy) + ", \n"
  {
    var ts := SetPointTokens(p, d);
    var w := [ts[0], ts[1], ts[2]];
    WrittenParts(ts[0], ts[1], ts[2], ts[3]);
    assert ts == [ts[0], ts[1], ts[2], ts[3]];
  }

  /** The parent is written by its raw name or, for a frame, by its Name. */
  lemma ParentNameResolution(p: SetPoint, d: nat)
    ensures p.parentFrame.ByName? ==> SetPointTokens(p, d)[2] == Text(Quote(p.parentFrame.name) + ", ")
    ensures p.parentFrame.ByFrame? ==> SetPointTokens(p, d)[2] == Text(Quote(p.parentFrame.target.Name) + ", ")
  {
  }

  /** The anchor (TOPLEFT, "Parent", BOTTOMRIGHT, 0, -5), fragment by
      fragment. */
  lemma SetPointExample(d: nat)
    ensures SetPointTokens(SetPoint("TOPLEFT", ByName("Parent"), "BOTTOMRIGHT", 0, -5), d)
         == [Indent(d), Text("SetPoint TOPLEFT, "), Text("\"Parent\", "), Text("BOTTOMRIGHT, 0, -5, \n")]
  {
    assert IntToString(0) == "0" && IntToString(-5) == "-5" by {
      assert DigitChar(0) == '0' && DigitChar(5) == '5';
    }
    assert "SetPoint " + "TOPLEFT" + ", " == "SetPoint TOPLEFT, ";
    assert Quote("Parent") + ", " == "\"Parent\", ";
    assert "BOTTOMRIGHT" + ", " + "0" + ", " + "-5" + ", \n" == "BOTTOMRIGHT, 0, -5, \n";
  }
}
