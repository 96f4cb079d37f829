/** The data model of the frame tree: the shared frame properties, the two
    concrete frame variants, the control properties, anchor points, and the
    optional-argument records the constructors take. Colors and vectors
    appear as the canonical text their `toString` gives; font blocks as the
    lines they write. */
module FrameTypes {

  datatype Option<T> = None | Some(value: T)
  {
    function GetOr(default: T): T
    {
      match this
      case Some(v) => v
      case None => default
    }
  }

  /** A value `writeGeneric` accepts: a number or a string. */
  datatype Scalar = Num(n: int) | Str(s: string)

  /** A frame given by object or by a raw name standing for a frame
      (possibly one of the game's built-in frames). */
  datatype Ref = ByName(name: string) | ByFrame(target: Props)

  /** The name a reference is written as. */
  function Resolve(r: Ref): string
  {
    match r
    case ByName(n) => n
    case ByFrame(t) => t.Name
  }

  /** An anchor: my point aligns to parentPoint of parentFrame, offset by
      (xx, yy). Immutable once built. */
  datatype SetPoint = SetPoint(myPoint: string, parentFrame: Ref, parentPoint: string, xx: int, yy: int)

  /** The lines a foreign font description writes. */
  type Block = seq<string>

  /** The properties every frame has. */
  datatype Props = Props(
    Name: string,
    Width: Option<int>,
    Height: Option<int>,
    InheritsFrom: Option<Ref>,
    InheritsWithChildren: bool,
    SetAllPoints: bool,
    DecorateFileNames: bool,
    Children: seq<Frame>,
    Points: seq<SetPoint>,
    FrameFont: Option<Block>,
    FontJustificationH: Option<string>,
    FontJustificationV: Option<string>,
    FontJustificationOffset: Option<string>,
    FontFlags: Option<string>,
    FontColor: Option<string>,
    FontHighlightColor: Option<string>,
    FontDisabledColor: Option<string>,
    FontShadowColor: Option<string>,
    FontShadowOffset: Option<string>)

  /** The concrete frames: a layer carries its layer type, a string its
      optional font. */
  datatype Frame =
    | LayerFrame(props: Props, Type: string)
    | StringFrame(props: Props, Font: Option<Block>)

  /** The properties a control adds: its style set (members in iteration
      order), four backdrops and a mouse-over highlight. */
  datatype ControlProps = ControlProps(
    ControlStyle: seq<string>,
    ControlBackdrop: Option<Ref>,
    ControlPushedBackdrop: Option<Ref>,
    ControlDisabledBackdrop: Option<Ref>,
    ControlDisabledPushedBackdrop: Option<Ref>,
    ControlMouseOverHighlight: Option<Ref>)

  datatype ControlFrame = ControlFrame(props: Props, control: ControlProps)

  /** The optional constructor arguments shared by every frame; None is a
      property the caller did not supply. */
  datatype FrameArgs = FrameArgs(
    Width: Option<int>,
    Height: Option<int>,
    InheritsFrom: Option<Ref>,
    InheritsWithChildren: Option<bool>,
    SetAllPoints: Option<bool>,
    DecorateFileNames: Option<bool>,
    Children: Option<seq<Frame>>,
    Points: Option<seq<SetPoint>>,
    FrameFont: Option<Block>,
    FontJustificationH: Option<string>,
    FontJustificationV: Option<string>,
    FontJustificationOffset: Option<string>,
    FontFlags: Option<string>,
    FontColor: Option<string>,
    FontHighlightColor: Option<string>,
    FontDisabledColor: Option<string>,
    FontShadowColor: Option<string>,
    FontShadowOffset: Option<string>)

  const NoArgs: FrameArgs := FrameArgs(None, None, None, None, None, None, None, None, None,
                                       None, None, None, None, None, None, None, None, None)

  datatype StringArgs = StringArgs(base: FrameArgs, Font: Option<Block>)

  datatype ControlArgs = ControlArgs(
    base: FrameArgs,
    ControlStyle: Option<seq<string>>,
    ControlBackdrop: Option<Ref>,
    ControlPushedBackdrop: Option<Ref>,
    ControlDisabledBackdrop: Option<Ref>,
    ControlDisabledPushedBackdrop: Option<Ref>,
    ControlMouseOverHighlight: Option<Ref>)
}
