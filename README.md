# FDF frame serialiser

A Dafny model of the core of tsFDFGenerator. This core turns a tree of
Warcraft III UI frame objects into FDF text. The model covers:

- the properties every frame shares (`FrameBase`) and their writers;
- the control properties (`FrameControlBase`);
- anchor points (`SetPoint`);
- the two concrete frames, the text element `String` (`FrameString`) and the
  drawable `Layer` (`FrameLayer`).

Every frame writes a header line, its own properties one indentation level
deeper, the blocks of its children (recursively, in insertion order) and a
closing brace at its own depth.

The model has these parts:

- **StringStream.** The output stream the writers call, modelled as the class
  `Sink`. It holds a token log `out` (an indentation mark at a given depth, a
  text fragment, or the line ending `writeLine` adds) and the current `depth`.
  Its methods are `WriteIndentation`, `WriteString`, `WriteLine`, `PushIndent`
  and `PopIndent`. Lines are counted as `writeLine` endings plus line feeds
  inside written text.
- **FrameTypes.** The frame tree as datatype values.
  - `Props` holds the fields of `FrameBase`.
  - `Frame` is either `LayerFrame` or `StringFrame`.
  - `ControlProps` holds the fields of `FrameControlBase`.
  - `SetPoint` is the anchor record.
  - A reference is "a frame or a raw name" (`Ref`) and is resolved to a name.
- **Format.** Quoting, decimal formatting of integers, and the `|`-joined
  form of a style set, together with `Split`, its inverse.
- **SetPoints, FrameBase, FrameControlBase, Frames.** Each writer is a
  module-level method that takes the `Sink` as a parameter and writes
  through its five methods. Its `ensures` states the new log as the old log plus a
  specification function of the inputs and the old depth, and says the depth
  is unchanged. The lemmas beside each specification function prove what the
  source promises:
  - what is written, and in which order;
  - nothing written for an absent value, one line for a present one;
  - the quoting rules;
  - `|` separators that split back into the members;
  - the nesting depth of headers, bodies and children;
  - line counts;
  - setting one absent property adds exactly its one line at its place in
    the fixed order, in the common data, the control data and the whole
    frame's block, and changes no other line;
  - children emitted in insertion order, with `addChild` inserting the
    child's block just before the closing brace.

Some points of the written form, as the code has them:

- `FrameLayer` writes `Layer "<Type>"` with no name slot
  (src/fdf/FrameLayer.ts:29). `Frames.ArtworkScenario` states this header.
- `FrameString` writes `String "<Name>"` with no type tag
  (src/fdf/FrameString.ts:28).
- `writeInheritsFrom` is declared `private` (src/fdf/FrameBase.ts:145), yet
  both subclasses call it. Here it is the shared writer
  `FrameBase.WriteInheritsFrom`.

## Model

| member | source | states |
|---|---|---|
| StringStream.Sink.WriteIndentation | src/fdf/FrameBase.ts:74 | appends one indentation mark at the current depth; depth unchanged |
| StringStream.Sink.WriteString | src/fdf/FrameBase.ts:75 | appends the text as one fragment; depth unchanged |
| StringStream.Sink.WriteLine | src/fdf/FrameBase.ts:77 | appends the text followed by a line ending; depth unchanged |
| StringStream.Sink.PushIndent | src/fdf/FrameLayer.ts:19 | writes nothing and deepens the depth by one |
| StringStream.Sink.PopIndent | src/fdf/FrameLayer.ts:23 | writes nothing and returns the depth by one level |
| Format.IntToStringPlain | src/fdf/FrameBase.ts:116 | the text of any integer is non-empty and holds no quote, no line break and no bar, so numbers are written bare on one line |
| Format.SplitJoin | src/fdf/FrameBase.ts:120-131 | joining k >= 1 bar-free members with `\|` and splitting the result again gives back exactly the members, in order |
| Format.JoinBarCount | src/fdf/FrameBase.ts:120-131 | the joined text of k bar-free members holds exactly k - 1 bars |
| SetPoints.WriteSetPoint | src/fdf/subtypes/SetPoint.ts:21-27 | appends the indentation mark and the three fragments of the anchor line; depth unchanged |
| SetPoints.SetPointLine | src/fdf/subtypes/SetPoint.ts:21-27 | an anchor whose names hold no line break is exactly one line at the current depth |
| SetPoints.SetPointText | src/fdf/subtypes/SetPoint.ts:22-26 | the written text is `SetPoint <myPoint>, "<parent>", <parentPoint>, <xx>, <yy>, ` and a line feed; only the parent is quoted; a space precedes the line feed |
| SetPoints.ParentNameResolution | src/fdf/subtypes/SetPoint.ts:25 | the parent is written as its raw name when given by name, otherwise as the frame's Name |
| SetPoints.SetPointExample | src/fdf/subtypes/SetPoint.ts:21-27 | (TOPLEFT, "Parent", BOTTOMRIGHT, 0, -5) writes `SetPoint TOPLEFT, `, `"Parent", `, `BOTTOMRIGHT, 0, -5, ` and a line feed |
| FrameBase.NewProps | src/fdf/FrameBase.ts:69-72 | the name is the argument; every supplied argument is kept; the flags default to false and the children and anchors to empty |
| FrameBase.DefaultsWriteNothing | src/fdf/FrameBase.ts:43-47 | a frame built without arguments has both flags off, no children, no anchors and no inheritance, and writes no common data |
| FrameBase.AddChild | src/fdf/FrameBase.ts:60-62 | the child is appended after the existing children; all other properties and the frame's kind are unchanged |
| FrameBase.WriteGeneric | src/fdf/FrameBase.ts:110-119 | appends the tokens of GenericTokens: nothing when absent, otherwise `<header> <value>,` on one line |
| FrameBase.ValueQuoting | src/fdf/FrameBase.ts:113-117 | a string is quoted unless bare output is asked for; a number is never quoted and holds no quote or line break |
| FrameBase.GenericLine | src/fdf/FrameBase.ts:110-119 | nothing is written exactly when the value is absent (0 and "" are present); a present value writes exactly one line `<header> <value>,` at the current depth |
| FrameBase.WriteColor | src/fdf/FrameBase.ts:132-137 | appends nothing for an absent color, otherwise `<header> <color text>,` on one line; depth unchanged |
| FrameBase.WriteVector | src/fdf/FrameBase.ts:138-143 | appends nothing for an absent vector, otherwise `<header> <vector text>,` on one line; depth unchanged |
| FrameBase.OpaqueLine | src/fdf/FrameBase.ts:132-143 | a color or vector writes nothing exactly when absent, otherwise one line holding its text unquoted |
| FrameBase.WriteFrame | src/fdf/FrameBase.ts:104-109 | appends nothing for an absent reference, otherwise `<header> "<name>",` on one line; depth unchanged |
| FrameBase.FrameRefLine | src/fdf/FrameBase.ts:104-109 | a reference writes nothing exactly when absent, otherwise one line with the raw name or the frame's Name in quotes |
| FrameBase.WriteSet | src/fdf/FrameBase.ts:120-131 | the loop with the `first` flag appends the set line: the members in order with a bar before every member but the first |
| FrameBase.EntriesText | src/fdf/FrameBase.ts:123-128 | the members written one by one spell out their bar-joined form |
| FrameBase.SetIndents | src/fdf/FrameBase.ts:120-131 | the only indentation of a set line is its first, at the current depth |
| FrameBase.SetWritten | src/fdf/FrameBase.ts:120-131 | a non-empty set writes `<header> "m1\|...\|mk",` and a line feed |
| FrameBase.SetOneLine | src/fdf/FrameBase.ts:120-131 | a non-empty set whose members hold no line break is exactly one line |
| FrameBase.SetLine | src/fdf/FrameBase.ts:120-131 | an empty set writes nothing, and only an empty one does; otherwise one line whose quoted part splits back into the members with k - 1 bars |
| FrameBase.WriteInheritsFrom | src/fdf/FrameBase.ts:145-151 | appends the inheritance clause fragments, or nothing when InheritsFrom is unset |
| FrameBase.InheritsText | src/fdf/FrameBase.ts:145-151 | the clause is empty without a parent, otherwise ` INHERITS`, ` WITHCHILDREN` only when the flag is set, then the parent's name quoted |
| FrameBase.HeaderLine | src/fdf/FrameBase.ts:73-78 | a header is its opening words, the inheritance clause and ` {`; it is one line at the current depth when its text holds no line break |
| FrameBase.WriteBaseHeader | src/fdf/FrameBase.ts:73-78 | appends the `Frame` header tokens; depth unchanged |
| FrameBase.BaseHeaderLine | src/fdf/FrameBase.ts:73-78 | the header reads `Frame "<type>" "<Name>"`, then the inheritance clause and ` {`, on one line |
| FrameBase.WriteFlag | src/fdf/FrameBase.ts:80-81 | a flag line is written only when the flag is true |
| FrameBase.WriteBlock | src/fdf/FrameBase.ts:97 | a font object's lines are appended, each indented at the current depth |
| FrameBase.WriteOptBlock | src/fdf/FrameBase.ts:97 | the font object is written only when one is set |
| FrameBase.BlockLines | src/fdf/FrameBase.ts:97 | a font object writes one line per entry |
| FrameBase.BlockIndents | src/fdf/FrameBase.ts:97 | every font object line sits at the current depth |
| FrameBase.WritePoints | src/fdf/FrameBase.ts:85-87 | every anchor is written, in list order |
| FrameBase.PointsLines | src/fdf/FrameBase.ts:85-87 | the anchors take exactly one line each |
| FrameBase.PointsIndents | src/fdf/FrameBase.ts:85-87 | every anchor line sits at the current depth |
| FrameBase.WriteFontData | src/fdf/FrameBase.ts:91-102 | appends the font properties in their fixed order: the four colors, shadow offset, font object, justification offset, H, V, flags |
| FrameBase.FontColorLines | src/fdf/FrameBase.ts:92-96 | the colors and the shadow offset take one line each when present and none when absent |
| FrameBase.FontTextLines | src/fdf/FrameBase.ts:97-101 | the font object takes its own lines; the justification offset, H, V and flags take one line each when present |
| FrameBase.FontLineCount | src/fdf/FrameBase.ts:91-102 | the font data writes exactly one line per present property plus the font object's lines |
| FrameBase.FontIndents | src/fdf/FrameBase.ts:91-102 | all font data sits at the current depth |
| FrameBase.FontFlagsAppended | src/fdf/FrameBase.ts:101 | FontFlags is written last and quoted: setting it appends `FontFlags "<flags>",` at the very end of the common data |
| FrameBase.WriteCommonData | src/fdf/FrameBase.ts:79-90 | appends, in order: DecorateFileNames, SetAllPoints, Width, Height, every anchor, the font data |
| FrameBase.FlagsAndSizeLines | src/fdf/FrameBase.ts:80-83 | each true flag and each present size takes one line; false flags and absent sizes write nothing |
| FrameBase.CommonLineCount | src/fdf/FrameBase.ts:79-90 | the common data writes exactly one line per true flag, present size, anchor and font property, plus the font object's lines |
| FrameBase.CommonIndents | src/fdf/FrameBase.ts:79-90 | all common data sits at the current depth |
| FrameBase.SettingInserted | src/fdf/FrameBase.ts:79-102 | setting any one absent single-line property (the two flags, Width, Height, the four font colors, the shadow offset, the justification offset, FontJustificationH/V, FontFlags) changes only its own part of the common data: from nothing to exactly the line of `SettingText`, with every line before and after as it was. `SettingText` writes colors, vectors and FontJustificationH/V bare (`FontJustificationH <v>,`) and FontFlags quoted |
| FrameBase.CommonTokensParts | src/fdf/FrameBase.ts:79-102 | the common data is its fifteen parts (flags, sizes, anchors, then the font data) written in that order |
| FrameBase.NothingSetWritesNothing | src/fdf/FrameBase.ts:79-102 | with no flag, size, anchor or font property set, the common data is empty |
| FrameControlBase.NewControl | src/fdf/FrameControlBase.ts:28-31 | the shared properties as for any frame; every supplied control argument is kept; the style set defaults to empty |
| FrameControlBase.FreshControlWritesNothing | src/fdf/FrameControlBase.ts:19-34 | a control built without control arguments has an empty style set and writes no control line at all |
| FrameControlBase.WriteBackdrops | src/fdf/FrameControlBase.ts:36-39 | appends the four backdrops in order: normal, pushed, disabled, disabled-pushed |
| FrameControlBase.WriteControl | src/fdf/FrameControlBase.ts:33-42 | appends the style set, the four backdrops and the mouse-over highlight, in this order; depth unchanged |
| FrameControlBase.StyleLines | src/fdf/FrameControlBase.ts:34 | the style set takes one line when non-empty and none when empty |
| FrameControlBase.BackdropLines | src/fdf/FrameControlBase.ts:36-39 | each present backdrop takes one line; absent ones write nothing |
| FrameControlBase.ControlLineCount | src/fdf/FrameControlBase.ts:33-42 | the control data takes one line for a non-empty style set plus one per present reference |
| FrameControlBase.BackdropIndents | src/fdf/FrameControlBase.ts:36-39 | every backdrop line sits at the current depth |
| FrameControlBase.ControlIndents | src/fdf/FrameControlBase.ts:33-42 | every control line sits at the current depth |
| FrameControlBase.ControlSettingInserted | src/fdf/FrameControlBase.ts:33-42 | setting one absent control property (a non-empty style set where there was none, or one unset backdrop or highlight) changes only its own part of the control data: from nothing to exactly `ControlSettingTokens`, that is the style line or `<header> "<resolved name>",`, with every line before and after as it was |
| FrameControlBase.ControlTokensParts | src/fdf/FrameControlBase.ts:33-42 | the control data is its six parts (style set, four backdrops, highlight) written in that order |
| FrameControlBase.ControlWritesNothing | src/fdf/FrameControlBase.ts:33-42 | the control writes nothing if and only if the style set is empty and no reference is set |
| FrameControlBase.BackdropFollowsStyle | src/fdf/FrameControlBase.ts:34-36 | a set ControlBackdrop line comes right after the style line and names the raw name or the frame's Name in quotes |
| Frames.NewString | src/fdf/FrameString.ts:11-14 | a text frame carries the given name, or "" when none is given, every supplied argument, and its font |
| Frames.NewLayer | src/fdf/FrameLayer.ts:11-15 | a layer always has the empty name, stores its type and every supplied argument |
| Frames.FreshFramesAreBare | src/fdf/FrameLayer.ts:11-25 | a layer or text frame built without arguments writes exactly the tokens of its header line `Layer "<Type>" {` or `String "<name>" {` with its line ending, then the brace `}` and a line feed |
| Frames.WriteStringHeader | src/fdf/FrameString.ts:26-31 | appends the text frame's header tokens; depth unchanged |
| Frames.StringHeaderLine | src/fdf/FrameString.ts:26-31 | the header is `String "<Name>"`, the inheritance clause and ` {`, with no type tag, on one line at the frame's depth |
| Frames.WriteLayerHeader | src/fdf/FrameLayer.ts:27-32 | appends the layer's header tokens; depth unchanged |
| Frames.LayerHeaderLine | src/fdf/FrameLayer.ts:27-32 | the header is `Layer "<Type>"`, the inheritance clause and ` {`, with no name slot, on one line at the frame's depth |
| Frames.InheritsWithChildrenHeader | src/fdf/FrameBase.ts:145-151 | inheriting from a frame with its children puts ` INHERITS WITHCHILDREN "<parent Name>"` between the name and ` {` |
| Frames.WriteClosing | src/fdf/FrameString.ts:23 | appends the closing brace at the current depth |
| Frames.ClosingLine | src/fdf/FrameString.ts:23 | the closing brace is one line at the frame's own depth |
| Frames.Compile | src/fdf/FrameBase.ts:152 | `compileToStringStream` appends exactly the frame's block and leaves the depth as it found it |
| Frames.CompileLayer | src/fdf/FrameLayer.ts:17-25 | a layer appends its header, then its common data and children one level deeper, then its closing brace; depth restored |
| Frames.WriteLayerBody | src/fdf/FrameLayer.ts:19-23 | between push and pop: the common data, then the children, one level deeper; depth restored |
| Frames.CompileString | src/fdf/FrameString.ts:16-24 | a text frame appends its header, then common data, font and children one level deeper, then its closing brace; depth restored |
| Frames.WriteStringBody | src/fdf/FrameString.ts:18-22 | between push and pop: the common data, the font when set, then the children, one level deeper; depth restored |
| Frames.PrintChildren | src/fdf/FrameBase.ts:63-67 | every child's block, each exactly once and in list order, at the current depth; depth unchanged |
| Frames.PrintChild | src/fdf/FrameBase.ts:64-66 | one turn of the loop: the next child's block follows the blocks of the children before it |
| Frames.EmitNesting | src/fdf/FrameString.ts:16-24 | header and closing brace sit at the frame's depth, the body at least one level deeper, the whole block never shallower |
| Frames.BodyNesting | src/fdf/FrameLayer.ts:19-23 | common data, font and children all sit at least one level deeper than the frame |
| Frames.ChildrenNesting | src/fdf/FrameBase.ts:63-67 | children's blocks sit at the depth they are printed at or deeper |
| Frames.FrameEdgeLines | src/fdf/FrameLayer.ts:17-25 | a clean frame's header and closing brace take one line each |
| Frames.EmitLineCount | src/fdf/FrameLayer.ts:17-25 | a clean frame's block has exactly two lines plus one per common-data line, font line and child line |
| Frames.BodyLineCount | src/fdf/FrameString.ts:18-22 | the body's lines are the common data's, the font's and the children's |
| Frames.ChildrenLineCount | src/fdf/FrameBase.ts:63-67 | the children's blocks take the sum of their own line counts |
| Frames.ChildrenAgree | src/fdf/FrameBase.ts:63-67 | the children's output depends only on the children: equal first n children print identically |
| Frames.ChildrenPrefix | src/fdf/FrameBase.ts:63-67 | the blocks of the first i children are a prefix of the blocks of the first n >= i children |
| Frames.ChildrenIgnored | src/fdf/FrameBase.ts:79-90 | the inheritance clause and the common data do not depend on the children |
| Frames.AddChildEmits | src/fdf/FrameBase.ts:60-67 | after `addChild` the block is the old block minus its closing brace, the new child's block one level deeper, then the closing brace |
| Frames.BareFrameTwoLines | src/fdf/FrameString.ts:16-24 | a frame with nothing set, no children and no font writes its header and its closing brace and nothing else |
| Frames.BareFrameLineCount | src/fdf/FrameLayer.ts:17-25 | such a frame, when its names hold no line break, writes exactly two lines |
| Frames.TitleBlock | src/fdf/FrameString.ts:16-31 | the text frame "Title" with a font color writes `String "Title" {`, its FontColor line one level deeper, and `}` |
| Frames.ArtworkBlock | src/fdf/FrameLayer.ts:17-32 | an ARTWORK layer of 100 by 50 with SetAllPoints writes `Layer "ARTWORK" {`, then SetAllPoints, Width 100 and Height 50 one level deeper, then `}` |
| Frames.ArtworkScenario | src/fdf/FrameLayer.ts:17-25 | with the title added as its child, the title's block follows the layer's property lines one level deeper, and each block closes at its own depth |
| Frames.SettingInLayer | src/fdf/FrameLayer.ts:17-25 | setting one absent single-line property of a layer adds exactly its `SettingText` line, one level deeper, at its place in the common data; the header, the other property lines, the children's blocks and the closing brace are unchanged |
| Frames.SettingInString | src/fdf/FrameString.ts:16-24 | the same for a text frame: the one new line joins the common data, and the header, font, children and closing brace are unchanged |

## Left out

- The stream class itself (StringStream.ts) is not part of this model. The
  whitespace of one indentation level is abstract, as an indentation mark
  carrying its depth.
- `writeLine(s)` and writing `s + "\n"` are kept distinct. A line ending from
  `writeLine` is a separate token, while a line feed written by `writeString`
  stays inside the text.
- `toString` of `RGBColor`, `Vector2` and `Vector4` is foreign code. A color
  or vector is the text it prints.
- `compileToStringStream` of `FrameFont` and `Font` is foreign code. Each is
  a block of lines, written one indented line per entry.
- JavaScript formats numbers as floating point. Widths, heights and anchor
  offsets are integers here, in decimal with a leading minus sign.
- Construction by `Object.assign` is modelled as explicit optional
  arguments. An argument explicitly set to `undefined` is the same as one
  not supplied. A `Children` or `Points` array explicitly set to `undefined`
  would make the source fail when it prints, and this is not modelled.
- A JavaScript `Set` is a sequence of members in iteration order.
  Duplicates are not excluded. The bar-count and split properties assume no
  member contains `|`.
- Frames are immutable values, and `addChild` returns the extended frame.
  Aliasing is not modelled, in two forms. First, the same frame object
  shared by two parents and changed in place. Second, a reference by object
  (`InheritsFrom`, an anchor's `parentFrame`, the backdrops and the
  highlight): the source reads the target's `.Name` when it writes
  (src/fdf/FrameBase.ts:107,149; src/fdf/subtypes/SetPoint.ts:25), so a
  later rename shows in the output. `Ref.ByFrame(target)` holds the target
  as it was when the reference was made. Cyclic trees are not modelled
  either, since the datatype is acyclic.
- The string-literal enums are plain strings:
  - the layer type (only `ARTWORK` in the source);
  - anchor points;
  - justification;
  - control styles;
  - built-in frame names.
- The concrete control frames that call `writeControl` are not part of this
  model. Neither are the other frame types, file output and the command
  line.
- NothingSetWritesNothing: proves one direction only. The converse fails,
  because a font object with no lines also writes nothing.
  `FrameControlBase.ControlWritesNothing` states both directions for the
  control properties.
- Line counts (`CommonLineCount`, `EmitLineCount` and the like) assume that
  no written name or value holds a line feed of its own (`CleanProps`,
  `CleanFrame`). The source does not escape such characters.
