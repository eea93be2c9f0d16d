# vg::Shape — a verified model of the shape command recorder

`vg::Shape` is the recording object of the vg-renderer vector-graphics layer.
A client draws into a shape by calling path, fill, stroke, state, transform,
clip, gradient, image-pattern and text methods. Each call is not executed: it
appends one record to a command list, a tag (`ShapeCommand::Enum`) followed by
the call's arguments. The list lives in a memory block that the caller owns.
The shape numbers the gradients and image patterns it declares with two 16-bit
counters. A flag word (`ShapeFlag::Enum`) records whether the list holds text,
dynamic text, gradients or images, plus two policy bits: reordering allowed and
caching enabled.

The model, one Dafny module per concern:

- `vg_types.dfy` (`VgTypes`): the integer widths, and the opaque values that
  records carry (floats as 32-bit patterns, colours, fonts, handles, caps and
  joins, clip rules).
- `shape_command.dfy` (`ShapeCommands`): the tag enumeration, its `uint32_t`
  encoding and the decoding back. The `VG_CONFIG_SHAPE_DYNAMIC_TEXT` switch
  is a `dynamicText` parameter.
- `shape_flag.dfy` (`ShapeFlags`): the six flag bits as `bv32` constants, with
  set and test operations on a flag word.
- `shape_record.dfy` (`ShapeRecords`): the text header `ShapeCommandText`, the
  records, the payload shape each tag is written with, and the counts and
  derived flags of a list of records. It also holds `Consistent`, the
  invariant linking a command list to the counters and flags, and the lemma
  that recording one command keeps it.
- `shape.dfy` (`VgShape`): the caller's memory block, the writer bound to it,
  and the class `Shape`. The class has the header's fields and one method per
  recording call. Each method's postcondition gives the new command list
  (the old one plus exactly one record with that call's tag) and the new
  counters and flags. `Valid()` is the object invariant.
- `shape_scenarios.dfy` (`ShapeScenarios`): short recording sessions on a
  fresh shape, with what their results must be.

`shape.h` declares the recording methods but not their bodies. The model
takes each call to append exactly one record with its tag. A gradient or
pattern declaration steps its counter and returns the counter's old value.
`Text` and `TextBox` set `HasText`, `TextDynamic` sets `HasText` and
`HasDynamicText`, gradient declarations set `HasGradients` and `ImagePattern`
sets `HasImages`. `Reset` empties the command list and clears both counters
and the flags. The counters are `uint16_t`, so a counter equals the number of
its declarations modulo 65536. The clip rule is kept opaque.

## Model

| member | source | states |
|---|---|---|
| ShapeCommands.Encode | src/vg/shape.h:12-54 | every tag's value is its position in declaration order, counting from BeginPath = 0; TextDynamic alone takes the value 32 |
| ShapeCommands.Decode | src/vg/shape.h:12-54 | a value decodes exactly when it is below the number of enumerators of the configuration, and the decoded tag encodes back to that value |
| ShapeCommands.DecodeEncode | src/vg/shape.h:12-54 | decoding the value of an enabled tag yields that tag |
| ShapeCommands.EncodeInjective | src/vg/shape.h:12-54 | distinct tags have distinct values |
| ShapeCommands.EncodeOnto | src/vg/shape.h:12-54 | every value below the enumerator count is some enabled tag's value (consecutive, no gaps) |
| ShapeCommands.DynamicTextRenumbersNothing | src/vg/shape.h:49-53 | enabling dynamic text keeps every other tag's value and adds only TextDynamic, as the last value |
| ShapeFlags.SetFlag | src/vg/shape.h:59-67 | OR-ing a flag into the word sets that flag and leaves every other bit unchanged |
| ShapeFlags.SetFlagKeepsOthers | src/vg/shape.h:59-67 | setting one flag does not change the test of any other flag |
| ShapeFlags.FlagIsSingleBit | src/vg/shape.h:59-67 | each flag is one non-zero bit; the first four are the derived bits and the last two the policy bits |
| ShapeFlags.FlagsAreDisjoint | src/vg/shape.h:59-67 | two different flags share no bit |
| ShapeFlags.SetFlagIdempotent | src/vg/shape.h:59-67 | setting a flag twice equals setting it once |
| ShapeFlags.SetFlagCommutes | src/vg/shape.h:59-67 | setting two flags gives the same word in either order |
| ShapeRecords.RecordFlagsTable | src/vg/shape.h:61-64 | a record sets a derived flag exactly when its tag is one of that flag's tags (text, dynamic text, gradient declarations, image pattern) |
| ShapeRecords.DerivedFlags | src/vg/shape.h:61-64 | the derived flag word of a command list uses no bit outside the four derived flags |
| ShapeRecords.DerivedFlagsAppend | src/vg/shape.h:87 | appending a record ORs that record's flag bits into the derived word |
| ShapeRecords.DerivedFlagsDescribeContents | src/vg/shape.h:61-64 | a derived flag is set for a list exactly when some record of the list has one of the flag's tags |
| ShapeRecords.CountOfAppend | src/vg/shape.h:85-86 | appending a record adds one to the count of its kind and nothing to the others |
| ShapeRecords.Bump | src/vg/shape.h:85-86 | a 16-bit counter moves up by one on a declaration of its kind, wrapping from 65535 to 0, and is unchanged otherwise |
| ShapeRecords.RecordingKeepsConsistent | src/vg/shape.h:80-87 | recording any well-formed command keeps the counters equal to the declaration counts mod 65536 and the derived flags equal to the list's |
| ShapeRecords.PolicyFlagKeepsConsistent | src/vg/shape.h:65-66 | setting a policy bit keeps the shape's bookkeeping consistent |
| VgShape.Shape.constructor | src/vg/shape.h:89-97 | the shape and its writer are bound to the given block, which is left untouched; counters and flags are zero, renderer data null, command list empty |
| VgShape.Shape.Emit | src/vg/shape.h:83-87 | a write appends exactly one record at the writer position and updates the counters and flags for it |
| VgShape.Shape.Reset | src/vg/shape.h:102 | the command list becomes empty, both counters and the flags become zero, and the caller's block is not modified |
| VgShape.Shape.BeginPath | src/vg/shape.h:104 | appends exactly one BeginPath record with no arguments; counters, flags and renderer data unchanged |
| VgShape.Shape.MoveTo | src/vg/shape.h:105 | appends exactly one MoveTo record carrying x, y; bookkeeping unchanged |
| VgShape.Shape.LineTo | src/vg/shape.h:106 | appends exactly one LineTo record carrying x, y; bookkeeping unchanged |
| VgShape.Shape.BezierTo | src/vg/shape.h:107 | appends exactly one BezierTo record carrying both control points and the end point in order; bookkeeping unchanged |
| VgShape.Shape.ArcTo | src/vg/shape.h:108 | appends exactly one ArcTo record carrying the two points and the radius; bookkeeping unchanged |
| VgShape.Shape.Rect | src/vg/shape.h:109 | appends exactly one Rect record carrying x, y, w, h; bookkeeping unchanged |
| VgShape.Shape.RoundedRect | src/vg/shape.h:110 | appends exactly one RoundedRect record carrying x, y, w, h, r; bookkeeping unchanged |
| VgShape.Shape.RoundedRectVarying | src/vg/shape.h:111 | appends exactly one RoundedRectVarying record with the radii in the order top-left, bottom-left, bottom-right, top-right; bookkeeping unchanged |
| VgShape.Shape.Circle | src/vg/shape.h:112 | appends exactly one Circle record carrying centre and radius; bookkeeping unchanged |
| VgShape.Shape.ClosePath | src/vg/shape.h:113 | appends exactly one ClosePath record with no arguments; bookkeeping unchanged |
| VgShape.Shape.FillConvexPathColor | src/vg/shape.h:114 | appends exactly one FillConvexColor record carrying the colour and antialiasing flag; bookkeeping unchanged |
| VgShape.Shape.FillConvexPathGradient | src/vg/shape.h:115 | appends exactly one FillConvexGradient record carrying the gradient handle and antialiasing flag; bookkeeping unchanged |
| VgShape.Shape.FillConvexPathImage | src/vg/shape.h:116 | appends exactly one FillConvexImage record carrying the image-pattern handle and antialiasing flag; bookkeeping unchanged |
| VgShape.Shape.FillConcavePath | src/vg/shape.h:117 | appends exactly one FillConcaveColor record carrying the colour and antialiasing flag; bookkeeping unchanged |
| VgShape.Shape.StrokePath | src/vg/shape.h:118 | appends exactly one Stroke record with colour, width, antialiasing, cap and join, where cap and join default to Butt and Miter |
| VgShape.Shape.PushState | src/vg/shape.h:120 | appends exactly one PushState record with no arguments; bookkeeping unchanged |
| VgShape.Shape.PopState | src/vg/shape.h:121 | appends exactly one PopState record with no arguments; bookkeeping unchanged |
| VgShape.Shape.Scissor | src/vg/shape.h:122 | appends exactly one Scissor record carrying x, y, w, h; bookkeeping unchanged |
| VgShape.Shape.IntersectScissor | src/vg/shape.h:123 | appends exactly one IntersectScissor record carrying x, y, w, h; bookkeeping unchanged |
| VgShape.Shape.Rotate | src/vg/shape.h:124 | appends exactly one Rotate record carrying the angle; bookkeeping unchanged |
| VgShape.Shape.Translate | src/vg/shape.h:125 | appends exactly one Translate record carrying x, y; bookkeeping unchanged |
| VgShape.Shape.Scale | src/vg/shape.h:126 | appends exactly one Scale record carrying x, y; bookkeeping unchanged |
| VgShape.Shape.ApplyTransform | src/vg/shape.h:127 | appends exactly one ApplyTransform record carrying the six floats the pointer addresses; bookkeeping unchanged |
| VgShape.Shape.BeginClip | src/vg/shape.h:129 | appends exactly one BeginClip record carrying the clip rule; bookkeeping unchanged |
| VgShape.Shape.EndClip | src/vg/shape.h:130 | appends exactly one EndClip record with no arguments; bookkeeping unchanged |
| VgShape.Shape.ResetClip | src/vg/shape.h:131 | appends exactly one ResetClip record with no arguments; bookkeeping unchanged |
| VgShape.Shape.LinearGradient | src/vg/shape.h:133 | appends one LinearGradient declaration and returns as handle the number of gradients declared before it (below 65536); the gradient counter steps by one and HasGradients is set |
| VgShape.Shape.BoxGradient | src/vg/shape.h:134 | as LinearGradient, for a BoxGradient declaration with six geometry values |
| VgShape.Shape.RadialGradient | src/vg/shape.h:135 | as LinearGradient, for a RadialGradient declaration |
| VgShape.Shape.ImagePattern | src/vg/shape.h:136 | appends one ImagePattern declaration and returns as handle the number of patterns declared before it (below 65536); the pattern counter steps by one and HasImages is set |
| VgShape.Shape.Text | src/vg/shape.h:138 | appends one TextStatic record whose header carries font, alignment, colour, position and len = text length, followed by the text bytes; sets HasText only |
| VgShape.Shape.TextBox | src/vg/shape.h:139 | as Text, with the break width in the header and tag TextBoxStatic |
| VgShape.Shape.TextDynamic | src/vg/shape.h:141-143 | exists only with dynamic text enabled; appends one TextDynamic record whose header len holds the string id, with no inline text; sets HasText and HasDynamicText |
| VgShape.Shape.SetPolicyFlag | src/vg/shape.h:87 | OR-ing AllowCommandReordering or EnableCaching into the flag word changes nothing else |
| VgShape.FlagsDescribeCommands | src/vg/shape.h:87 | on a valid shape, each derived flag is set exactly when the command list holds a record of its kind |
| VgShape.CountersCountDeclarations | src/vg/shape.h:85-86 | below 65536 declarations each counter equals the number of gradient or image-pattern declarations |
| ShapeScenarios.FilledTriangle | src/vg/shape.h:104-114 | BeginPath, MoveTo, two LineTo, ClosePath and a colour fill give six records in call order, the last carrying the colour and aa = true |
| ShapeScenarios.GradientsThenPattern | src/vg/shape.h:133-136 | two gradients then one pattern return handles 0, 1 and 0 and leave counters 2 and 1, with HasGradients and HasImages set and HasText clear |
| ShapeScenarios.StrokeDefaults | src/vg/shape.h:118 | a stroke with cap and join omitted records Butt and Miter |
| ShapeScenarios.TextFlags | src/vg/shape.h:138-142 | one static text sets HasText but not HasDynamicText, one dynamic text sets both; len is the text length or the string id |
| ShapeScenarios.ResetAfterRecording | src/vg/shape.h:89-102 | after a BoxGradient, a FillConvexPath with its handle, a Text and setting EnableCaching, Reset leaves an empty list, zero counters and no flags, and the shape is still bound to the caller's block |

## Left out

- The method bodies (`shape.cpp`) are not part of this model. The effect of each call on the command list, the counters and the flags, and the effect of `Reset`, are the assumptions stated above.
- `bx::MemoryBlockI` and `bx::MemoryWriter` are foreign; the block is a sequence of records and the writer a block plus a position. Growth, allocation failure and the byte layout of records are not modelled; a write drops whatever the block held past the writer's position.
- Payload byte sizes and encodings: a record holds its call's arguments as values, in parameter order; floats are opaque 32-bit patterns and are never computed with.
- `m_RendererData`: an opaque pointer, modelled only as null after construction and untouched by every recording call.
- `~Shape`: its body is empty; Dafny has no destructors, and nothing in the model releases the block.
- The overloads of `FillConvexPath` become `FillConvexPathColor`, `FillConvexPathGradient` and `FillConvexPathImage`, since Dafny has no overloading.
- VgShape.Shape.Text: the `text`/`end` pointer pair is a byte sequence, and resolving a null `end` is not modelled. The text must be shorter than 2^32 bytes because `len` is a `uint32_t`. The header's `breakWidth`, which `Text` takes no argument for, is stored as +0.0.
- VgShape.Shape.TextDynamic: `breakWidth` is stored as +0.0 for the same reason. The interned-string table that resolves the id belongs to the renderer.
- VgShape.Shape.SetPolicyFlag: the C++ flag word is a public field, and callers could OR any bit into it. The model accepts only the two policy bits, so the derived bits always describe the command list.
- VgShape.Shape.ApplyTransform: the `const float*` argument is a sequence of at least six floats, of which the first six are recorded.
- `VG_CONFIG_SHAPE_DYNAMIC_TEXT` is a compile-time switch; here it is the `dynamicText` parameter of the tag functions and a constant of each shape, fixed at construction.
- Balanced push/pop and clip begin/end, and fills following a path, are the caller's responsibility. The recorder does not check them, so the model does not either.
- The consumer that decodes and renders the command list, font layout and the string table belong to the renderer and are not part of this model.
