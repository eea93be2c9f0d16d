/** The command recorder of the vector-graphics layer (`vg::Shape`): each
    recording call appends one tagged record to a command list that lives in
    a memory block the shape does not own, declarations of gradients and
    image patterns are numbered by two 16-bit counters, and a flag word
    summarises what has been recorded. */
module VgShape {
  import opened VgTypes
  import opened ShapeCommands
  import opened ShapeFlags
  import opened ShapeRecords

  /** The caller's memory block (`bx::MemoryBlockI`), seen as the records
      written into it. */
  class MemoryBlock {
    var records: seq<Record>

    constructor ()
      ensures records == []
    {
      records := [];
    }
  }

  /** The writer bound to a block (`bx::MemoryWriter`): where the next record goes. */
  datatype MemoryWriter = MemoryWriter(block: MemoryBlock, pos: nat)

  class Shape {
    /** The command list; the shape holds it but does not own it. */
    const cmdList: MemoryBlock
    var cmdListWriter: MemoryWriter
    /** The renderer's private data, opaque to the shape. */
    var rendererData: object?
    var numGradients: uint16
    var numImagePatterns: uint16
    var flags: bv32
    /** Whether VG_CONFIG_SHAPE_DYNAMIC_TEXT is enabled. */
    const dynamicText: bool

    ghost predicate WriterInBlock()
      reads this, cmdList
    {
      cmdListWriter.block == cmdList && cmdListWriter.pos <= |cmdList.records|
    }

    /** The records written since construction or the last Reset. */
    function Commands(): seq<Record>
      reads this, cmdList
      requires WriterInBlock()
    {
      cmdList.records[..cmdListWriter.pos]
    }

    /** The writer writes into the shape's own block, and the counters and
        flags are consistent with the records written. */
    ghost predicate Valid()
      reads this, cmdList
    {
      && WriterInBlock()
      && Consistent(Commands(), numGradients, numImagePatterns, flags, dynamicText)
    }

    /** The fields a call that declares nothing and sets no flag leaves alone. */
    ghost function Bookkeeping(): (bv32, uint16, uint16, object?)
      reads this
    {
      (flags, numGradients, numImagePatterns, rendererData)
    }

    constructor (memBlock: MemoryBlock, dynamicText: bool)
      ensures cmdList == memBlock && cmdListWriter == MemoryWriter(memBlock, 0)
      ensures numGradients == 0 && numImagePatterns == 0 && flags == 0 && rendererData == null
      ensures this.dynamicText == dynamicText
      ensures memBlock.records == old(memBlock.records)
      ensures Valid() && Commands() == []
    {
      cmdList := memBlock;
      cmdListWriter := MemoryWriter(memBlock, 0);
      numGradients := 0;
      numImagePatterns := 0;
      flags := 0;
      rendererData := null;
      this.dynamicText := dynamicText;
    }

    /** Writes one record at the writer's position and keeps the counters
        and derived flags in step with it. */
    method Emit(r: Record)
      requires Valid() && Fits(r) && Enabled(r.tag, dynamicText)
      modifies this, cmdList
      ensures Valid()
      ensures Commands() == old(Commands()) + [r]
      ensures flags == old(flags) | RecordFlags(r)
      ensures numGradients == Bump(old(numGradients), r, GradientTags)
      ensures numImagePatterns == Bump(old(numImagePatterns), r, PatternTags)
      ensures rendererData == old(rendererData)
    {
      ghost var cs := Commands();
      RecordingKeepsConsistent(cs, numGradients, numImagePatterns, flags, dynamicText, r);
      cmdList.records := cmdList.records[..cmdListWriter.pos] + [r];
      cmdListWriter := cmdListWriter.(pos := cmdListWriter.pos + 1);
      flags := flags | RecordFlags(r);
      numGradients := Bump(numGradients, r, GradientTags);
      numImagePatterns := Bump(numImagePatterns, r, PatternTags);
      assert Commands() == cs + [r];
    }

    /** Empties the command list and clears the counters and flags; the block
        itself is left as it is. */
    method Reset()
      requires Valid()
      modifies this
      ensures Valid() && Commands() == []
      ensures numGradients == 0 && numImagePatterns == 0 && flags == 0
      ensures cmdListWriter.block == cmdList && cmdList.records == old(cmdList.records)
      ensures rendererData == old(rendererData)
    {
      cmdListWriter := cmdListWriter.(pos := 0);
      numGradients := 0;
      numImagePatterns := 0;
      flags := 0;
    }

    method BeginPath()
      requires Valid()
      modifies this, cmdList
      ensures Valid() && Commands() == old(Commands()) + [Record(ShapeCommand.BeginPath, NoArgs)]
      ensures Bookkeeping() == old(Bookkeeping())
    {
      Emit(Record(ShapeCommand.BeginPath, NoArgs));
    }

    method MoveTo(x: Float, y: Float)
      requires Valid()
      modifies this, cmdList
      ensures Valid() && Commands() == old(Commands()) + [Record(ShapeCommand.MoveTo, Floats([x, y]))]
      ensures Bookkeeping() == old(Bookkeeping())
    {
      Emit(Record(ShapeCommand.MoveTo, Floats([x, y])));
    }

    method LineTo(x: Float, y: Float)
      requires Valid()
      modifies this, cmdList
      ensures Valid() && Commands() == old(Commands()) + [Record(ShapeCommand.LineTo, Floats([x, y]))]
      ensures Bookkeeping() == old(Bookkeeping())
    {
      Emit(Record(ShapeCommand.LineTo, Floats([x, y])));
    }

    method BezierTo(c1x: Float, c1y: Float, c2x: Float, c2y: Float, x: Float, y: Float)
      requires Valid()
      modifies this, cmdList
      ensures Valid()
      ensures Commands() == old(Commands()) + [Record(ShapeCommand.BezierTo, Floats([c1x, c1y, c2x, c2y, x, y]))]
      ensures Bookkeeping() == old(Bookkeeping())
    {
      Emit(Record(ShapeCommand.BezierTo, Floats([c1x, c1y, c2x, c2y, x, y])));
    }

    method ArcTo(x1: Float, y1: Float, x2: Float, y2: Float, radius: Float)
      requires Valid()
      modifies this, cmdList
      ensures Valid()
      ensures Commands() == old(Commands()) + [Record(ShapeCommand.ArcTo, Floats([x1, y1, x2, y2, radius]))]
      ensures Bookkeeping() == old(Bookkeeping())
    {
      Emit(Record(ShapeCommand.ArcTo, Floats([x1, y1, x2, y2, radius])));
    }

    method Rect(x: Float, y: Float, w: Float, h: Float)
      requires Valid()
      modifies this, cmdList
      ensures Valid() && Commands() == old(Commands()) + [Record(ShapeCommand.Rect, Floats([x, y, w, h]))]
      ensures Bookkeeping() == old(Bookkeeping())
    {
      Emit(Record(ShapeCommand.Rect, Floats([x, y, w, h])));
    }

    method RoundedRect(x: Float, y: Float, w: Float, h: Float, r: Float)
      requires Valid()
      modifies this, cmdList
      ensures Valid()
      ensures Commands() == old(Commands()) + [Record(ShapeCommand.RoundedRect, Floats([x, y, w, h, r]))]
      ensures Bookkeeping() == old(Bookkeeping())
    {
      Emit(Record(ShapeCommand.RoundedRect, Floats([x, y, w, h, r])));
    }

    /** The four corner radii are kept in the order top-left, bottom-left,
        bottom-right, top-right. */
    method RoundedRectVarying(x: Float, y: Float, w: Float, h: Float, rtl: Float, rbl: Float, rbr: Float, rtr: Float)
      requires Valid()
      modifies this, cmdList
      ensures Valid()
      ensures Commands() == old(Commands()) + [Record(ShapeCommand.RoundedRectVarying, Floats([x, y, w, h, rtl, rbl, rbr, rtr]))]
      ensures Bookkeeping() == old(Bookkeeping())
    {
      Emit(Record(ShapeCommand.RoundedRectVarying, Floats([x, y, w, h, rtl, rbl, rbr, rtr])));
    }

    method Circle(cx: Float, cy: Float, radius: Float)
      requires Valid()
      modifies this, cmdList
      ensures Valid() && Commands() == old(Commands()) + [Record(ShapeCommand.Circle, Floats([cx, cy, radius]))]
      ensures Bookkeeping() == old(Bookkeeping())
    {
      Emit(Record(ShapeCommand.Circle, Floats([cx, cy, radius])));
    }

    method ClosePath()
      requires Valid()
      modifies this, cmdList
      ensures Valid() && Commands() == old(Commands()) + [Record(ShapeCommand.ClosePath, NoArgs)]
      ensures Bookkeeping() == old(Bookkeeping())
    {
      Emit(Record(ShapeCommand.ClosePath, NoArgs));
    }

    /** `FillConvexPath(Color, bool)`. */
    method FillConvexPathColor(col: Color, aa: bool)
      requires Valid()
      modifies this, cmdList
      ensures Valid() && Commands() == old(Commands()) + [Record(FillConvexColor, ColorFill(col, aa))]
      ensures Bookkeeping() == old(Bookkeeping())
    {
      Emit(Record(FillConvexColor, ColorFill(col, aa)));
    }

    /** `FillConvexPath(GradientHandle, bool)`. */
    method FillConvexPathGradient(gradient: GradientHandle, aa: bool)
      requires Valid()
      modifies this, cmdList
      ensures Valid() && Commands() == old(Commands()) + [Record(FillConvexGradient, GradientFill(gradient, aa))]
      ensures Bookkeeping() == old(Bookkeeping())
    {
      Emit(Record(FillConvexGradient, GradientFill(gradient, aa)));
    }

    /** `FillConvexPath(ImagePatternHandle, bool)`. */
    method FillConvexPathImage(img: ImagePatternHandle, aa: bool)
      requires Valid()
      modifies this, cmdList
      ensures Valid() && Commands() == old(Commands()) + [Record(FillConvexImage, PatternFill(img, aa))]
      ensures Bookkeeping() == old(Bookkeeping())
    {
      Emit(Record(FillConvexImage, PatternFill(img, aa)));
    }

    method FillConcavePath(col: Color, aa: bool)
      requires Valid()
      modifies this, cmdList
      ensures Valid() && Commands() == old(Commands()) + [Record(FillConcaveColor, ColorFill(col, aa))]
      ensures Bookkeeping() == old(Bookkeeping())
    {
      Emit(Record(FillConcaveColor, ColorFill(col, aa)));
    }

    /** Cap and join default to butt and miter when the caller omits them. */
    method StrokePath(col: Color, width: Float, aa: bool, lineCap: LineCap := LineCap.Butt, lineJoin: LineJoin := LineJoin.Miter)
      requires Valid()
      modifies this, cmdList
      ensures Valid()
      ensures Commands() == old(Commands()) + [Record(Stroke, StrokeStyle(col, width, aa, lineCap, lineJoin))]
      ensures Bookkeeping() == old(Bookkeeping())
    {
      Emit(Record(Stroke, StrokeStyle(col, width, aa, lineCap, lineJoin)));
    }

    method PushState()
      requires Valid()
      modifies this, cmdList
      ensures Valid() && Commands() == old(Commands()) + [Record(ShapeCommand.PushState, NoArgs)]
      ensures Bookkeeping() == old(Bookkeeping())
    {
      Emit(Record(ShapeCommand.PushState, NoArgs));
    }

    method PopState()
      requires Valid()
      modifies this, cmdList
      ensures Valid() && Commands() == old(Commands()) + [Record(ShapeCommand.PopState, NoArgs)]
      ensures Bookkeeping() == old(Bookkeeping())
    {
      Emit(Record(ShapeCommand.PopState, NoArgs));
    }

    method Scissor(x: Float, y: Float, w: Float, h: Float)
      requires Valid()
      modifies this, cmdList
      ensures Valid() && Commands() == old(Commands()) + [Record(ShapeCommand.Scissor, Floats([x, y, w, h]))]
      ensures Bookkeeping() == old(Bookkeeping())
    {
      Emit(Record(ShapeCommand.Scissor, Floats([x, y, w, h])));
    }

    method IntersectScissor(x: Float, y: Float, w: Float, h: Float)
      requires Valid()
      modifies this, cmdList
      ensures Valid() && Commands() == old(Commands()) + [Record(ShapeCommand.IntersectScissor, Floats([x, y, w, h]))]
      ensures Bookkeeping() == old(Bookkeeping())
    {
      Emit(Record(ShapeCommand.IntersectScissor, Floats([x, y, w, h])));
    }

    method Rotate(angRad: Float)
      requires Valid()
      modifies this, cmdList
      ensures Valid() && Commands() == old(Commands()) + [Record(ShapeCommand.Rotate, Floats([angRad]))]
      ensures Bookkeeping() == old(Bookkeeping())
    {
      Emit(Record(ShapeCommand.Rotate, Floats([angRad])));
    }

    method Translate(x: Float, y: Float)
      requires Valid()
      modifies this, cmdList
      ensures Valid() && Commands() == old(Commands()) + [Record(ShapeCommand.Translate, Floats([x, y]))]
      ensures Bookkeeping() == old(Bookkeeping())
    {
      Emit(Record(ShapeCommand.Translate, Floats([x, y])));
    }

    method Scale(x: Float, y: Float)
      requires Valid()
      modifies this, cmdList
      ensures Valid() && Commands() == old(Commands()) + [Record(ShapeCommand.Scale, Floats([x, y]))]
      ensures Bookkeeping() == old(Bookkeeping())
    {
      Emit(Record(ShapeCommand.Scale, Floats([x, y])));
    }

    /** `transform` points at a 2x3 matrix: its first six floats are recorded. */
    method ApplyTransform(transform: seq<Float>)
      requires Valid() && |transform| >= 6
      modifies this, cmdList
      ensures Valid() && Commands() == old(Commands()) + [Record(ShapeCommand.ApplyTransform, Floats(transform[..6]))]
      ensures Bookkeeping() == old(Bookkeeping())
    {
      Emit(Record(ShapeCommand.ApplyTransform, Floats(transform[..6])));
    }

    method BeginClip(rule: ClipRule)
      requires Valid()
      modifies this, cmdList
      ensures Valid() && Commands() == old(Commands()) + [Record(ShapeCommand.BeginClip, Clip(rule))]
      ensures Bookkeeping() == old(Bookkeeping())
    {
      Emit(Record(ShapeCommand.BeginClip, Clip(rule)));
    }

    method EndClip()
      requires Valid()
      modifies this, cmdList
      ensures Valid() && Commands() == old(Commands()) + [Record(ShapeCommand.EndClip, NoArgs)]
      ensures Bookkeeping() == old(Bookkeeping())
    {
      Emit(Record(ShapeCommand.EndClip, NoArgs));
    }

    method ResetClip()
      requires Valid()
      modifies this, cmdList
      ensures Valid() && Commands() == old(Commands()) + [Record(ShapeCommand.ResetClip, NoArgs)]
      ensures Bookkeeping() == old(Bookkeeping())
    {
      Emit(Record(ShapeCommand.ResetClip, NoArgs));
    }

    /** Declares a gradient; its handle is the number of gradients declared
        before it (within 16 bits). */
    method LinearGradient(sx: Float, sy: Float, ex: Float, ey: Float, icol: Color, ocol: Color) returns (h: GradientHandle)
      requires Valid()
      modifies this, cmdList
      ensures Valid()
      ensures Commands() == old(Commands()) + [Record(ShapeCommand.LinearGradient, GradientDecl([sx, sy, ex, ey], icol, ocol))]
      ensures h.idx == old(numGradients) == CountOf(old(Commands()), GradientTags) % 0x1_0000
      ensures numGradients == (old(numGradients) + 1) % 0x1_0000
      ensures flags == SetFlag(old(flags), HasGradients)
      ensures numImagePatterns == old(numImagePatterns) && rendererData == old(rendererData)
    {
      h := GradientHandle(numGradients);
      Emit(Record(ShapeCommand.LinearGradient, GradientDecl([sx, sy, ex, ey], icol, ocol)));
    }

    method BoxGradient(x: Float, y: Float, w: Float, h: Float, r: Float, f: Float, icol: Color, ocol: Color) returns (handle: GradientHandle)
      requires Valid()
      modifies this, cmdList
      ensures Valid()
      ensures Commands() == old(Commands()) + [Record(ShapeCommand.BoxGradient, GradientDecl([x, y, w, h, r, f], icol, ocol))]
      ensures handle.idx == old(numGradients) == CountOf(old(Commands()), GradientTags) % 0x1_0000
      ensures numGradients == (old(numGradients) + 1) % 0x1_0000
      ensures flags == SetFlag(old(flags), HasGradients)
      ensures numImagePatterns == old(numImagePatterns) && rendererData == old(rendererData)
    {
      handle := GradientHandle(numGradients);
      Emit(Record(ShapeCommand.BoxGradient, GradientDecl([x, y, w, h, r, f], icol, ocol)));
    }

    method RadialGradient(cx: Float, cy: Float, inr: Float, outr: Float, icol: Color, ocol: Color) returns (h: GradientHandle)
      requires Valid()
      modifies this, cmdList
      ensures Valid()
      ensures Commands() == old(Commands()) + [Record(ShapeCommand.RadialGradient, GradientDecl([cx, cy, inr, outr], icol, ocol))]
      ensures h.idx == old(numGradients) == CountOf(old(Commands()), GradientTags) % 0x1_0000
      ensures numGradients == (old(numGradients) + 1) % 0x1_0000
      ensures flags == SetFlag(old(flags), HasGradients)
      ensures numImagePatterns == old(numImagePatterns) && rendererData == old(rendererData)
    {
      h := GradientHandle(numGradients);
      Emit(Record(ShapeCommand.RadialGradient, GradientDecl([cx, cy, inr, outr], icol, ocol)));
    }

    /** Declares an image pattern; its handle is the number of patterns
        declared before it (within 16 bits). */
    method ImagePattern(cx: Float, cy: Float, w: Float, h: Float, angle: Float, image: ImageHandle, alpha: Float) returns (p: ImagePatternHandle)
      requires Valid()
      modifies this, cmdList
      ensures Valid()
      ensures Commands() == old(Commands()) + [Record(ShapeCommand.ImagePattern, PatternDecl([cx, cy, w, h, angle], image, alpha))]
      ensures p.idx == old(numImagePatterns) == CountOf(old(Commands()), PatternTags) % 0x1_0000
      ensures numImagePatterns == (old(numImagePatterns) + 1) % 0x1_0000
      ensures flags == SetFlag(old(flags), HasImages)
      ensures numGradients == old(numGradients) && rendererData == old(rendererData)
    {
      p := ImagePatternHandle(numImagePatterns);
      Emit(Record(ShapeCommand.ImagePattern, PatternDecl([cx, cy, w, h, angle], image, alpha)));
    }

    /** Records the text `text` (the characters from `text` up to `end`)
        inline after its header, whose `len` is the text's length. */
    method Text(font: Font, alignment: uint32, color: Color, x: Float, y: Float, text: seq<byte>)
      requires Valid() && |text| < 0x1_0000_0000
      modifies this, cmdList
      ensures Valid()
      ensures Commands() == old(Commands()) + [Record(TextStatic, TextRun(ShapeCommandText(font, alignment, color, x, y, NoBreakWidth, |text|), text))]
      ensures flags == SetFlag(old(flags), HasText)
      ensures numGradients == old(numGradients) && numImagePatterns == old(numImagePatterns) && rendererData == old(rendererData)
    {
      Emit(Record(TextStatic, TextRun(ShapeCommandText(font, alignment, color, x, y, NoBreakWidth, |text|), text)));
    }

    method TextBox(font: Font, alignment: uint32, color: Color, x: Float, y: Float, breakWidth: Float, text: seq<byte>)
      requires Valid() && |text| < 0x1_0000_0000
      modifies this, cmdList
      ensures Valid()
      ensures Commands() == old(Commands()) + [Record(TextBoxStatic, TextRun(ShapeCommandText(font, alignment, color, x, y, breakWidth, |text|), text))]
      ensures flags == SetFlag(old(flags), HasText)
      ensures numGradients == old(numGradients) && numImagePatterns == old(numImagePatterns) && rendererData == old(rendererData)
    {
      Emit(Record(TextBoxStatic, TextRun(ShapeCommandText(font, alignment, color, x, y, breakWidth, |text|), text)));
    }

    /** Records a reference to an interned string: the header's `len` holds
        the string id and no text follows. */
    method TextDynamic(font: Font, alignment: uint32, color: Color, x: Float, y: Float, stringID: uint32)
      requires Valid() && dynamicText
      modifies this, cmdList
      ensures Valid()
      ensures Commands() == old(Commands()) + [Record(ShapeCommand.TextDynamic, TextRun(ShapeCommandText(font, alignment, color, x, y, NoBreakWidth, stringID), []))]
      ensures flags == SetFlag(SetFlag(old(flags), HasText), HasDynamicText)
      ensures numGradients == old(numGradients) && numImagePatterns == old(numImagePatterns) && rendererData == old(rendererData)
    {
      Emit(Record(ShapeCommand.TextDynamic, TextRun(ShapeCommandText(font, alignment, color, x, y, NoBreakWidth, stringID), [])));
    }

    /** `m_Flags |= flag` for one of the two policy bits, which callers set
        on the public flag word. */
    method SetPolicyFlag(flag: bv32)
      requires Valid() && IsPolicyFlag(flag)
      modifies this
      ensures Valid()
      ensures flags == SetFlag(old(flags), flag)
      ensures cmdListWriter == old(cmdListWriter) && numGradients == old(numGradients)
      ensures numImagePatterns == old(numImagePatterns) && rendererData == old(rendererData)
    {
      PolicyFlagKeepsConsistent(Commands(), numGradients, numImagePatterns, flags, dynamicText, flag);
      flags := flags | flag;
    }
  }

  /** The break width stored by the text calls that take none: +0.0. */
  const NoBreakWidth: Float := Float(0)

  /** The flag word answers, for each derived flag, whether the command list
      holds a record of that flag's kind. */
  lemma FlagsDescribeCommands(s: Shape, f: bv32)
    requires s.Valid() && IsDerivedFlag(f)
    ensures TestFlag(s.flags, f) <==> exists i :: 0 <= i < |s.Commands()| && s.Commands()[i].tag in FlagTags(f)
  {
    DerivedFlagsDescribeContents(s.Commands(), f);
    FlagIsSingleBit(f);
  }

  /** With fewer than 65536 declarations of its kind, each counter is
      exactly the number of those declarations in the command list. */
  lemma CountersCountDeclarations(s: Shape)
    requires s.Valid()
    ensures CountOf(s.Commands(), GradientTags) < 0x1_0000 ==> s.numGradients == CountOf(s.Commands(), GradientTags)
    ensures CountOf(s.Commands(), PatternTags) < 0x1_0000 ==> s.numImagePatterns == CountOf(s.Commands(), PatternTags)
  {
  }
}
