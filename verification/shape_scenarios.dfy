/** Short recording sessions on a fresh shape, and what a caller can rely on
    after each from the recorder's contracts alone. */
module ShapeScenarios {
  import opened VgTypes
  import opened ShapeCommands
  import opened ShapeFlags
  import opened ShapeRecords
  import opened VgShape

  const Zero: Float := Float(0x0000_0000)  // 0.0f
  const Ten: Float := Float(0x4120_0000)   // 10.0f

  /** A closed triangle filled with one colour gives six records, in call
      order, the last carrying the colour and the antialiasing flag. */
  method FilledTriangle(red: Color) returns (tags: seq<ShapeCommand>, fill: Record)
    ensures tags == [BeginPath, MoveTo, LineTo, LineTo, ClosePath, FillConvexColor]
    ensures fill == Record(FillConvexColor, ColorFill(red, true))
  {
    var block := new MemoryBlock();
    var s := new Shape(block, false);
    s.BeginPath();
    s.MoveTo(Zero, Zero);
    s.LineTo(Ten, Zero);
    s.LineTo(Ten, Ten);
    s.ClosePath();
    s.FillConvexPathColor(red, true);
    var cs := s.Commands();
    tags := [cs[0].tag, cs[1].tag, cs[2].tag, cs[3].tag, cs[4].tag, cs[5].tag];
    fill := cs[5];
  }

  /** Two gradients then one image pattern: handles 0, 1 and 0, counters 2
      and 1, the gradient and image flags set and the text flag not. */
  method GradientsThenPattern(c: Color, img: ImageHandle)
    returns (g0: GradientHandle, g1: GradientHandle, p: ImagePatternHandle,
             numGradients: nat, numImagePatterns: nat, flags: bv32)
    ensures g0.idx == 0 && g1.idx == 1 && p.idx == 0
    ensures numGradients == 2 && numImagePatterns == 1
    ensures TestFlag(flags, HasGradients) && TestFlag(flags, HasImages) && !TestFlag(flags, HasText)
  {
    var block := new MemoryBlock();
    var s := new Shape(block, false);
    g0 := s.LinearGradient(Zero, Zero, Ten, Ten, c, c);
    g1 := s.RadialGradient(Ten, Ten, Zero, Ten, c, c);
    p := s.ImagePattern(Zero, Zero, Ten, Ten, Zero, img, Ten);
    numGradients, numImagePatterns, flags := s.numGradients, s.numImagePatterns, s.flags;
  }

  /** Omitting cap and join strokes with butt caps and miter joins. */
  method StrokeDefaults(col: Color, width: Float, aa: bool) returns (stroke: Record)
    ensures stroke == Record(Stroke, StrokeStyle(col, width, aa, LineCap.Butt, LineJoin.Miter))
  {
    var block := new MemoryBlock();
    var s := new Shape(block, false);
    s.StrokePath(col, width, aa);
    stroke := s.Commands()[0];
  }

  /** One static text sets the text flag only; one dynamic text sets both
      text flags. Each header's `len` is the text length or the string id. */
  method TextFlags(font: Font, col: Color, text: seq<byte>, stringID: uint32)
    returns (staticFlags: bv32, staticLen: nat, dynamicFlags: bv32, dynamicLen: nat)
    requires |text| < 0x1_0000_0000
    ensures TestFlag(staticFlags, HasText) && !TestFlag(staticFlags, HasDynamicText)
    ensures TestFlag(dynamicFlags, HasText) && TestFlag(dynamicFlags, HasDynamicText)
    ensures staticLen == |text| && dynamicLen == stringID
  {
    var block := new MemoryBlock();
    var s := new Shape(block, true);
    s.Text(font, 0, col, Zero, Zero, text);
    staticFlags, staticLen := s.flags, s.Commands()[0].payload.header.len;
    s.Reset();
    s.TextDynamic(font, 0, col, Zero, Zero, stringID);
    dynamicFlags, dynamicLen := s.flags, s.Commands()[0].payload.header.len;
  }

  /** After a gradient declaration, a fill with it, a text and a policy
      bit, Reset leaves an empty command list, zero counters and no flags,
      and the shape still writes into the caller's block. */
  method ResetAfterRecording(c: Color, text: seq<byte>)
    returns (length: nat, numGradients: nat, numImagePatterns: nat, flags: bv32, sameBlock: bool)
    requires |text| < 0x1_0000_0000
    ensures length == 0 && numGradients == 0 && numImagePatterns == 0 && flags == 0
    ensures sameBlock
  {
    var block := new MemoryBlock();
    var s := new Shape(block, false);
    var g := s.BoxGradient(Zero, Zero, Ten, Ten, Zero, Zero, c, c);
    s.FillConvexPathGradient(g, true);
    s.Text(Font(0), 0, c, Zero, Zero, text);
    s.SetPolicyFlag(EnableCaching);
    s.Reset();
    length, numGradients, numImagePatterns, flags := |s.Commands()|, s.numGradients, s.numImagePatterns, s.flags;
    sameBlock := s.cmdList == block && s.cmdListWriter.block == block;
  }
}
