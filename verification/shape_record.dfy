/** One record of a shape's command list: a tag followed by the arguments of
    the call that produced it, and the summaries the shape keeps of a list
    of records (how many gradients and image patterns it declares, and the
    derived flag bits). */
module ShapeRecords {
  import opened VgTypes
  import opened ShapeCommands
  import opened ShapeFlags

  /** The fixed part of a text record (`vg::ShapeCommandText`); `len` is the
      length of the inline text, or the string id for dynamic text. */
  datatype ShapeCommandText = ShapeCommandText(
    font: Font, alignment: uint32, col: Color,
    x: Float, y: Float, breakWidth: Float, len: uint32)

  /** The arguments a record carries after its tag, in the order of the
      recording call's parameters. */
  datatype Payload =
    | NoArgs
    | Floats(values: seq<Float>)
    | ColorFill(col: Color, aa: bool)
    | GradientFill(gradient: GradientHandle, aa: bool)
    | PatternFill(pattern: ImagePatternHandle, aa: bool)
    | StrokeStyle(col: Color, width: Float, aa: bool, cap: LineCap, join: LineJoin)
    | GradientDecl(geometry: seq<Float>, inner: Color, outer: Color)
    | PatternDecl(geometry: seq<Float>, image: ImageHandle, alpha: Float)
    | Clip(rule: ClipRule)
    | TextRun(header: ShapeCommandText, inline: seq<byte>)

  datatype Record = Record(tag: ShapeCommand, payload: Payload)

  /** The gradient-declaring tags. */
  const GradientTags: set<ShapeCommand> := {LinearGradient, BoxGradient, RadialGradient}
  /** The image-pattern-declaring tag. */
  const PatternTags: set<ShapeCommand> := {ImagePattern}
  const TextTags: set<ShapeCommand> := {TextStatic, TextBoxStatic, TextDynamic}

  /** The payload shape each tag is written with: the float arguments of the
      recording call, in parameter order, or the call's other arguments. For
      text, `len` is the inline length, except for dynamic text, which has
      no inline bytes. */
  predicate Fits(r: Record) {
    var p := r.payload;
    match r.tag
    case BeginPath | ClosePath | PushState | PopState | EndClip | ResetClip => p == NoArgs
    case MoveTo | LineTo | Translate | Scale => p.Floats? && |p.values| == 2
    case BezierTo | ApplyTransform => p.Floats? && |p.values| == 6
    case ArcTo | RoundedRect => p.Floats? && |p.values| == 5
    case Rect | Scissor | IntersectScissor => p.Floats? && |p.values| == 4
    case RoundedRectVarying => p.Floats? && |p.values| == 8
    case Circle => p.Floats? && |p.values| == 3
    case Rotate => p.Floats? && |p.values| == 1
    case FillConvexColor | FillConcaveColor => p.ColorFill?
    case FillConvexGradient => p.GradientFill?
    case FillConvexImage => p.PatternFill?
    case Stroke => p.StrokeStyle?
    case LinearGradient | RadialGradient => p.GradientDecl? && |p.geometry| == 4
    case BoxGradient => p.GradientDecl? && |p.geometry| == 6
    case ImagePattern => p.PatternDecl? && |p.geometry| == 5
    case BeginClip => p.Clip?
    case TextStatic | TextBoxStatic => p.TextRun? && p.header.len == |p.inline|
    case TextDynamic => p.TextRun? && p.inline == []
  }

  /** Every record has its tag's payload shape and its tag exists under the configuration. */
  predicate AllFit(cs: seq<Record>, dynamicText: bool) {
    forall i :: 0 <= i < |cs| ==> Fits(cs[i]) && Enabled(cs[i].tag, dynamicText)
  }

  lemma AllFitAppend(cs: seq<Record>, r: Record, dynamicText: bool)
    requires AllFit(cs, dynamicText) && Fits(r) && Enabled(r.tag, dynamicText)
    ensures AllFit(cs + [r], dynamicText)
  {
  }

  /** Number of records whose tag is one of `kinds`. */
  function CountOf(cs: seq<Record>, kinds: set<ShapeCommand>): (n: nat)
    ensures n <= |cs|
  {
    if cs == [] then 0
    else CountOf(cs[..|cs| - 1], kinds) + (if cs[|cs| - 1].tag in kinds then 1 else 0)
  }

  lemma {:induction false} CountOfAppend(cs: seq<Record>, r: Record, kinds: set<ShapeCommand>)
    ensures CountOf(cs + [r], kinds) == CountOf(cs, kinds) + (if r.tag in kinds then 1 else 0)
  {
    assert (cs + [r])[..|cs|] == cs;
  }

  /** The flag bits recording one record sets. */
  function RecordFlags(r: Record): (f: bv32)
    ensures f & !DerivedMask == 0
  {
    match r.tag
    case TextStatic | TextBoxStatic => HasText
    case TextDynamic => HasText | HasDynamicText
    case LinearGradient | BoxGradient | RadialGradient => HasGradients
    case ImagePattern => HasImages
    case _ => 0
  }

  /** The tags whose records set the derived flag `f`. */
  function FlagTags(f: bv32): (tags: set<ShapeCommand>)
    requires IsDerivedFlag(f)
    ensures tags != {}
  {
    if f == HasText then TextTags
    else if f == HasDynamicText then {TextDynamic}
    else if f == HasGradients then GradientTags
    else {ImagePattern}
  }

  /** A record sets a derived flag exactly when its tag is one of that flag's tags. */
  lemma RecordFlagsTable(r: Record, f: bv32)
    requires IsDerivedFlag(f)
    ensures TestFlag(RecordFlags(r), f) <==> r.tag in FlagTags(f)
  {
  }

  /** The derived flag bits of a whole list: the union of its records' bits. */
  function DerivedFlags(cs: seq<Record>): (f: bv32)
    ensures f & !DerivedMask == 0
  {
    if cs == [] then 0
    else DerivedFlags(cs[..|cs| - 1]) | RecordFlags(cs[|cs| - 1])
  }

  lemma {:induction false} DerivedFlagsAppend(cs: seq<Record>, r: Record)
    ensures DerivedFlags(cs + [r]) == DerivedFlags(cs) | RecordFlags(r)
  {
    assert (cs + [r])[..|cs|] == cs;
  }

  /** A derived flag is set for a list exactly when some record of the list
      has one of the flag's tags, so the flags answer "does the shape hold
      text / dynamic text / gradients / image patterns" without a decode pass. */
  lemma {:induction false} DerivedFlagsDescribeContents(cs: seq<Record>, f: bv32)
    requires IsDerivedFlag(f)
    ensures TestFlag(DerivedFlags(cs), f) <==> exists i :: 0 <= i < |cs| && cs[i].tag in FlagTags(f)
  {
    if cs != [] {
      var front, last := cs[..|cs| - 1], cs[|cs| - 1];
      DerivedFlagsDescribeContents(front, f);
      RecordFlagsTable(last, f);
      assert forall i :: 0 <= i < |front| ==> front[i] == cs[i];
      if exists i :: 0 <= i < |cs| && cs[i].tag in FlagTags(f) {
        var i :| 0 <= i < |cs| && cs[i].tag in FlagTags(f);
        if i < |front| {
          assert front[i].tag in FlagTags(f);
        }
      }
    }
  }

  /** A 16-bit counter after recording `r`: one more, wrapping at 65536,
      when `r`'s tag is one of `kinds`. */
  function Bump(n: uint16, r: Record, kinds: set<ShapeCommand>): (m: uint16)
    ensures r.tag !in kinds ==> m == n
    ensures r.tag in kinds ==> (m == n + 1 || (n == 0xFFFF && m == 0))
  {
    (n + if r.tag in kinds then 1 else 0) % 0x1_0000
  }

  /** What a shape's bookkeeping says about its command list `cs`: every
      record has its tag's payload shape; each counter is the number of its
      declarations, wrapped to 16 bits; the derived flag bits are exactly
      those of the records, and no bit outside the six flags is set. */
  predicate Consistent(cs: seq<Record>, numGradients: uint16, numImagePatterns: uint16, flags: bv32, dynamicText: bool) {
    && AllFit(cs, dynamicText)
    && numGradients == CountOf(cs, GradientTags) % 0x1_0000
    && numImagePatterns == CountOf(cs, PatternTags) % 0x1_0000
    && flags & DerivedMask == DerivedFlags(cs)
    && flags & !(DerivedMask | PolicyMask) == 0
  }

  /** Recording one more record, bumping the counters by its tag and OR-ing
      its flag bits in, keeps the bookkeeping consistent. */
  lemma RecordingKeepsConsistent(cs: seq<Record>, numGradients: uint16, numImagePatterns: uint16, flags: bv32, dynamicText: bool, r: Record)
    requires Consistent(cs, numGradients, numImagePatterns, flags, dynamicText)
    requires Fits(r) && Enabled(r.tag, dynamicText)
    ensures Consistent(cs + [r], Bump(numGradients, r, GradientTags), Bump(numImagePatterns, r, PatternTags),
                       flags | RecordFlags(r), dynamicText)
  {
    AllFitAppend(cs, r, dynamicText);
    CountOfAppend(cs, r, GradientTags);
    CountOfAppend(cs, r, PatternTags);
    WrapIncrement(CountOf(cs, GradientTags));
    WrapIncrement(CountOf(cs, PatternTags));
    DerivedFlagsAppend(cs, r);
    OrKeepsFlagMasks(flags, RecordFlags(r));
  }

  /** Setting a policy bit keeps the bookkeeping consistent. */
  lemma PolicyFlagKeepsConsistent(cs: seq<Record>, numGradients: uint16, numImagePatterns: uint16, flags: bv32, dynamicText: bool, f: bv32)
    requires Consistent(cs, numGradients, numImagePatterns, flags, dynamicText)
    requires IsPolicyFlag(f)
    ensures Consistent(cs, numGradients, numImagePatterns, SetFlag(flags, f), dynamicText)
  {
  }

  /** Incrementing a 16-bit counter that holds `n` wrapped gives `n + 1` wrapped. */
  lemma WrapIncrement(n: nat)
    ensures (n % 0x1_0000 + 1) % 0x1_0000 == (n + 1) % 0x1_0000
  {
  }

  /** OR-ing derived bits into a flag word adds them to its derived part and
      leaves its policy and unused bits alone. */
  lemma OrKeepsFlagMasks(flags: bv32, derived: bv32)
    requires derived & !DerivedMask == 0
    ensures (flags | derived) & DerivedMask == (flags & DerivedMask) | derived
    ensures (flags | derived) & !(DerivedMask | PolicyMask) == flags & !(DerivedMask | PolicyMask)
  {
  }
}
