/** The tag that starts every record of a shape's command list
    (`vg::ShapeCommand::Enum`, a `uint32_t` enumeration). */
module ShapeCommands {
  import opened VgTypes

  datatype ShapeCommand =
    | BeginPath | ClosePath | MoveTo | LineTo | BezierTo | ArcTo
    | Rect | RoundedRect | RoundedRectVarying | Circle
    | FillConvexColor | FillConvexGradient | FillConvexImage | FillConcaveColor | Stroke
    | LinearGradient | BoxGradient | RadialGradient | ImagePattern
    | PushState | PopState | Scissor | IntersectScissor
    | Rotate | Translate | Scale | ApplyTransform
    | BeginClip | EndClip | ResetClip
    | TextStatic | TextBoxStatic
    | TextDynamic  // only when VG_CONFIG_SHAPE_DYNAMIC_TEXT is enabled

  /** The enumerators in declaration order; position `n` holds the tag whose value is `n`. */
  const Declared: seq<ShapeCommand> := [
    BeginPath, ClosePath, MoveTo, LineTo, BezierTo, ArcTo,
    Rect, RoundedRect, RoundedRectVarying, Circle,
    FillConvexColor, FillConvexGradient, FillConvexImage, FillConcaveColor, Stroke,
    LinearGradient, BoxGradient, RadialGradient, ImagePattern,
    PushState, PopState, Scissor, IntersectScissor,
    Rotate, Translate, Scale, ApplyTransform,
    BeginClip, EndClip, ResetClip,
    TextStatic, TextBoxStatic,
    TextDynamic]

  /** Number of enumerators under the given dynamic-text configuration. */
  function Count(dynamicText: bool): (n: nat)
    ensures n <= |Declared|
  {
    if dynamicText then 33 else 32
  }

  /** Whether the tag exists under the given configuration. */
  predicate Enabled(c: ShapeCommand, dynamicText: bool) {
    c != TextDynamic || dynamicText
  }

  /** The `uint32_t` value of a tag: enumerators are numbered from
      `BeginPath = 0` upwards, one apart, in declaration order. */
  function Encode(c: ShapeCommand): (n: uint32)
    ensures n < |Declared| && Declared[n] == c
    ensures c == TextDynamic <==> n == Count(false)
  {
    match c
    case BeginPath => 0
    case ClosePath => 1
    case MoveTo => 2
    case LineTo => 3
    case BezierTo => 4
    case ArcTo => 5
    case Rect => 6
    case RoundedRect => 7
    case RoundedRectVarying => 8
    case Circle => 9
    case FillConvexColor => 10
    case FillConvexGradient => 11
    case FillConvexImage => 12
    case FillConcaveColor => 13
    case Stroke => 14
    case LinearGradient => 15
    case BoxGradient => 16
    case RadialGradient => 17
    case ImagePattern => 18
    case PushState => 19
    case PopState => 20
    case Scissor => 21
    case IntersectScissor => 22
    case Rotate => 23
    case Translate => 24
    case Scale => 25
    case ApplyTransform => 26
    case BeginClip => 27
    case EndClip => 28
    case ResetClip => 29
    case TextStatic => 30
    case TextBoxStatic => 31
    case TextDynamic => 32
  }

  /** Reads a tag value back; values past the last enumerator of the
      configuration are not tags. */
  function Decode(n: uint32, dynamicText: bool): (r: Option<ShapeCommand>)
    ensures r.Some? <==> n < Count(dynamicText)
    ensures r.Some? ==> Encode(r.value) == n && Enabled(r.value, dynamicText)
  {
    if n < Count(dynamicText) then Some(Declared[n]) else None
  }

  /** Decoding the value of an enabled tag gives the tag back. */
  lemma DecodeEncode(c: ShapeCommand, dynamicText: bool)
    requires Enabled(c, dynamicText)
    ensures Decode(Encode(c), dynamicText) == Some(c)
  {
  }

  /** Distinct tags have distinct values. */
  lemma EncodeInjective(a: ShapeCommand, b: ShapeCommand)
    requires Encode(a) == Encode(b)
    ensures a == b
  {
    assert Declared[Encode(a)] == a;
  }

  /** The values in use are exactly 0 .. Count - 1, with no gap. */
  lemma EncodeOnto(n: uint32, dynamicText: bool)
    requires n < Count(dynamicText)
    ensures exists c :: Enabled(c, dynamicText) && Encode(c) == n
  {
    var r := Decode(n, dynamicText);
    assert Encode(r.value) == n;
  }

  /** `TextDynamic` is the last enumerator: turning dynamic text on adds the
      value 32 and renumbers no other tag. */
  lemma DynamicTextRenumbersNothing(n: uint32)
    ensures Decode(n, false).Some? ==> Decode(n, true) == Decode(n, false)
    ensures Decode(n, true).Some? && Decode(n, false).None? ==> Decode(n, true) == Some(TextDynamic)
  {
  }
}
