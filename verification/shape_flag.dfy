/** The bits of `Shape::m_Flags` (`vg::ShapeFlag::Enum`). The first four
    summarise what the command list holds; the last two are policy hints
    for whoever consumes the shape. */
module ShapeFlags {
  const HasText: bv32 := 0x0000_0001
  const HasDynamicText: bv32 := 0x0000_0002
  const HasGradients: bv32 := 0x0000_0004
  const HasImages: bv32 := 0x0000_0008
  const AllowCommandReordering: bv32 := 0x0000_0010
  const EnableCaching: bv32 := 0x0000_0020

  /** The bits derived from the recorded commands, and the policy bits. */
  const DerivedMask: bv32 := 0x0000_000F
  const PolicyMask: bv32 := 0x0000_0030

  predicate IsShapeFlag(f: bv32) {
    f == HasText || f == HasDynamicText || f == HasGradients || f == HasImages
    || f == AllowCommandReordering || f == EnableCaching
  }

  predicate IsDerivedFlag(f: bv32) {
    f == HasText || f == HasDynamicText || f == HasGradients || f == HasImages
  }

  predicate IsPolicyFlag(f: bv32) {
    f == AllowCommandReordering || f == EnableCaching
  }

  /** Whether the single-bit flag `f` is set in `flags`. */
  predicate TestFlag(flags: bv32, f: bv32) {
    flags & f != 0
  }

  /** `flags |= f`: sets `f`, and no other flag's test changes. */
  function SetFlag(flags: bv32, f: bv32): (r: bv32)
    requires IsShapeFlag(f)
    ensures TestFlag(r, f)
    ensures r & !f == flags & !f
  {
    flags | f
  }

  /** Setting `f` leaves the test of every other flag as it was. */
  lemma SetFlagKeepsOthers(flags: bv32, f: bv32, g: bv32)
    requires IsShapeFlag(f) && IsShapeFlag(g) && f != g
    ensures TestFlag(SetFlag(flags, f), g) <==> TestFlag(flags, g)
  {
    FlagsAreDisjoint(f, g);
  }

  /** Every flag is one bit, and the derived and policy masks split them. */
  lemma FlagIsSingleBit(f: bv32)
    requires IsShapeFlag(f)
    ensures f != 0 && f & (f - 1) == 0
    ensures IsDerivedFlag(f) <==> f & DerivedMask == f
    ensures IsPolicyFlag(f) <==> f & PolicyMask == f
  {
  }

  /** Two different flags share no bit. */
  lemma FlagsAreDisjoint(f: bv32, g: bv32)
    requires IsShapeFlag(f) && IsShapeFlag(g) && f != g
    ensures f & g == 0
  {
  }

  /** Setting a flag twice is the same as setting it once. */
  lemma SetFlagIdempotent(flags: bv32, f: bv32)
    requires IsShapeFlag(f)
    ensures SetFlag(SetFlag(flags, f), f) == SetFlag(flags, f)
  {
  }

  /** Setting two flags gives the same word in either order. */
  lemma SetFlagCommutes(flags: bv32, f: bv32, g: bv32)
    requires IsShapeFlag(f) && IsShapeFlag(g)
    ensures SetFlag(SetFlag(flags, f), g) == SetFlag(SetFlag(flags, g), f)
  {
  }
}
