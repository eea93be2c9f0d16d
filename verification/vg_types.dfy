/** Values the shape recorder takes from the rest of the renderer and copies
    into its records without looking inside them. */
module VgTypes {
  /** The widths of the C integer types the recorder stores. */
  type uint16 = x: int | 0 <= x < 0x1_0000
  type uint32 = x: int | 0 <= x < 0x1_0000_0000
  type byte = bv8

  datatype Option<+T> = None | Some(value: T)

  /** A 32-bit float, carried as its bit pattern: the recorder only copies it. */
  datatype Float = Float(bits: bv32)

  /** Opaque values defined by the renderer's public API. */
  datatype Color = Color(value: nat)
  datatype Font = Font(id: nat)
  datatype ImageHandle = ImageHandle(idx: nat)
  datatype ClipRule = ClipRule(rule: nat)

  /** Handles the recorder issues: the position of a declaration among the
      gradient (or image-pattern) declarations of one shape. */
  datatype GradientHandle = GradientHandle(idx: nat)
  datatype ImagePatternHandle = ImagePatternHandle(idx: nat)

  datatype LineCap = Butt | Round | Square
  datatype LineJoin = Miter | Round | Bevel
}
