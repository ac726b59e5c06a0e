/** Java's fixed-width integer types and the absence of a reference ("null"). */
module JavaTypes {

  /** A Java `int`. */
  newtype int32 = x: int | -0x8000_0000 <= x < 0x8000_0000

  /** A Java `short`. */
  newtype int16 = x: int | -0x8000 <= x < 0x8000

  /** A Java `byte`. */
  newtype int8 = x: int | -0x80 <= x < 0x80

  /** A nullable reference to a value: `None` stands for Java's `null`. */
  datatype Option<+T> = None | Some(value: T)
}
