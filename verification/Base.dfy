/** Types shared by every module: bytes, 64-bit unsigned integers, strings. */
module Base {
  datatype Option<+T> = None | Some(value: T)

  type byte = b: int | 0 <= b < 256
  type Bytes = seq<byte>

  const U64_MAX: int := 0xFFFF_FFFF_FFFF_FFFF

  /** A uint64. A value assigned to this type is proved to be in range, so no
      operation stored in one can have wrapped around. */
  type u64 = x: int | 0 <= x <= U64_MAX

  /** A Go int or int64. */
  type i64 = x: int | -0x8000_0000_0000_0000 <= x < 0x8000_0000_0000_0000

  /** The number of UTF-8 bytes of one character. */
  function RuneLen(c: char): nat {
    if c as int < 0x80 then 1 else if c as int < 0x800 then 2 else if c as int < 0x1_0000 then 3 else 4
  }

  /** The length Go's len reports for a string: its UTF-8 bytes. */
  function ByteLen(s: string): nat {
    if s == [] then 0 else RuneLen(s[0]) + ByteLen(s[1..])
  }
}
