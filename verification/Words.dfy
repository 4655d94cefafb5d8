/** Machine words of the driver, as ranges of the integers. */
module Words {

  type byte = x: int | 0 <= x < 0x100
  type u16 = x: int | 0 <= x < 0x1_0000
  type u32 = x: int | 0 <= x < 0x1_0000_0000
  type u64 = x: int | 0 <= x < 0x1_0000_0000_0000_0000
  type i16 = x: int | -0x8000 <= x < 0x8000
  type i8 = x: int | -0x80 <= x < 0x80

  type bytes = seq<byte>

  function High(v: u16): byte {
    v / 0x100
  }

  function Low(v: u16): byte {
    v % 0x100
  }

  function Join(hi: byte, lo: byte): u16 {
    hi * 0x100 + lo
  }

  lemma JoinOfHalves(v: u16)
    ensures Join(High(v), Low(v)) == v
  {
  }

  lemma HalvesOfJoin(hi: byte, lo: byte)
    ensures High(Join(hi, lo)) == hi && Low(Join(hi, lo)) == lo
  {
  }

  /** static_cast<uint16_t> of a signed value: its residue. */
  function Unsigned(v: i16): (u: u16)
    ensures Signed(u) == v
  {
    if v < 0 then v + 0x1_0000 else v
  }

  function Signed(u: u16): i16 {
    if u < 0x8000 then u else u - 0x1_0000
  }

  datatype Result<+T, +E> = Ok(value: T) | Err(error: E)
  datatype Option<+T> = None | Some(value: T)
}
