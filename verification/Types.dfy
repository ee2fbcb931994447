/** Machine integers, options and port addresses shared by all modules. */
module Types {

  type u8 = x: int | 0 <= x < 0x100

  type u32 = x: int | 0 <= x < 0x1_0000_0000

  const U32_BOUND: int := 0x1_0000_0000

  datatype Option<+T> = None | Some(value: T)

  /** A port number together with the side that allocated it, as seen by one endpoint. */
  datatype SidePort = Local(num: u32) | Remote(num: u32) {

    /** The same port as the other endpoint names it. */
    function Flipped(): (r: SidePort)
      ensures r.num == num && r != this
      ensures r.Local? ==> Remote?
    {
      match this
      case Local(n) => Remote(n)
      case Remote(n) => Local(n)
    }
  }

  /** Flipping is its own inverse, so it never identifies two ports. */
  lemma FlippedTwice(p: SidePort, q: SidePort)
    ensures p.Flipped().Flipped() == p
    ensures p.Flipped() == q.Flipped() ==> p == q
  {
  }

  function Min(a: int, b: int): int {
    if a <= b then a else b
  }

  function Max(a: int, b: int): int {
    if a <= b then b else a
  }
}
