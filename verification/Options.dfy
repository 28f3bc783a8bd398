/** What all parts share: a value that may be absent, and 64-bit numbers. */
module Options {
  datatype Option<T> = None | Some(value: T)

  const UINT64 := 0x1_0000_0000_0000_0000

  function Min(a: nat, b: nat): nat { if a < b then a else b }
}
