/** Optional values, the 64-bit range and its saturating sum, shared by the other modules. */
module Common {

  datatype Option<+T> = None | Some(value: T)

  const TWO_64 := 0x1_0000_0000_0000_0000
  const U64_MAX := TWO_64 - 1

  type U64 = x: int | 0 <= x < TWO_64

  function SaturatingAdd(left: U64, right: U64): (r: U64)
    ensures r == if left + right < TWO_64 then left + right else U64_MAX
  {
    if left > U64_MAX - right then U64_MAX else left + right
  }
}
