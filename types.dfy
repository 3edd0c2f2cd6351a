/** Identifiers and fixed-width integers shared by the casino and the duel stores. */
module Types {

  /** A chat user's identifier (an unsigned 64-bit number in the transport). */
  type UserId = nat

  /** A chat message's identifier (a 32-bit number in the transport). */
  type MessageId = int

  /** Rust's `i32`: dice values and duel throws. */
  newtype Int32 = x: int | -0x8000_0000 <= x < 0x8000_0000

  /** Rust's `i64`: the duel penalty in minutes. */
  newtype Int64 = x: int | -0x8000_0000_0000_0000 <= x < 0x8000_0000_0000_0000

  datatype Option<T> = None | Some(value: T)

  /** Rust's `std::cmp::Ordering`. */
  datatype Ordering = Less | Equal | Greater

  /** `a.cmp(&b)` on integers. */
  function CompareNat(a: nat, b: nat): (o: Ordering)
    ensures o == Less <==> a < b
    ensures o == Equal <==> a == b
    ensures o == Greater <==> a > b
  {
    if a < b then Less else if a == b then Equal else Greater
  }
}
