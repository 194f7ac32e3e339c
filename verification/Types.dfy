/** Types shared by the model of the library: status codes, handles, device
    addresses and caller memory locations. */
module Types {
  datatype Option<+T> = None | Some(value: T)

  newtype byte = x: int | 0 <= x < 256

  /** A connection handle is an opaque pointer; only equality and NULL matter. */
  type Handle = nat
  const NULL_HANDLE: Handle := 0

  /** Six bytes; `memcmp` over MAC_ADDR_LEN bytes is equality of these sequences. */
  type Address = seq<byte>
  const MAC_ADDR_LEN: nat := 6
  const ZERO_ADDRESS: Address := [0, 0, 0, 0, 0, 0]

  /** A caller-owned output location. */
  type Loc = nat

  /** The ACE status codes that the library itself returns; every other code an
      `ace_bt` call may return is an `OtherStatus`. */
  datatype Status =
    | Ok
    | BadParam
    | Timeout
    | Uninitialized
    | OutOfMemory
    | GeneralError
    | OtherStatus(code: int)

  lemma Associative<T>(a: seq<T>, b: seq<T>, c: seq<T>)
    ensures a + (b + c) == (a + b) + c
  {
  }
}
