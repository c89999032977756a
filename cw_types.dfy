/** The CosmWasm vocabulary both core components are written in: fixed-width
    integers, addresses, the standard error, coins and events. */
module CwTypes {

  newtype uint8 = x: int | 0 <= x < 0x100
  newtype uint32 = x: int | 0 <= x < 0x1_0000_0000

  const UINT32_MAX: uint32 := 0xFFFF_FFFF

  /** Raw bytes (`HexBinary`, `Vec<u8>`). */
  type Bytes = seq<uint8>

  /** A validated address (`cosmwasm_std::Addr`), which is a string. */
  type Addr = string

  datatype Option<T> = None | Some(value: T)

  datatype Result<T, E> = Ok(value: T) | Err(error: E)

  /** The two kinds of `cosmwasm_std::StdError` the core raises itself: a
      storage item that was never saved, and a message-only error. Errors of
      the collaborators (address validation, queries) are values of this
      type as well, chosen by the collaborator. */
  datatype StdError =
    | NotFound(kind: string)
    | GenericErr(msg: string)

  datatype Coin = Coin(denom: string, amount: nat)

  datatype Attribute = Attribute(key: string, value: string)

  datatype Event = Event(ty: string, attributes: seq<Attribute>)
}
