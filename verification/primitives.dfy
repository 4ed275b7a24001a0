/*******************************************************************************
 *  Fixed-width value types of the Ethereum primitives the event decoders
 *  produce, plus the Option/Result wrappers used for partial operations.
 *******************************************************************************/

/** Byte strings, fixed-size hashes and addresses, and the bounded integer
    types (`uint*` / `int*` of the Solidity ABI) as subset types of `int`. */
module Primitives {

  datatype Option<+T> = None | Some(value: T)

  datatype Result<+T, +E> = Ok(value: T) | Err(error: E)

  type Byte = x: int | 0 <= x < 0x100
  type Bytes = seq<Byte>

  /** A 20-byte account address (`Address`). */
  type Address = s: Bytes | |s| == 20 witness seq(20, _ => 0)

  /** A 32-byte word (`B256`): log topics, hashes, market identifiers. */
  type B256 = s: Bytes | |s| == 32 witness seq(32, _ => 0)

  type U8 = x: nat | x < 0x100
  type U16 = x: nat | x < 0x1_0000
  type U64 = x: nat | x < 0x1_0000_0000_0000_0000
  type U128 = x: nat | x < 0x1_0000_0000_0000_0000_0000_0000_0000_0000
  type U160 = x: nat | x < 0x1_0000_0000_0000_0000_0000_0000_0000_0000_0000_0000
  type U256 = x: nat | x < 0x1_0000_0000_0000_0000_0000_0000_0000_0000_0000_0000_0000_0000_0000_0000
  type I24 = x: int | -0x80_0000 <= x < 0x80_0000
  type I32 = x: int | -0x8000_0000 <= x < 0x8000_0000
  type I256 = x: int | -0x8000_0000_0000_0000_0000_0000_0000_0000_0000_0000_0000_0000_0000_0000_0000_0000 <= x
                       < 0x8000_0000_0000_0000_0000_0000_0000_0000_0000_0000_0000_0000_0000_0000_0000_0000

  /** keccak-256 as a function value: the hash itself lives in a foreign library. */
  type Keccak = Bytes -> B256
}
