/** Shared value types of the token contracts: EVM words, addresses and
    the revert-or-return shapes every contract call ends in. */
module Types {

  /** 2^256 - 1, the largest value of a Solidity `uint256`. */
  const MAX_UINT256: int := 0xffff_ffff_ffff_ffff_ffff_ffff_ffff_ffff_ffff_ffff_ffff_ffff_ffff_ffff_ffff_ffff

  /** A Solidity `uint256`; arithmetic that would leave this range reverts. */
  type Uint256 = x: int | 0 <= x <= MAX_UINT256

  /** A 160-bit account address. */
  type Address = x: int | 0 <= x < 0x1_0000_0000_0000_0000_0000_0000_0000_0000_0000_0000

  /** `address(0)`: the none-sentinel, origin of mints and destination of burns. */
  const ZeroAddress: Address := 0

  /** An ERC-721 token identifier (a `uint256`). */
  type TokenId = Uint256

  /** A call that returns a value or reverts with an error. */
  datatype Result<T, E> = Ok(value: T) | Err(error: E)

  /** A call that returns nothing or reverts with an error. */
  datatype Outcome<E> = Done | Revert(error: E)
}
