/** Shared vocabulary of the NFT mint: account and token identifiers, the
    fixed-width integers the contract stores, and the ways a mint can fail. */
module Types {

  /** One past the largest `u32`. */
  const U32_LIMIT: nat := 0x1_0000_0000
  /** One past the largest `u64`. */
  const U64_LIMIT: nat := 0x1_0000_0000_0000_0000

  /** A royalty share in basis points (1/100 of a percent), stored as a `u32`. */
  type BasisPoints = x: int | 0 <= x < 0x1_0000_0000

  /** A byte count of contract storage, stored as a `u64`. */
  type StorageUsage = x: int | 0 <= x < 0x1_0000_0000_0000_0000

  type AccountId = string
  type TokenId = string

  datatype Option<T> = None | Some(value: T)

  /** Every way `nft_mint` can abort. The whole call is then discarded. */
  datatype MintError =
    | TooManyRoyalties     // "Cannot add more than 6 perpetual royalty amounts"
    | RoyaltyTooHigh       // "Perpetual royalties cannot be more than 20%"
    | ArithmeticOverflow   // a checked u32/u64 addition exceeded its width
    | ArithmeticUnderflow  // a checked u32 subtraction went below zero
    | RoyaltyImbalance     // "Royalties sum must be exactly 10000"
    | DuplicateToken       // "Token already exists"
    | UnknownTokenType     // "Token type must have hard cap."
    | SupplyExhausted      // "Cannot mint anymore of token type."

  datatype Result<T> = Success(value: T) | Failure(error: MintError)
}
