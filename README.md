# nft_mint: a verified Dafny model

This project models `nft_mint` from the NEAR NFT contract
(`contracts/nft-simple/src/mint.rs`). The method mints one token and does six things in order:

1. It picks the token id: the caller's id if one is given, otherwise the decimal string of the metadata count plus one.
2. It picks the owner: the receiver if one is given, otherwise the caller.
3. It builds the token's royalty map from three parts, all in basis points that must total exactly 10000:
   - the caller's perpetual royalties;
   - the owner's remainder under an `"owner:<account>"` sentinel key;
   - the contract owner's cut.
4. It records the token, its metadata and its owner-index entry.
5. It enforces the per-type hard cap for tokens tagged with a type in `metadata.extra`.
6. It computes the storage the caller must pay for.

Any failed check aborts the call. The NEAR host then discards every write the call made.

Modules:

- `Types`: account and token ids, the `u32` (`BasisPoints`) and `u64` (`StorageUsage`) ranges, the error kinds, `Option` and `Result`.
- `Decimal`: the decimal rendering used for derived ids (`format!("{}", n)`), its parser, and both round trips.
- `Royalty`: the royalty split.
  - `RoyaltySpec` is its specification, check by check.
  - `BuildRoyalty`, `CopyPerpetual`, `AddOwnerShares` and `SumShares` are the imperative code, with the source's loops. Each is proved equal to its specification.
  - `SumValues` is the sum of a map's values.
- `Minting`: the registry.
  - `Ledger` holds the four tables a mint writes; `Config` holds the settings it only reads.
  - `MintSpec` and `RegisterSpec` specify the mint as a function. `LedgerValid` is the registry invariant.
  - Class `Contract` holds the contract's fields. Its method `NftMint` is proved to produce exactly `MintSpec`'s registry and result, and to keep the invariant.

Assumptions and behaviour worth knowing:

- The model assumes the crate is built with overflow checks on (`overflow-checks = true` in its Cargo release profile), so an overflow aborts the call. The build settings are not part of this model. The model has three such failures:
  - a perpetual total that leaves the `u32` range fails with `ArithmeticOverflow`;
  - `10000 - total - contract_royalty` below zero fails with `ArithmeticUnderflow`;
  - a `u64` storage sum that overflows fails with `ArithmeticOverflow`.
- The sum at line 52 cannot overflow: the map built there totals at most 10000. `AssembledSum` states this for a contract owner whose id contains no `':'` (see below). For any other contract owner the map's values are still bounded by the perpetual total plus 10000, far below the `u32` limit, but no lemma states that.
- Overwrites in the royalty map are kept as the code writes them. A perpetual key equal to the owner's sentinel key is overwritten. So is a perpetual key equal to the contract owner when the owner is someone else.
  - The overwritten value (`Shadowed`) then makes the total differ from 10000, so the mint is refused. The exception is an overwritten value of 0, which changes nothing.
  - `RoyaltyAccepted` states this exactly.
  - These lemmas assume the contract owner's id contains no `':'`, which holds for every NEAR account id. That is what keeps the sentinel key and the contract owner's key apart.
- A derived id is not checked against explicitly chosen ids. `AutoIdCollision` shows the consequence: once "2" has been minted explicitly into an empty registry, the next mint without an id derives "2" again and fails as a duplicate.

## Model

| member | source | states |
|---|---|---|
| Decimal.DecimalString | contracts/nft-simple/src/mint.rs:14 | the derived id is a canonical decimal string: digits only, no leading zero, and it starts with '0' only for zero |
| Decimal.DecimalRoundTrip | contracts/nft-simple/src/mint.rs:14 | reading a derived id back as a number gives the metadata count plus one it was made from, so different counts never derive the same id |
| Decimal.DecimalParseRoundTrip | contracts/nft-simple/src/mint.rs:14 | every canonical decimal string is the rendering of its value, so two different canonical strings never denote the same number |
| Minting.ResolvedTokenId | contracts/nft-simple/src/mint.rs:14-17 | an explicit id is used verbatim; otherwise the id is the canonical rendering of metadata count + 1 |
| Royalty.CopyPerpetual | contracts/nft-simple/src/mint.rs:28-34 | the loop copies every perpetual entry unchanged and its running u32 total equals the entries' sum; it overflows exactly when that sum reaches 2^32 |
| Royalty.SumShares | contracts/nft-simple/src/mint.rs:52 | the loop's sum equals the sum of all values of the royalty map |
| Royalty.AddOwnerShares | contracts/nft-simple/src/mint.rs:39-53 | the owner's remainder and the contract cut are inserted as the second half of the royalty specification says (underflow, imbalance or the assembled map); a success totals 10000 |
| Royalty.BuildRoyalty | contracts/nft-simple/src/mint.rs:25-53 | the royalty code returns exactly what the royalty specification gives, every error case included, and an accepted map totals 10000 |
| Royalty.SentinelIsNotAccount | contracts/nft-simple/src/mint.rs:39-44 | the `"owner:"` sentinel key never equals an account id, which contains no ':' |
| Royalty.AssembledSum | contracts/nft-simple/src/mint.rs:39-53 | the assembled map's total plus the overwritten perpetual shares is exactly 10000 |
| Royalty.RoyaltyAccepted | contracts/nft-simple/src/mint.rs:28-53 | the royalty split is accepted if and only if there are at most 6 entries totalling at most 2000, the contract cut fits, and no overwritten entry was non-zero |
| Royalty.RoyaltyLimits | contracts/nft-simple/src/mint.rs:29-37 | 7 perpetual entries are refused; a total from 2001 up to the u32 limit is refused as too high (both for any contract owner); 6 entries totalling 2000 with a cut of at most 8000 and no overwritten share are accepted when the contract owner's id has no ':' |
| Royalty.RoyaltyContents | contracts/nft-simple/src/mint.rs:39-53 | an accepted map totals 10000 and has no share above 10000; it keeps every perpetual entry it does not overwrite; its keys and values are exact in both the secondary-sale and the primary-sale branch |
| Royalty.AssembledShape | contracts/nft-simple/src/mint.rs:39-49 | the inserts give the owner's sentinel the remainder and, for another owner, the contract owner its cut; all other perpetual entries are kept |
| Royalty.ScenarioPrimarySale | contracts/nft-simple/src/mint.rs:45-49 | the contract owner minting for itself with no perpetual royalties and cut 0 gets {"owner:alice": 10000} |
| Royalty.ScenarioSecondarySale | contracts/nft-simple/src/mint.rs:39-44 | bob minting with carol at 1000 and cut 500 gets {"owner:bob": 8500, "alice": 500, "carol": 1000} |
| Minting.MintAccepted | contracts/nft-simple/src/mint.rs:6-87 | a mint succeeds if and only if the royalty split is accepted, the id is new, the type gate admits it and the storage sum fits a u64; each failure reports the error of the first check that fails: the royalty error, then "Token already exists", then the type gate's `UnknownTokenType` or `SupplyExhausted`, then the storage-sum `ArithmeticOverflow` |
| Minting.TypeGateRules | contracts/nft-simple/src/mint.rs:71-81 | an untagged token passes untouched; an uncapped type and a type at its cap are refused; a capped type with supply below its cap is admitted, and then the id joins its type's set, whose supply grows by one, and every other type is unchanged |
| Minting.MintRecord | contracts/nft-simple/src/mint.rs:55-66 | the recorded token sits under the resolved, previously unused id with the chosen owner, no approvals, next approval id 0 and exactly the royalty map the royalty specification builds, which totals 10000 with no share above 10000; its metadata is the one given |
| Minting.InsertedFrame | contracts/nft-simple/src/mint.rs:61-66 | recording a token adds its id to the token table, the metadata table and its owner's set, and changes no other entry of those tables |
| Minting.RegisterFrame | contracts/nft-simple/src/mint.rs:61-81 | a successful registration is exactly such a recording, and changes at most the tagged type's set |
| Minting.MintStorage | contracts/nft-simple/src/mint.rs:83-85 | the storage to pay for is the per-token baseline plus the measured delta, never below the baseline |
| Minting.InsertKeepsValid | contracts/nft-simple/src/mint.rs:61-80 | recording a fresh token with a balanced royalty, under the type sets the gate admitted, keeps the registry invariant |
| Minting.MintPreservesValid | contracts/nft-simple/src/mint.rs:55-81 | every successful mint keeps the registry invariant: tables agree, the owner index is exact, type sets stay within their caps, and royalties total 10000 |
| Minting.MintSameIdTwiceFails | contracts/nft-simple/src/mint.rs:61-64 | minting the same explicit id twice fails the second time, with "Token already exists" once its royalties are accepted |
| Minting.SupplyCapScenario | contracts/nft-simple/src/mint.rs:71-75 | a type capped at 2 that has issued 2 refuses a third; a type with no cap is refused |
| Minting.MintSupplyCapScenario | contracts/nft-simple/src/mint.rs:71-75 | minting a third "rare" token when "rare" is capped at 2 and has issued 2 fails with "Cannot mint anymore of token type." |
| Minting.AutoIdCollision | contracts/nft-simple/src/mint.rs:14-17 | a derived id can collide with an earlier explicit id, and the mint then fails as a duplicate |
| Minting.Contract.AdmitToType | contracts/nft-simple/src/mint.rs:71-81 | the per-type cap check returns what the type gate specifies: the updated type sets, or why the tag is refused |
| Minting.Contract.Insert | contracts/nft-simple/src/mint.rs:61-80 | the four tables become the registry with the token recorded, and the invariant is kept |
| Minting.Contract.RecordToken | contracts/nft-simple/src/mint.rs:61-85 | the registration checks and writes give exactly the registry and result the registration specification describes; on failure nothing changes |
| Minting.Contract.NftMint | contracts/nft-simple/src/mint.rs:6-88 | the mint leaves the registry and returns the id and required storage exactly as the mint specification describes; on failure nothing changes; the settings are untouched and the registry invariant is kept |

## Left out

- Storage measurement: `env::storage_usage()` is host I/O, so the byte delta of the mint's writes is a parameter (`storageDelta`).
- `refund_deposit`: it is not part of this model. The storage is returned instead. So the deposit check and its failure, and the refund transfer, are not modelled.
- `env::log` of the royalty map: it is output only.
- The caller: `env::predecessor_account_id()` is a parameter. `ValidAccountId` validation belongs to argument decoding and is not modelled.
- `internal_add_token_to_owner` and `nft_supply_for_type` are not part of this model. They are modelled from their use, as adding the id to the owner's set and as the size of the type's set (0 when absent).
- The storage prefix a new per-type `UnorderedSet` gets (line 77) is not modelled. Sets are values.
- Rollback: the host discards the writes of an aborting call. The model instead runs every check before the first write, so a failure leaves the state unchanged. Writes that land and are then undone are not represented.
- Minting.ResolvedTokenId: does not model overflow of `len() + 1` in `u64`, because a registry with 2^64 tokens cannot exist.
- Royalty.CopyPerpetual: the order in which the loop visits the `HashMap` is not modelled. The outcome does not depend on it: every value is non-negative, so some prefix overflows exactly when the whole total does.
- Royalty.RoyaltyAccepted: stated for a contract owner whose id contains no ':'. Without that, the contract owner's key could coincide with the owner's sentinel key, and the lemma says nothing.
- Royalty.RoyaltyContents: the same ':' hypothesis as `RoyaltyAccepted`.
- Wrapping arithmetic: the model does not cover a build without overflow checks. There `u32` and `u64` arithmetic wraps around. For example, perpetual royalties `{a: 4294967295, b: 2}` wrap the total at line 32 to 1, which passes line 37; the line-52 sum then wraps back to exactly 10000, and the mint is accepted with a 4294967295-basis-point share. The model fails that input with `ArithmeticOverflow`. Likewise a contract cut above `10000 - total` at line 43 would wrap and could be accepted, where the model fails with `ArithmeticUnderflow`.
- Token approvals are an empty `map<AccountId, nat>` and `next_approval_id` is 0. Approval handling is outside the mint.
- Token metadata fields other than `extra` are folded into one `details` string. The mint copies them verbatim.
