/** The royalty split a mint records on the new token: the caller's
    perpetual royalties, the owner's share under an `"owner:"` sentinel key,
    and the contract owner's cut, all in basis points that must total 10000. */
module Royalty {
  import opened Types

  /** A perpetual-royalty map must have fewer than this many entries. */
  const MAX_PERPETUAL_ENTRIES: nat := 7
  /** Perpetual royalties must total less than this many basis points. */
  const MAX_PERPETUAL_TOTAL: nat := 2001
  /** 100%: what the whole royalty map must total. */
  const FULL_SHARE: nat := 10000

  /** The key that reserves the owner's share in the royalty map. */
  function OwnerKey(account: AccountId): string { "owner:" + account }

  /** A sentinel key is never a key without ':', such as a NEAR account id. */
  lemma SentinelIsNotAccount(owner: AccountId, account: AccountId)
    requires ':' !in account
    ensures OwnerKey(owner) != account
  {
    assert OwnerKey(owner)[5] == ':';
  }

  function Lookup(m: map<string, BasisPoints>, k: string): nat { if k in m then m[k] else 0 }

  /** The sum of the values of a map. */
  ghost function SumValues(m: map<string, BasisPoints>): nat
    decreases |m|
  {
    if |m| == 0 then 0
    else
      var k :| k in m;
      assert (m - {k}).Keys == m.Keys - {k};
      m[k] + SumValues(m - {k})
  }

  /** The key at which `SumValues` takes a non-empty map apart. */
  lemma PickedKey(m: map<string, BasisPoints>) returns (j: string)
    requires |m| != 0
    ensures j in m && SumValues(m) == m[j] + SumValues(m - {j})
  {
    j :| j in m && SumValues(m) == m[j] + SumValues(m - {j});
  }

  /** The sum may be taken apart at any key, not only the one it picks. */
  lemma {:induction false} SumValuesRemove(m: map<string, BasisPoints>, k: string)
    requires k in m
    ensures SumValues(m) == m[k] + SumValues(m - {k})
    decreases |m|
  {
    var j := PickedKey(m);
    if j != k {
      assert (m - {j}).Keys == m.Keys - {j};
      assert (m - {k}).Keys == m.Keys - {k};
      SumValuesRemove(m - {j}, k);
      SumValuesRemove(m - {k}, j);
      assert m - {j} - {k} == m - {k} - {j};
    }
  }

  /** Inserting `k := v` adds `v` and drops whatever `k` held before. */
  lemma SumValuesUpdate(m: map<string, BasisPoints>, k: string, v: BasisPoints)
    ensures SumValues(m[k := v]) + Lookup(m, k) == SumValues(m) + v
  {
    SumValuesRemove(m[k := v], k);
    assert m[k := v] - {k} == m - {k};
    if k in m {
      SumValuesRemove(m, k);
    } else {
      assert m - {k} == m;
    }
  }

  /** No single value exceeds the sum. */
  lemma SumValuesBound(m: map<string, BasisPoints>)
    ensures forall k :: k in m ==> m[k] <= SumValues(m)
  {
    forall k | k in m ensures m[k] <= SumValues(m) {
      SumValuesRemove(m, k);
    }
  }

  function PerpetualEntries(perpetual: Option<map<AccountId, BasisPoints>>): map<AccountId, BasisPoints>
  {
    if perpetual.Some? then perpetual.value else map[]
  }

  /** The map after the sentinel and contract-owner inserts, with real
      overwrite semantics: an insert replaces a perpetual entry of the same key. */
  function Assembled(base: map<string, BasisPoints>, total: nat, owner: AccountId,
                     contractOwner: AccountId, contractRoyalty: BasisPoints): map<string, BasisPoints>
    requires total <= FULL_SHARE
    requires owner != contractOwner ==> contractRoyalty <= FULL_SHARE - total
  {
    if owner != contractOwner then
      base[OwnerKey(owner) := FULL_SHARE - total - contractRoyalty][contractOwner := contractRoyalty]
    else
      base[OwnerKey(contractOwner) := FULL_SHARE - total]
  }

  /** The perpetual shares that the inserts of `Assembled` overwrite. */
  function Shadowed(base: map<string, BasisPoints>, owner: AccountId, contractOwner: AccountId): nat
  {
    Lookup(base, OwnerKey(owner)) + (if owner != contractOwner then Lookup(base, contractOwner) else 0)
  }

  /** What the royalty construction of a mint yields, check by check in the
      order the contract performs them. */
  ghost function RoyaltySpec(perpetual: Option<map<AccountId, BasisPoints>>, owner: AccountId,
                             contractOwner: AccountId, contractRoyalty: BasisPoints): Result<map<string, BasisPoints>>
  {
    var base := PerpetualEntries(perpetual);
    var total := SumValues(base);
    if |base| >= MAX_PERPETUAL_ENTRIES then Failure(TooManyRoyalties)
    else if total >= U32_LIMIT then Failure(ArithmeticOverflow)
    else if total >= MAX_PERPETUAL_TOTAL then Failure(RoyaltyTooHigh)
    else OwnerShares(base, total, owner, contractOwner, contractRoyalty)
  }

  /** The second half of a royalty construction: the remainder to the
      owner's sentinel, the cut to the contract owner, then the total check. */
  ghost function OwnerShares(base: map<string, BasisPoints>, total: nat, owner: AccountId,
                             contractOwner: AccountId, contractRoyalty: BasisPoints): Result<map<string, BasisPoints>>
    requires total <= FULL_SHARE
  {
    if owner != contractOwner && contractRoyalty > FULL_SHARE - total then Failure(ArithmeticUnderflow)
    else
      var royalty := Assembled(base, total, owner, contractOwner, contractRoyalty);
      if SumValues(royalty) != FULL_SHARE then Failure(RoyaltyImbalance) else Success(royalty)
  }

  /** The assembled map falls short of 10000 by exactly the perpetual shares
      its inserts overwrote; in particular it never exceeds 10000, so the
      contract's u32 sum of it cannot overflow. */
  lemma AssembledSum(base: map<string, BasisPoints>, owner: AccountId, contractOwner: AccountId,
                     contractRoyalty: BasisPoints)
    requires SumValues(base) <= FULL_SHARE
    requires owner != contractOwner ==> contractRoyalty <= FULL_SHARE - SumValues(base)
    requires ':' !in contractOwner
    ensures SumValues(Assembled(base, SumValues(base), owner, contractOwner, contractRoyalty))
            + Shadowed(base, owner, contractOwner) == FULL_SHARE
  {
    if owner != contractOwner {
      SplitSum(base, SumValues(base), owner, contractOwner, contractRoyalty);
    } else {
      var share: BasisPoints := FULL_SHARE - SumValues(base);
      SumValuesUpdate(base, OwnerKey(contractOwner), share);
    }
  }

  /** `AssembledSum` when the owner and the contract owner differ. */
  lemma SplitSum(base: map<string, BasisPoints>, total: nat, owner: AccountId, contractOwner: AccountId,
                 contractRoyalty: BasisPoints)
    requires total == SumValues(base) <= FULL_SHARE
    requires owner != contractOwner && contractRoyalty <= FULL_SHARE - total
    requires ':' !in contractOwner
    ensures SumValues(Assembled(base, total, owner, contractOwner, contractRoyalty))
            + Lookup(base, OwnerKey(owner)) + Lookup(base, contractOwner) == FULL_SHARE
  {
    var share: BasisPoints := FULL_SHARE - total - contractRoyalty;
    var first: map<string, BasisPoints> := base[OwnerKey(owner) := share];
    assert Assembled(base, total, owner, contractOwner, contractRoyalty) == first[contractOwner := contractRoyalty];
    SumValuesUpdate(base, OwnerKey(owner), share);
    SumValuesUpdate(first, contractOwner, contractRoyalty);
    SentinelIsNotAccount(owner, contractOwner);
    assert Lookup(first, contractOwner) == Lookup(base, contractOwner);
  }

  /** A royalty construction succeeds exactly when the perpetual map has at
      most 6 entries totalling at most 2000, the contract cut fits in what is
      left, and no perpetual entry with a non-zero share sits under a key the
      contract then overwrites. */
  lemma RoyaltyAccepted(perpetual: Option<map<AccountId, BasisPoints>>, owner: AccountId,
                        contractOwner: AccountId, contractRoyalty: BasisPoints)
    requires ':' !in contractOwner
    ensures var base := PerpetualEntries(perpetual);
            RoyaltySpec(perpetual, owner, contractOwner, contractRoyalty).Success? <==>
              && |base| < MAX_PERPETUAL_ENTRIES
              && SumValues(base) < MAX_PERPETUAL_TOTAL
              && (owner != contractOwner ==> SumValues(base) + contractRoyalty <= FULL_SHARE)
              && Shadowed(base, owner, contractOwner) == 0
  {
    var base := PerpetualEntries(perpetual);
    if |base| < MAX_PERPETUAL_ENTRIES && SumValues(base) < MAX_PERPETUAL_TOTAL
       && (owner != contractOwner ==> SumValues(base) + contractRoyalty <= FULL_SHARE) {
      AssembledSum(base, owner, contractOwner, contractRoyalty);
    }
  }

  /** The boundaries of the two perpetual-royalty limits: 7 entries are
      refused and 6 allowed; a total of 2001 is refused and 2000 allowed. */
  lemma RoyaltyLimits(perpetual: Option<map<AccountId, BasisPoints>>, owner: AccountId,
                      contractOwner: AccountId, contractRoyalty: BasisPoints)
    ensures var base := PerpetualEntries(perpetual);
            var r := RoyaltySpec(perpetual, owner, contractOwner, contractRoyalty);
            && (|base| >= 7 ==> r == Failure(TooManyRoyalties))
            && (|base| <= 6 && MAX_PERPETUAL_TOTAL <= SumValues(base) < U32_LIMIT ==> r == Failure(RoyaltyTooHigh))
            && ((':' !in contractOwner && |base| <= 6 && SumValues(base) <= 2000 && contractRoyalty <= FULL_SHARE - 2000
                 && Shadowed(base, owner, contractOwner) == 0) ==> r.Success?)
  {
    if ':' !in contractOwner {
      RoyaltyAccepted(perpetual, owner, contractOwner, contractRoyalty);
    }
  }

  /** A successful royalty map totals exactly 10000, holds no share above
      10000, keeps every perpetual entry the contract does not overwrite,
      gives the owner's sentinel what is left, and gives the contract owner
      its cut only when someone else owns the token. */
  lemma RoyaltyContents(perpetual: Option<map<AccountId, BasisPoints>>, owner: AccountId,
                        contractOwner: AccountId, contractRoyalty: BasisPoints)
    requires ':' !in contractOwner
    requires RoyaltySpec(perpetual, owner, contractOwner, contractRoyalty).Success?
    ensures var r := RoyaltySpec(perpetual, owner, contractOwner, contractRoyalty).value;
            var base := PerpetualEntries(perpetual);
            var total := SumValues(base);
            && SumValues(r) == FULL_SHARE
            && (forall k :: k in r ==> r[k] <= FULL_SHARE)
            && (forall k :: k in base && k != OwnerKey(owner) && (owner != contractOwner ==> k != contractOwner)
                  ==> k in r && r[k] == base[k])
            && (owner != contractOwner ==>
                  && r.Keys == base.Keys + {OwnerKey(owner), contractOwner}
                  && r[OwnerKey(owner)] == FULL_SHARE - total - contractRoyalty
                  && r[contractOwner] == contractRoyalty)
            && (owner == contractOwner ==>
                  && r.Keys == base.Keys + {OwnerKey(contractOwner)}
                  && r[OwnerKey(contractOwner)] == FULL_SHARE - total)
  {
    var base := PerpetualEntries(perpetual);
    var r := RoyaltySpec(perpetual, owner, contractOwner, contractRoyalty).value;
    assert r == Assembled(base, SumValues(base), owner, contractOwner, contractRoyalty);
    SumValuesBound(r);
    AssembledShape(base, SumValues(base), owner, contractOwner, contractRoyalty);
  }

  /** The keys and values `Assembled` produces: every perpetual entry it does
      not overwrite, the owner's sentinel with the remainder, and the
      contract owner's cut when the owner is someone else. */
  lemma AssembledShape(base: map<string, BasisPoints>, total: nat, owner: AccountId,
                       contractOwner: AccountId, contractRoyalty: BasisPoints)
    requires total <= FULL_SHARE
    requires owner != contractOwner ==> contractRoyalty <= FULL_SHARE - total
    requires ':' !in contractOwner
    ensures var r := Assembled(base, total, owner, contractOwner, contractRoyalty);
            && (forall k :: k in base && k != OwnerKey(owner) && (owner != contractOwner ==> k != contractOwner)
                  ==> k in r && r[k] == base[k])
            && (owner != contractOwner ==>
                  && r.Keys == base.Keys + {OwnerKey(owner), contractOwner}
                  && r[OwnerKey(owner)] == FULL_SHARE - total - contractRoyalty
                  && r[contractOwner] == contractRoyalty)
            && (owner == contractOwner ==>
                  && r.Keys == base.Keys + {OwnerKey(contractOwner)}
                  && r[OwnerKey(contractOwner)] == FULL_SHARE - total)
  {
    SentinelIsNotAccount(owner, contractOwner);
  }

  /** The contract owner mints for itself with no perpetual royalties and a
      zero cut: the whole share goes to its sentinel key. */
  lemma ScenarioPrimarySale()
    ensures RoyaltySpec(None, "alice", "alice", 0) == Success(map["owner:alice" := 10000])
  {
    var base: map<string, BasisPoints> := map[];
    assert SumValues(base) == 0;
    assert OwnerKey("alice") == "owner:alice";
    AssembledSum(base, "alice", "alice", 0);
    assert Assembled(base, 0, "alice", "alice", 0) == map["owner:alice" := 10000];
  }

  /** Another account mints with one perpetual royalty and a cut of 500: the
      perpetual entry stays, the owner gets 8500 and the contract owner 500. */
  lemma ScenarioSecondarySale()
    ensures RoyaltySpec(Some(map["carol" := 1000]), "bob", "alice", 500)
            == Success(map["owner:bob" := 8500, "alice" := 500, "carol" := 1000])
  {
    var base: map<string, BasisPoints> := map["carol" := 1000];
    SingletonSum("carol", 1000);
    assert OwnerKey("bob") == "owner:bob";
    assert "owner:bob" != "carol" && "alice" != "carol";
    assert Shadowed(base, "bob", "alice") == 0;
    AssembledSum(base, "bob", "alice", 500);
    assert Assembled(base, 1000, "bob", "alice", 500)
           == map["owner:bob" := 8500, "alice" := 500, "carol" := 1000];
  }

  /** A one-entry map sums to its value. */
  lemma SingletonSum(k: string, v: BasisPoints)
    ensures SumValues(map[k := v]) == v
  {
    var empty: map<string, BasisPoints> := map[];
    assert |empty| == 0;
    SumValuesUpdate(empty, k, v);
    assert empty[k := v] == map[k := v];
  }

  /** The sum of a royalty map, value by value, as the contract reduces its values. */
  method SumShares(royalty: map<string, BasisPoints>) returns (sum: nat)
    ensures sum == SumValues(royalty)
  {
    sum := 0;
    var left := royalty;
    while left != map[]
      invariant sum + SumValues(left) == SumValues(royalty)
      decreases |left|
    {
      var k :| k in left;
      SumValuesRemove(left, k);
      assert (left - {k}).Keys == left.Keys - {k};
      sum := sum + left[k];
      left := left - {k};
    }
    assert |left| == 0;
  }

  /** Copies the perpetual entries one by one into a fresh royalty map while
      accumulating their u32 total; reports an overflow of that total. */
  method CopyPerpetual(entries: map<AccountId, BasisPoints>)
    returns (royalty: map<string, BasisPoints>, totalPerpetual: nat, overflow: bool)
    ensures overflow <==> SumValues(entries) >= U32_LIMIT
    ensures !overflow ==> royalty == entries && totalPerpetual == SumValues(entries)
  {
    royalty, totalPerpetual, overflow := map[], 0, false;
    var left := entries;
    while left != map[]
      invariant forall k :: k in left ==> k in entries && left[k] == entries[k]
      invariant forall k :: k in royalty <==> k in entries && k !in left
      invariant forall k :: k in royalty ==> royalty[k] == entries[k]
      invariant totalPerpetual + SumValues(left) == SumValues(entries)
      invariant totalPerpetual < U32_LIMIT
      decreases |left|
    {
      var account :| account in left;
      var amount := left[account];
      SumValuesRemove(left, account);
      if totalPerpetual + amount >= U32_LIMIT {
        return royalty, totalPerpetual, true;
      }
      assert (left - {account}).Keys == left.Keys - {account};
      royalty := royalty[account := amount];
      totalPerpetual := totalPerpetual + amount;
      left := left - {account};
    }
    assert |left| == 0;
    assert royalty.Keys == entries.Keys;
  }

  /** Builds the royalty map of a mint: copies the perpetual entries, checks
      the two limits, inserts the owner's sentinel and (for another owner)
      the contract owner's cut, and checks that the result totals 10000. */
  method BuildRoyalty(perpetual: Option<map<AccountId, BasisPoints>>, owner: AccountId,
                      contractOwner: AccountId, contractRoyalty: BasisPoints)
    returns (r: Result<map<string, BasisPoints>>)
    ensures r == RoyaltySpec(perpetual, owner, contractOwner, contractRoyalty)
    ensures r.Success? ==> SumValues(r.value) == FULL_SHARE
  {
    var royalty: map<string, BasisPoints> := map[];
    var totalPerpetual: nat := 0;
    assert |royalty| == 0;
    if perpetual.Some? {
      if |perpetual.value| >= MAX_PERPETUAL_ENTRIES {
        return Failure(TooManyRoyalties);
      }
      var overflow;
      royalty, totalPerpetual, overflow := CopyPerpetual(perpetual.value);
      if overflow {
        return Failure(ArithmeticOverflow);
      }
    }
    assert royalty == PerpetualEntries(perpetual) && totalPerpetual == SumValues(royalty);
    if totalPerpetual >= MAX_PERPETUAL_TOTAL {
      return Failure(RoyaltyTooHigh);
    }
    r := AddOwnerShares(royalty, totalPerpetual, owner, contractOwner, contractRoyalty);
  }

  /** Adds the owner's remainder and the contract owner's cut to the copied
      perpetual entries and checks the total. */
  method AddOwnerShares(royalty: map<string, BasisPoints>, totalPerpetual: nat, owner: AccountId,
                        contractOwner: AccountId, contractRoyalty: BasisPoints)
    returns (r: Result<map<string, BasisPoints>>)
    requires totalPerpetual <= FULL_SHARE
    ensures r == OwnerShares(royalty, totalPerpetual, owner, contractOwner, contractRoyalty)
    ensures r.Success? ==> SumValues(r.value) == FULL_SHARE
  {
    var shares := royalty;
    var ownerKey := "owner:";
    if owner != contractOwner {
      ownerKey := ownerKey + owner;
      if contractRoyalty > FULL_SHARE - totalPerpetual {
        return Failure(ArithmeticUnderflow);
      }
      shares := shares[ownerKey := FULL_SHARE - totalPerpetual - contractRoyalty];
      shares := shares[contractOwner := contractRoyalty];
    } else {
      ownerKey := ownerKey + contractOwner;
      shares := shares[ownerKey := FULL_SHARE - totalPerpetual];
    }
    assert shares == Assembled(royalty, totalPerpetual, owner, contractOwner, contractRoyalty);
    var sum := SumShares(shares);
    if sum != FULL_SHARE {
      return Failure(RoyaltyImbalance);
    }
    r := Success(shares);
  }
}
