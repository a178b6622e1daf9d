/** `nft_mint` of the NFT registry contract: resolve the token id, choose the
    owner, build the royalty split, insert the token, its metadata and its
    owner-index entry, enforce the per-type supply cap, and work out the
    storage the mint must pay for. */
module Minting {
  import opened Types
  import opened Royalty
  import Decimal

  /** Descriptive metadata. Only `extra`, the token-type tag, matters to a
      mint; `details` stands for every other field. */
  datatype TokenMetadata = TokenMetadata(details: string, extra: Option<string>)

  datatype Token = Token(
    ownerId: AccountId,
    approvedAccountIds: map<AccountId, nat>,
    nextApprovalId: nat,
    royalty: map<string, BasisPoints>)

  /** Contract settings a mint only reads. */
  datatype Config = Config(
    ownerId: AccountId,
    contractRoyalty: BasisPoints,
    extraStorageInBytesPerToken: StorageUsage,
    hardCapByType: map<string, nat>)

  /** The registry tables a mint writes. */
  datatype Ledger = Ledger(
    tokensById: map<TokenId, Token>,
    tokenMetadataById: map<TokenId, TokenMetadata>,
    tokensPerOwner: map<AccountId, set<TokenId>>,
    tokensPerType: map<string, set<TokenId>>)

  /** The arguments a caller passes to a mint. */
  datatype MintArgs = MintArgs(
    tokenId: Option<TokenId>,
    metadata: TokenMetadata,
    perpetualRoyalties: Option<map<AccountId, BasisPoints>>,
    receiverId: Option<AccountId>)

  /** What a successful mint reports: the id it used and the storage bytes
      handed to the deposit refund. */
  datatype Minted = Minted(tokenId: TokenId, requiredStorage: StorageUsage)

  datatype MintEffect = MintEffect(after: Ledger, minted: Minted)

  /** An explicit id wins; otherwise the decimal string of the metadata count plus one. */
  function ResolveTokenId(metadataCount: nat, tokenId: Option<TokenId>): TokenId
  {
    if tokenId.Some? then tokenId.value else Decimal.DecimalString(metadataCount + 1)
  }

  /** The receiver when one is given, otherwise the caller. */
  function EffectiveOwner(caller: AccountId, receiverId: Option<AccountId>): AccountId
  {
    if receiverId.Some? then receiverId.value else caller
  }

  /** A fresh token: no approvals yet, next approval id 0. */
  function NewToken(owner: AccountId, royalty: map<string, BasisPoints>): Token
  {
    Token(owner, map[], 0, royalty)
  }

  function TokensOf(tokensPerOwner: map<AccountId, set<TokenId>>, owner: AccountId): set<TokenId>
  {
    if owner in tokensPerOwner then tokensPerOwner[owner] else {}
  }

  function AddToOwner(tokensPerOwner: map<AccountId, set<TokenId>>, owner: AccountId, id: TokenId)
    : map<AccountId, set<TokenId>>
  {
    tokensPerOwner[owner := TokensOf(tokensPerOwner, owner) + {id}]
  }

  function TokensOfType(tokensPerType: map<string, set<TokenId>>, tokenType: string): set<TokenId>
  {
    if tokenType in tokensPerType then tokensPerType[tokenType] else {}
  }

  /** The issued supply of a type: the size of its token set, 0 before its first mint. */
  function SupplyForType(tokensPerType: map<string, set<TokenId>>, tokenType: string): nat
  {
    |TokensOfType(tokensPerType, tokenType)|
  }

  /** The per-type hard cap: a tagged mint needs a configured cap and supply
      below it, and then records the new id under its type. */
  function TypeGate(hardCapByType: map<string, nat>, tokensPerType: map<string, set<TokenId>>,
                    extra: Option<string>, id: TokenId): Result<map<string, set<TokenId>>>
  {
    match extra
    case None => Success(tokensPerType)
    case Some(tokenType) =>
      if tokenType !in hardCapByType then Failure(UnknownTokenType)
      else if SupplyForType(tokensPerType, tokenType) >= hardCapByType[tokenType] then Failure(SupplyExhausted)
      else Success(tokensPerType[tokenType := TokensOfType(tokensPerType, tokenType) + {id}])
  }

  /** The registry after recording `token` under `id`: token and metadata
      tables, the owner's set, and the given type sets. */
  function Inserted(l: Ledger, id: TokenId, token: Token, md: TokenMetadata,
                    types: map<string, set<TokenId>>): Ledger
  {
    Ledger(l.tokensById[id := token], l.tokenMetadataById[id := md],
           AddToOwner(l.tokensPerOwner, token.ownerId, id), types)
  }

  /** What a mint does to the registry, step by step in the contract's order;
      any failure discards the whole call. `storageDelta` is the host's
      measurement of the bytes the mint's writes added. */
  ghost function MintSpec(c: Config, l: Ledger, caller: AccountId, args: MintArgs,
                          storageDelta: StorageUsage): Result<MintEffect>
  {
    var owner := EffectiveOwner(caller, args.receiverId);
    var royalty := RoyaltySpec(args.perpetualRoyalties, owner, c.ownerId, c.contractRoyalty);
    if royalty.Failure? then Failure(royalty.error)
    else RegisterSpec(c, l, ResolveTokenId(|l.tokenMetadataById|, args.tokenId),
                      NewToken(owner, royalty.value), args.metadata, storageDelta)
  }

  /** The second half of a mint, once the royalty split is accepted: the id
      must be new, the type gate must admit it, and the storage sum must fit
      a u64; then the token is recorded. */
  function RegisterSpec(c: Config, l: Ledger, id: TokenId, token: Token, md: TokenMetadata,
                        storageDelta: StorageUsage): Result<MintEffect>
  {
    if id in l.tokensById then Failure(DuplicateToken)
    else
      var gate := TypeGate(c.hardCapByType, l.tokensPerType, md.extra, id);
      if gate.Failure? then Failure(gate.error)
      else if c.extraStorageInBytesPerToken + storageDelta >= U64_LIMIT then Failure(ArithmeticOverflow)
      else Success(MintEffect(Inserted(l, id, token, md, gate.value),
                              Minted(id, c.extraStorageInBytesPerToken + storageDelta)))
  }

  /** An id has metadata exactly when it names a token. */
  predicate HasMetadata(l: Ledger, id: TokenId)
  {
    id in l.tokenMetadataById <==> id in l.tokensById
  }

  /** Every token has metadata and every metadata record a token. */
  ghost predicate TablesAgree(l: Ledger)
  {
    forall id :: HasMetadata(l, id)
  }

  /** A registered token is listed under its owner. */
  predicate Listed(l: Ledger, id: TokenId)
  {
    id in l.tokensById ==> id in TokensOf(l.tokensPerOwner, l.tokensById[id].ownerId)
  }

  /** An id listed under an account is a registered token that account owns. */
  predicate OwnedAsListed(l: Ledger, o: AccountId, id: TokenId)
  {
    o in l.tokensPerOwner && id in l.tokensPerOwner[o] ==> id in l.tokensById && l.tokensById[id].ownerId == o
  }

  /** The owner index lists exactly the tokens each account owns. */
  ghost predicate OwnerIndexExact(l: Ledger)
  {
    (forall id :: Listed(l, id)) && (forall o, id :: OwnedAsListed(l, o, id))
  }

  /** A type set holds registered tokens of a capped type and stays within its cap. */
  predicate TypeSetCapped(c: Config, l: Ledger, t: string)
  {
    t in l.tokensPerType ==>
      && l.tokensPerType[t] <= l.tokensById.Keys
      && t in c.hardCapByType
      && |l.tokensPerType[t]| <= c.hardCapByType[t]
  }

  ghost predicate TypeSetsCapped(c: Config, l: Ledger)
  {
    forall t :: TypeSetCapped(c, l, t)
  }

  /** A registered token's royalty map totals 10000. */
  ghost predicate Balanced(l: Ledger, id: TokenId)
  {
    id in l.tokensById ==> SumValues(l.tokensById[id].royalty) == FULL_SHARE
  }

  ghost predicate RoyaltiesBalanced(l: Ledger)
  {
    forall id :: Balanced(l, id)
  }

  /** The registry invariant. */
  ghost predicate LedgerValid(c: Config, l: Ledger)
  {
    TablesAgree(l) && OwnerIndexExact(l) && TypeSetsCapped(c, l) && RoyaltiesBalanced(l)
  }

  /** A given id is used verbatim; a derived one is the canonical decimal
      string of the metadata count plus one, and reads back as that number. */
  lemma ResolvedTokenId(metadataCount: nat, tokenId: Option<TokenId>)
    ensures tokenId.Some? ==> ResolveTokenId(metadataCount, tokenId) == tokenId.value
    ensures tokenId.None? ==>
              && Decimal.IsCanonical(ResolveTokenId(metadataCount, tokenId))
              && Decimal.DecimalValue(ResolveTokenId(metadataCount, tokenId)) == metadataCount + 1
  {
    Decimal.DecimalRoundTrip(metadataCount + 1);
  }

  /** A mint succeeds exactly when its royalty split is accepted, its id is
      new, its type (if tagged) has a cap with room left, and the storage sum
      fits a u64; otherwise it fails with the error of the first check that
      does not hold. */
  lemma MintAccepted(c: Config, l: Ledger, caller: AccountId, args: MintArgs, storageDelta: StorageUsage)
    ensures var id := ResolveTokenId(|l.tokenMetadataById|, args.tokenId);
            var owner := EffectiveOwner(caller, args.receiverId);
            var royalty := RoyaltySpec(args.perpetualRoyalties, owner, c.ownerId, c.contractRoyalty);
            var r := MintSpec(c, l, caller, args, storageDelta);
            && (r.Success? <==>
                  && royalty.Success?
                  && id !in l.tokensById
                  && TypeGate(c.hardCapByType, l.tokensPerType, args.metadata.extra, id).Success?
                  && c.extraStorageInBytesPerToken + storageDelta < U64_LIMIT)
            && (royalty.Failure? ==> r == Failure(royalty.error))
            && (royalty.Success? && id in l.tokensById ==> r == Failure(DuplicateToken))
            && (var gate := TypeGate(c.hardCapByType, l.tokensPerType, args.metadata.extra, id);
                && (royalty.Success? && id !in l.tokensById && gate.Failure? ==> r == Failure(gate.error))
                && ((royalty.Success? && id !in l.tokensById && gate.Success?
                     && c.extraStorageInBytesPerToken + storageDelta >= U64_LIMIT) ==> r == Failure(ArithmeticOverflow)))
  {
  }

  /** The per-type cap: an untagged mint leaves every type set alone; a tag
      without a configured cap is refused, as is a type whose supply has
      reached its cap; otherwise the id joins its type's set (created empty
      if absent), that set grows by one, and every other type is unchanged. */
  lemma TypeGateRules(hardCapByType: map<string, nat>, tokensPerType: map<string, set<TokenId>>,
                      extra: Option<string>, id: TokenId)
    ensures extra.None? ==> TypeGate(hardCapByType, tokensPerType, extra, id) == Success(tokensPerType)
    ensures extra.Some? && extra.value !in hardCapByType ==>
              TypeGate(hardCapByType, tokensPerType, extra, id) == Failure(UnknownTokenType)
    ensures extra.Some? && extra.value in hardCapByType
              && SupplyForType(tokensPerType, extra.value) >= hardCapByType[extra.value] ==>
              TypeGate(hardCapByType, tokensPerType, extra, id) == Failure(SupplyExhausted)
    ensures extra.Some? && extra.value in hardCapByType
              && SupplyForType(tokensPerType, extra.value) < hardCapByType[extra.value] ==>
              TypeGate(hardCapByType, tokensPerType, extra, id).Success?
    ensures extra.Some? && TypeGate(hardCapByType, tokensPerType, extra, id).Success? ==>
              var r := TypeGate(hardCapByType, tokensPerType, extra, id).value;
              var t := extra.value;
              && SupplyForType(tokensPerType, t) < hardCapByType[t]
              && t in r && id in r[t]
              && r[t] == TokensOfType(tokensPerType, t) + {id}
              && (id !in TokensOfType(tokensPerType, t) ==> SupplyForType(r, t) == SupplyForType(tokensPerType, t) + 1)
              && r.Keys == tokensPerType.Keys + {t}
              && (forall u :: u in tokensPerType && u != t ==> r[u] == tokensPerType[u])
  {
  }

  /** The token a successful mint records: under the resolved id, owned by
      the receiver or else the caller, with no approvals, next approval id 0,
      and a royalty map totalling exactly 10000 with no share above 10000. */
  lemma MintRecord(c: Config, l: Ledger, caller: AccountId, args: MintArgs, storageDelta: StorageUsage)
    requires MintSpec(c, l, caller, args, storageDelta).Success?
    ensures var e := MintSpec(c, l, caller, args, storageDelta).value;
            var id := e.minted.tokenId;
            var owner := EffectiveOwner(caller, args.receiverId);
            && id == ResolveTokenId(|l.tokenMetadataById|, args.tokenId)
            && id !in l.tokensById
            && id in e.after.tokensById
            && e.after.tokensById[id].ownerId == owner
            && e.after.tokensById[id].approvedAccountIds == map[]
            && e.after.tokensById[id].nextApprovalId == 0
            && e.after.tokensById[id].royalty == RoyaltySpec(args.perpetualRoyalties, owner, c.ownerId, c.contractRoyalty).value
            && SumValues(e.after.tokensById[id].royalty) == FULL_SHARE
            && (forall k :: k in e.after.tokensById[id].royalty ==> e.after.tokensById[id].royalty[k] <= FULL_SHARE)
            && id in e.after.tokenMetadataById && e.after.tokenMetadataById[id] == args.metadata
  {
    var id, owner, royalty, types := MintParts(c, l, caller, args, storageDelta);
    InsertedFrame(l, id, NewToken(owner, royalty), args.metadata, types);
    SumValuesBound(royalty);
  }

  /** Recording a token adds its id to the token and metadata tables and to
      its owner's set; every existing token, every other metadata record and
      every other owner's set is unchanged. */
  lemma InsertedFrame(l: Ledger, id: TokenId, token: Token, md: TokenMetadata,
                      types: map<string, set<TokenId>>)
    requires id !in l.tokensById
    ensures var a := Inserted(l, id, token, md, types);
            && a.tokensById.Keys == l.tokensById.Keys + {id}
            && a.tokensById[id] == token
            && (forall k :: k in l.tokensById ==> a.tokensById[k] == l.tokensById[k])
            && a.tokenMetadataById.Keys == l.tokenMetadataById.Keys + {id}
            && a.tokenMetadataById[id] == md
            && (forall k :: k in l.tokenMetadataById && k != id ==> a.tokenMetadataById[k] == l.tokenMetadataById[k])
            && TokensOf(a.tokensPerOwner, token.ownerId) == TokensOf(l.tokensPerOwner, token.ownerId) + {id}
            && a.tokensPerOwner.Keys == l.tokensPerOwner.Keys + {token.ownerId}
            && (forall o :: o in l.tokensPerOwner && o != token.ownerId ==> a.tokensPerOwner[o] == l.tokensPerOwner[o])
  {
    var a := Inserted(l, id, token, md, types);
    assert a.tokensById.Keys == l.tokensById.Keys + {id};
    assert a.tokenMetadataById.Keys == l.tokenMetadataById.Keys + {id};
  }

  /** A successful registration changes only what `InsertedFrame` lists,
      and at most the one type set the token is tagged with. */
  lemma RegisterFrame(c: Config, l: Ledger, id: TokenId, token: Token, md: TokenMetadata,
                      storageDelta: StorageUsage)
    requires RegisterSpec(c, l, id, token, md, storageDelta).Success?
    ensures var e := RegisterSpec(c, l, id, token, md, storageDelta).value;
            && e.minted.tokenId == id
            && id !in l.tokensById
            && e.after == Inserted(l, id, token, md, e.after.tokensPerType)
            && (md.extra.None? ==> e.after.tokensPerType == l.tokensPerType)
            && (md.extra.Some? ==>
                  forall u :: u != md.extra.value ==>
                    (u in e.after.tokensPerType <==> u in l.tokensPerType)
                    && (u in l.tokensPerType ==> e.after.tokensPerType[u] == l.tokensPerType[u]))
  {
    TypeGateRules(c.hardCapByType, l.tokensPerType, md.extra, id);
  }

  /** The storage a mint must pay for is the per-token baseline plus the
      measured delta, hence never below the baseline. */
  lemma MintStorage(c: Config, l: Ledger, caller: AccountId, args: MintArgs, storageDelta: StorageUsage)
    requires MintSpec(c, l, caller, args, storageDelta).Success?
    ensures var required := MintSpec(c, l, caller, args, storageDelta).value.minted.requiredStorage;
            && required == c.extraStorageInBytesPerToken + storageDelta
            && required >= c.extraStorageInBytesPerToken
  {
  }

  /** The pieces of a successful mint, named once so that the proofs below
      need not unfold `MintSpec` again. */
  lemma MintParts(c: Config, l: Ledger, caller: AccountId, args: MintArgs, storageDelta: StorageUsage)
    returns (id: TokenId, owner: AccountId, royalty: map<string, BasisPoints>, types: map<string, set<TokenId>>)
    requires MintSpec(c, l, caller, args, storageDelta).Success?
    ensures id == ResolveTokenId(|l.tokenMetadataById|, args.tokenId) && id !in l.tokensById
    ensures owner == EffectiveOwner(caller, args.receiverId)
    ensures RoyaltySpec(args.perpetualRoyalties, owner, c.ownerId, c.contractRoyalty) == Success(royalty)
    ensures SumValues(royalty) == FULL_SHARE
    ensures TypeGate(c.hardCapByType, l.tokensPerType, args.metadata.extra, id) == Success(types)
    ensures MintSpec(c, l, caller, args, storageDelta).value
            == MintEffect(Inserted(l, id, NewToken(owner, royalty), args.metadata, types),
                          Minted(id, c.extraStorageInBytesPerToken + storageDelta))
  {
    id := ResolveTokenId(|l.tokenMetadataById|, args.tokenId);
    owner := EffectiveOwner(caller, args.receiverId);
    royalty := RoyaltySpec(args.perpetualRoyalties, owner, c.ownerId, c.contractRoyalty).value;
    types := TypeGate(c.hardCapByType, l.tokensPerType, args.metadata.extra, id).value;
  }

  /** Token and metadata tables keep the same keys when both gain the new id. */
  lemma InsertKeepsTables(l: Ledger, id: TokenId, token: Token, md: TokenMetadata,
                          types: map<string, set<TokenId>>)
    requires TablesAgree(l)
    ensures TablesAgree(Inserted(l, id, token, md, types))
  {
    var a := Inserted(l, id, token, md, types);
    forall k
      ensures HasMetadata(a, k)
    {
      assert HasMetadata(l, k);
    }
  }

  /** The owner index stays exact when a new token is recorded under its owner. */
  lemma InsertKeepsOwnerIndex(l: Ledger, id: TokenId, token: Token, md: TokenMetadata,
                              types: map<string, set<TokenId>>)
    requires OwnerIndexExact(l)
    requires id !in l.tokensById
    ensures OwnerIndexExact(Inserted(l, id, token, md, types))
  {
    var a := Inserted(l, id, token, md, types);
    forall k
      ensures Listed(a, k)
    {
      if k in a.tokensById && k != id {
        assert Listed(l, k);
      }
    }
    forall o, k
      ensures OwnedAsListed(a, o, k)
    {
      if o != token.ownerId || k != id {
        assert OwnedAsListed(l, o, k);
      }
    }
  }

  /** The type sets stay within the registry and their caps when the type
      gate admits a new token. */
  lemma InsertKeepsTypeSets(c: Config, l: Ledger, id: TokenId, token: Token, md: TokenMetadata,
                            types: map<string, set<TokenId>>)
    requires TypeSetsCapped(c, l)
    requires id !in l.tokensById
    requires TypeGate(c.hardCapByType, l.tokensPerType, md.extra, id) == Success(types)
    ensures TypeSetsCapped(c, Inserted(l, id, token, md, types))
  {
    var a := Inserted(l, id, token, md, types);
    TypeGateRules(c.hardCapByType, l.tokensPerType, md.extra, id);
    forall t
      ensures TypeSetCapped(c, a, t)
    {
      if md.extra.Some? && t == md.extra.value {
        assert TypeSetCapped(c, l, t);
        assert id !in TokensOfType(l.tokensPerType, t);
      } else if t in types {
        assert TypeSetCapped(c, l, t);
        assert t in l.tokensPerType && types[t] == l.tokensPerType[t];
      }
    }
  }

  /** Recording a token whose royalty totals 10000 keeps every royalty balanced. */
  lemma InsertKeepsRoyalties(l: Ledger, id: TokenId, token: Token, md: TokenMetadata,
                             types: map<string, set<TokenId>>)
    requires RoyaltiesBalanced(l)
    requires SumValues(token.royalty) == FULL_SHARE
    ensures RoyaltiesBalanced(Inserted(l, id, token, md, types))
  {
    var a := Inserted(l, id, token, md, types);
    forall k
      ensures Balanced(a, k)
    {
      if k != id {
        assert Balanced(l, k);
      }
    }
  }

  /** Recording a new token whose royalty totals 10000, with type sets the
      gate admitted, keeps the registry invariant. */
  lemma InsertKeepsValid(c: Config, l: Ledger, id: TokenId, token: Token, md: TokenMetadata,
                         types: map<string, set<TokenId>>)
    requires LedgerValid(c, l)
    requires id !in l.tokensById
    requires SumValues(token.royalty) == FULL_SHARE
    requires TypeGate(c.hardCapByType, l.tokensPerType, md.extra, id) == Success(types)
    ensures LedgerValid(c, Inserted(l, id, token, md, types))
  {
    InsertKeepsTables(l, id, token, md, types);
    InsertKeepsOwnerIndex(l, id, token, md, types);
    InsertKeepsTypeSets(c, l, id, token, md, types);
    InsertKeepsRoyalties(l, id, token, md, types);
  }

  /** A successful mint keeps the registry invariant. */
  lemma MintPreservesValid(c: Config, l: Ledger, caller: AccountId, args: MintArgs, storageDelta: StorageUsage)
    requires LedgerValid(c, l)
    requires MintSpec(c, l, caller, args, storageDelta).Success?
    ensures LedgerValid(c, MintSpec(c, l, caller, args, storageDelta).value.after)
  {
    var id, owner, royalty, types := MintParts(c, l, caller, args, storageDelta);
    InsertKeepsValid(c, l, id, NewToken(owner, royalty), args.metadata, types);
  }

  /** Minting an explicit id twice: after the first mint succeeds, the second
      fails, with `DuplicateToken` once its royalty split is accepted. */
  lemma MintSameIdTwiceFails(c: Config, l: Ledger, id: TokenId,
                             caller1: AccountId, args1: MintArgs, delta1: StorageUsage,
                             caller2: AccountId, args2: MintArgs, delta2: StorageUsage)
    requires args1.tokenId == Some(id) && args2.tokenId == Some(id)
    requires MintSpec(c, l, caller1, args1, delta1).Success?
    ensures var l1 := MintSpec(c, l, caller1, args1, delta1).value.after;
            var second := MintSpec(c, l1, caller2, args2, delta2);
            && second.Failure?
            && (RoyaltySpec(args2.perpetualRoyalties, EffectiveOwner(caller2, args2.receiverId),
                            c.ownerId, c.contractRoyalty).Success?
                ==> second.error == DuplicateToken)
  {
    var l1 := MintSpec(c, l, caller1, args1, delta1).value.after;
    assert id in l1.tokensById;
  }

  /** A type "rare" capped at 2 with two tokens already issued refuses a
      third; a type with no configured cap is refused outright. */
  lemma SupplyCapScenario(id: TokenId)
    ensures TypeGate(map["rare" := 2], map["rare" := {"1", "2"}], Some("rare"), id) == Failure(SupplyExhausted)
    ensures TypeGate(map["rare" := 2], map["rare" := {"1", "2"}], Some("common"), id) == Failure(UnknownTokenType)
  {
    assert |{"1", "2"}| == 2;
  }

  /** The cap as a whole mint sees it: with "rare" capped at 2 and two
      "rare" tokens issued, minting a third "rare" token with a fresh id
      fails with `SupplyExhausted`. */
  lemma MintSupplyCapScenario(md: TokenMetadata)
    requires md.extra == Some("rare")
    ensures var c := Config("alice", 0, 0, map["rare" := 2]);
            var l := Ledger(map[], map[], map[], map["rare" := {"1", "2"}]);
            MintSpec(c, l, "alice", MintArgs(Some("3"), md, None, None), 0) == Failure(SupplyExhausted)
  {
    ScenarioPrimarySale();
    SupplyCapScenario("3");
  }

  /** A derived id is not checked against explicit ids: after "2" is minted
      explicitly into an empty registry, the next mint without an id derives
      "2" again and fails as a duplicate. */
  lemma AutoIdCollision(md: TokenMetadata)
    requires md.extra.None?
    ensures var c := Config("alice", 0, 0, map[]);
            var empty := Ledger(map[], map[], map[], map[]);
            var first := MintSpec(c, empty, "alice", MintArgs(Some("2"), md, None, None), 0);
            && first.Success?
            && MintSpec(c, first.value.after, "alice", MintArgs(None, md, None, None), 0) == Failure(DuplicateToken)
  {
    ScenarioPrimarySale();
    var c := Config("alice", 0, 0, map[]);
    var empty := Ledger(map[], map[], map[], map[]);
    var first := MintSpec(c, empty, "alice", MintArgs(Some("2"), md, None, None), 0);
    assert first.Success?;
    var l1 := first.value.after;
    assert l1.tokenMetadataById == map["2" := md];
    assert |l1.tokenMetadataById| == 1;
    assert Decimal.DecimalString(2) == "2";
    assert "2" in l1.tokensById;
  }

  /** A registry with no tokens satisfies the invariant, whatever the settings. */
  lemma EmptyLedgerValid(c: Config)
    ensures LedgerValid(c, Ledger(map[], map[], map[], map[]))
  {
  }

  /** The contract's state, as far as a mint touches it. */
  class Contract {
    var ownerId: AccountId
    var contractRoyalty: BasisPoints
    var extraStorageInBytesPerToken: StorageUsage
    var hardCapByType: map<string, nat>
    var tokensById: map<TokenId, Token>
    var tokenMetadataById: map<TokenId, TokenMetadata>
    var tokensPerOwner: map<AccountId, set<TokenId>>
    var tokensPerType: map<string, set<TokenId>>

    function Settings(): Config
      reads this`ownerId, this`contractRoyalty, this`extraStorageInBytesPerToken, this`hardCapByType
    {
      Config(ownerId, contractRoyalty, extraStorageInBytesPerToken, hardCapByType)
    }

    function Snapshot(): Ledger
      reads this`tokensById, this`tokenMetadataById, this`tokensPerOwner, this`tokensPerType
    {
      Ledger(tokensById, tokenMetadataById, tokensPerOwner, tokensPerType)
    }

    ghost predicate Valid()
      reads this
    {
      LedgerValid(Settings(), Snapshot())
    }

    /** Mints a token for `caller`. On success the registry becomes the one
        `MintSpec` describes and the id and required storage are returned; on
        failure the registry is as it was. The registry invariant is kept. */
    method NftMint(caller: AccountId, tokenId: Option<TokenId>, metadata: TokenMetadata,
                   perpetualRoyalties: Option<map<AccountId, BasisPoints>>, receiverId: Option<AccountId>,
                   storageDelta: StorageUsage) returns (r: Result<Minted>)
      requires Valid()
      modifies this`tokensById, this`tokenMetadataById, this`tokensPerOwner, this`tokensPerType
      ensures Valid()
      ensures Settings() == old(Settings())
      ensures var spec := MintSpec(old(Settings()), old(Snapshot()), caller,
                                   MintArgs(tokenId, metadata, perpetualRoyalties, receiverId), storageDelta);
              && (r.Success? <==> spec.Success?)
              && (r.Success? ==> r.value == spec.value.minted && Snapshot() == spec.value.after)
              && (r.Failure? ==> r.error == spec.error && Snapshot() == old(Snapshot()))
    {
      var finalTokenId := Decimal.DecimalString(|tokenMetadataById| + 1);
      if tokenId.Some? {
        finalTokenId := tokenId.value;
      }
      var owner := caller;
      if receiverId.Some? {
        owner := receiverId.value;
      }
      var royalty := BuildRoyalty(perpetualRoyalties, owner, ownerId, contractRoyalty);
      if royalty.Failure? {
        return Failure(royalty.error);
      }
      r := RecordToken(finalTokenId, NewToken(owner, royalty.value), metadata, storageDelta);
    }

    /** Records a token whose royalty split was accepted: refuses a taken id,
        applies the per-type cap and computes the storage to pay for. Every
        check precedes the writes, since the host discards every write of a
        call that aborts. */
    method RecordToken(id: TokenId, token: Token, metadata: TokenMetadata, storageDelta: StorageUsage)
      returns (r: Result<Minted>)
      requires Valid()
      requires SumValues(token.royalty) == FULL_SHARE
      modifies this`tokensById, this`tokenMetadataById, this`tokensPerOwner, this`tokensPerType
      ensures Valid()
      ensures var spec := RegisterSpec(Settings(), old(Snapshot()), id, token, metadata, storageDelta);
              && (r.Success? <==> spec.Success?)
              && (r.Success? ==> r.value == spec.value.minted && Snapshot() == spec.value.after)
              && (r.Failure? ==> r.error == spec.error && Snapshot() == old(Snapshot()))
    {
      if id in tokensById {
        return Failure(DuplicateToken);
      }
      var gate := AdmitToType(id, metadata.extra);
      if gate.Failure? {
        return Failure(gate.error);
      }
      if extraStorageInBytesPerToken + storageDelta >= U64_LIMIT {
        return Failure(ArithmeticOverflow);
      }
      var requiredStorage: StorageUsage := extraStorageInBytesPerToken + storageDelta;
      Insert(id, token, metadata, gate.value);
      r := Success(Minted(id, requiredStorage));
    }

    /** Writes a new token, its metadata, its owner-index entry and the type
        sets the cap check produced. */
    method Insert(id: TokenId, token: Token, metadata: TokenMetadata, types: map<string, set<TokenId>>)
      requires Valid()
      requires id !in tokensById
      requires SumValues(token.royalty) == FULL_SHARE
      requires TypeGate(hardCapByType, tokensPerType, metadata.extra, id) == Success(types)
      modifies this`tokensById, this`tokenMetadataById, this`tokensPerOwner, this`tokensPerType
      ensures Valid()
      ensures Snapshot() == Inserted(old(Snapshot()), id, token, metadata, types)
    {
      ghost var c, l := Settings(), Snapshot();
      InsertKeepsValid(c, l, id, token, metadata, types);
      tokensById := tokensById[id := token];
      tokenMetadataById := tokenMetadataById[id := metadata];
      tokensPerOwner := AddToOwner(tokensPerOwner, token.ownerId, id);
      tokensPerType := types;
      assert Settings() == c;
      assert Snapshot() == Inserted(l, id, token, metadata, types);
    }

    /** The per-type cap check of a mint, on the current type sets: the type
        sets with `id` recorded under its tag, or why the tag is refused. */
    method AdmitToType(id: TokenId, extra: Option<string>) returns (r: Result<map<string, set<TokenId>>>)
      ensures r == TypeGate(hardCapByType, tokensPerType, extra, id)
    {
      r := Success(tokensPerType);
      if extra.Some? {
        var tokenType := extra.value;
        if tokenType !in hardCapByType {
          return Failure(UnknownTokenType);
        }
        var cap := hardCapByType[tokenType];
        var supply := SupplyForType(tokensPerType, tokenType);
        if supply >= cap {
          return Failure(SupplyExhausted);
        }
        var typeTokens := TokensOfType(tokensPerType, tokenType);
        typeTokens := typeTokens + {id};
        r := Success(tokensPerType[tokenType := typeTokens]);
      }
    }
  }
}
