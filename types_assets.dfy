// types/assets.go: the string forms of x/assets records that the indexer stores.
// `math.Int` amounts are rendered by `FormatInt` and `LegacyDec` shares by `FormatDec`
// (module Decimal); chain ids, indexes and lengths are unsigned integers rendered
// with `%d`.

module AssetsTypes {
  import opened Wrappers
  import opened Decimal

  /** `AssetsParams`: the x/assets parameters, represented by their JSON encoding
      (`None` when `json.Marshal` fails), and the height they were read at. */
  datatype AssetsParams = AssetsParams(params: Option<string>, height: int)

  /** `NewAssetsParams`. */
  function NewAssetsParams(params: Option<string>, height: int): (p: AssetsParams)
    ensures p.params == params && p.height == height
  {
    AssetsParams(params, height)
  }

  /** A staker's holding of one asset. `additionalSlashed` is "" when there is no
      slashing to record. */
  datatype StakerAsset = StakerAsset(
    stakerId: string,
    assetId: string,
    deposited: string,
    withdrawable: string,
    pendingUndelegation: string,
    additionalSlashed: string)

  /** The parts of x/assets `StakerAssetInfo` the indexer reads. */
  datatype StakerAssetInfo = StakerAssetInfo(totalDepositAmount: int, withdrawableAmount: int, pendingUndelegationAmount: int)

  /** `NewStakerAssetFromStr`: every field is the argument of the same name. */
  function NewStakerAssetFromStr(stakerId: string, assetId: string, deposited: string, withdrawable: string,
                                 pendingUndelegation: string, additionalSlashed: string): (a: StakerAsset)
    ensures a.stakerId == stakerId && a.assetId == assetId && a.deposited == deposited
    ensures a.withdrawable == withdrawable && a.pendingUndelegation == pendingUndelegation
    ensures a.additionalSlashed == additionalSlashed
  {
    StakerAsset(stakerId, assetId, deposited, withdrawable, pendingUndelegation, additionalSlashed)
  }

  /** `NewStakerAssetFromInfo`: the three amounts rendered by `math.Int.String()`, the
      caller's slashed amount kept as given. */
  function NewStakerAssetFromInfo(stakerId: string, assetId: string, info: StakerAssetInfo, additionalSlashed: string): (a: StakerAsset)
    ensures a.stakerId == stakerId && a.assetId == assetId && a.additionalSlashed == additionalSlashed
    ensures ParseInteger(a.deposited) == Some(info.totalDepositAmount)
    ensures ParseInteger(a.withdrawable) == Some(info.withdrawableAmount)
    ensures ParseInteger(a.pendingUndelegation) == Some(info.pendingUndelegationAmount)
  {
    ParseFormatInt(info.totalDepositAmount);
    ParseFormatInt(info.withdrawableAmount);
    ParseFormatInt(info.pendingUndelegationAmount);
    StakerAsset(stakerId, assetId, FormatInt(info.totalDepositAmount), FormatInt(info.withdrawableAmount),
                FormatInt(info.pendingUndelegationAmount), additionalSlashed)
  }

  /** An operator's holding of one asset. */
  datatype OperatorAsset = OperatorAsset(
    operatorAddress: string,
    assetId: string,
    totalAmount: string,
    pendingUndelegationAmount: string,
    totalShare: string,
    selfShare: string)

  /** The parts of x/assets `OperatorAssetInfo` the indexer reads; the shares are
      `LegacyDec` values. */
  datatype OperatorAssetInfo = OperatorAssetInfo(totalAmount: int, pendingUndelegationAmount: int, totalShare: int, operatorShare: int)

  /** `NewOperatorAssetFromStr`: every field is the argument of the same name. */
  function NewOperatorAssetFromStr(operatorAddress: string, assetId: string, totalAmount: string,
                                   pendingUndelegationAmount: string, totalShare: string, selfShare: string): (a: OperatorAsset)
    ensures a.operatorAddress == operatorAddress && a.assetId == assetId && a.totalAmount == totalAmount
    ensures a.pendingUndelegationAmount == pendingUndelegationAmount && a.totalShare == totalShare
    ensures a.selfShare == selfShare
  {
    OperatorAsset(operatorAddress, assetId, totalAmount, pendingUndelegationAmount, totalShare, selfShare)
  }

  /** `NewOperatorAssetFromInfo`: the operator's share becomes `SelfShare`. */
  function NewOperatorAssetFromInfo(operatorAddress: string, assetId: string, info: OperatorAssetInfo): (a: OperatorAsset)
    ensures a.operatorAddress == operatorAddress && a.assetId == assetId
    ensures ParseInteger(a.totalAmount) == Some(info.totalAmount)
    ensures ParseInteger(a.pendingUndelegationAmount) == Some(info.pendingUndelegationAmount)
    ensures ParseDec(a.totalShare) == Some(info.totalShare)
    ensures ParseDec(a.selfShare) == Some(info.operatorShare)
  {
    ParseFormatInt(info.totalAmount);
    ParseFormatInt(info.pendingUndelegationAmount);
    ParseFormatDec(info.totalShare);
    ParseFormatDec(info.operatorShare);
    OperatorAsset(operatorAddress, assetId, FormatInt(info.totalAmount), FormatInt(info.pendingUndelegationAmount),
                  FormatDec(info.totalShare), FormatDec(info.operatorShare))
  }

  /** The string form of x/assets `ClientChainInfo`. */
  datatype ClientChain = ClientChain(
    name: string,
    metaInfo: string,
    chainId: string,
    exocoreChainIndex: string,
    finalizationBlocks: string,
    layerZeroChainId: string,
    signatureType: string,
    addressLength: string)

  /** x/assets `ClientChainInfo`. */
  datatype ClientChainInfo = ClientChainInfo(
    name: string,
    metaInfo: string,
    chainId: nat,
    exocoreChainIndex: nat,
    finalizationBlocks: nat,
    layerZeroChainId: nat,
    signatureType: string,
    addressLength: nat)

  /** `NewClientChainFromStr`: every field is the argument in the same position. */
  function NewClientChainFromStr(name: string, metaInfo: string, chainId: string, exocoreChainIndex: string,
                                 finalizationBlocks: string, layerZeroChainId: string, signatureType: string,
                                 addressLength: string): (c: ClientChain)
    ensures c.name == name && c.metaInfo == metaInfo && c.chainId == chainId
    ensures c.exocoreChainIndex == exocoreChainIndex && c.finalizationBlocks == finalizationBlocks
    ensures c.layerZeroChainId == layerZeroChainId && c.signatureType == signatureType
    ensures c.addressLength == addressLength
  {
    ClientChain(name, metaInfo, chainId, exocoreChainIndex, finalizationBlocks, layerZeroChainId, signatureType, addressLength)
  }

  /** `NewClientChain`: the numbers rendered with `%d`, the strings copied. */
  function NewClientChain(info: ClientChainInfo): (c: ClientChain)
    ensures c.name == info.name && c.metaInfo == info.metaInfo && c.signatureType == info.signatureType
    ensures ParseInteger(c.chainId) == Some(info.chainId as int)
    ensures ParseInteger(c.exocoreChainIndex) == Some(info.exocoreChainIndex as int)
    ensures ParseInteger(c.finalizationBlocks) == Some(info.finalizationBlocks as int)
    ensures ParseInteger(c.layerZeroChainId) == Some(info.layerZeroChainId as int)
    ensures ParseInteger(c.addressLength) == Some(info.addressLength as int)
  {
    ParseFormatInt(info.chainId);
    ParseFormatInt(info.exocoreChainIndex);
    ParseFormatInt(info.finalizationBlocks);
    ParseFormatInt(info.layerZeroChainId);
    ParseFormatInt(info.addressLength);
    ClientChain(info.name, info.metaInfo, FormatInt(info.chainId), FormatInt(info.exocoreChainIndex),
                FormatInt(info.finalizationBlocks), FormatInt(info.layerZeroChainId), info.signatureType,
                FormatInt(info.addressLength))
  }

  /** Two client chains with different exocore indexes are rendered with different
      index strings, so they occupy different rows of the store. */
  lemma ClientChainIndexDistinct(a: ClientChainInfo, b: ClientChainInfo)
    ensures NewClientChain(a).exocoreChainIndex == NewClientChain(b).exocoreChainIndex <==> a.exocoreChainIndex == b.exocoreChainIndex
  {
    FormatIntInjective(a.exocoreChainIndex, b.exocoreChainIndex);
  }

  /** The string form of an x/assets `StakingAssetInfo`, with its asset id. */
  datatype AssetsToken = AssetsToken(
    assetId: string,
    name: string,
    symbol: string,
    address: string,
    decimals: string,
    layerZeroChainId: string,
    exocoreChainIndex: string,
    metaInfo: string,
    amount: string)

  /** x/assets `AssetInfo`. */
  datatype AssetBasicInfo = AssetBasicInfo(
    name: string,
    symbol: string,
    address: string,
    decimals: nat,
    layerZeroChainId: nat,
    exocoreChainIndex: nat,
    metaInfo: string)

  /** x/assets `StakingAssetInfo`. */
  datatype StakingAssetInfo = StakingAssetInfo(assetBasicInfo: AssetBasicInfo, stakingTotalAmount: int)

  /** `AssetInfo.AssetID()`, computed by x/assets; not part of this model. */
  type AssetIdOf = AssetBasicInfo -> string

  /** `NewAssetsTokenFromStr`: every field is the argument in the same position. */
  function NewAssetsTokenFromStr(assetId: string, name: string, symbol: string, address: string, decimals: string,
                                 layerZeroChainId: string, exocoreChainIndex: string, metaInfo: string,
                                 amount: string): (t: AssetsToken)
    ensures t.assetId == assetId && t.name == name && t.symbol == symbol && t.address == address
    ensures t.decimals == decimals && t.layerZeroChainId == layerZeroChainId
    ensures t.exocoreChainIndex == exocoreChainIndex && t.metaInfo == metaInfo && t.amount == amount
  {
    AssetsToken(assetId, name, symbol, address, decimals, layerZeroChainId, exocoreChainIndex, metaInfo, amount)
  }

  /** `NewAssetsToken`: the asset id of the basic info, its numbers rendered with
      `%d`, the total amount by `math.Int.String()`. */
  function NewAssetsToken(assetIdOf: AssetIdOf, info: StakingAssetInfo): (t: AssetsToken)
    ensures var b := info.assetBasicInfo;
      && t.assetId == assetIdOf(b) && t.name == b.name && t.symbol == b.symbol && t.address == b.address
      && t.metaInfo == b.metaInfo
      && ParseInteger(t.decimals) == Some(b.decimals as int)
      && ParseInteger(t.layerZeroChainId) == Some(b.layerZeroChainId as int)
      && ParseInteger(t.exocoreChainIndex) == Some(b.exocoreChainIndex as int)
      && ParseInteger(t.amount) == Some(info.stakingTotalAmount)
  {
    var b := info.assetBasicInfo;
    ParseFormatInt(b.decimals);
    ParseFormatInt(b.layerZeroChainId);
    ParseFormatInt(b.exocoreChainIndex);
    ParseFormatInt(info.stakingTotalAmount);
    AssetsToken(assetIdOf(b), b.name, b.symbol, b.address, FormatInt(b.decimals), FormatInt(b.layerZeroChainId),
                FormatInt(b.exocoreChainIndex), b.metaInfo, FormatInt(info.stakingTotalAmount))
  }

  /** The typed constructors agree with the string ones applied to the rendered
      values: genesis and events produce the same records for the same state. */
  lemma FromInfoIsFromStr(stakerId: string, assetId: string, info: StakerAssetInfo, slashed: string,
                          operatorAddress: string, opInfo: OperatorAssetInfo, chain: ClientChainInfo)
    ensures NewStakerAssetFromInfo(stakerId, assetId, info, slashed)
         == NewStakerAssetFromStr(stakerId, assetId, FormatInt(info.totalDepositAmount), FormatInt(info.withdrawableAmount),
                                  FormatInt(info.pendingUndelegationAmount), slashed)
    ensures NewOperatorAssetFromInfo(operatorAddress, assetId, opInfo)
         == NewOperatorAssetFromStr(operatorAddress, assetId, FormatInt(opInfo.totalAmount), FormatInt(opInfo.pendingUndelegationAmount),
                                    FormatDec(opInfo.totalShare), FormatDec(opInfo.operatorShare))
    ensures NewClientChain(chain)
         == NewClientChainFromStr(chain.name, chain.metaInfo, FormatInt(chain.chainId), FormatInt(chain.exocoreChainIndex),
                                  FormatInt(chain.finalizationBlocks), FormatInt(chain.layerZeroChainId), chain.signatureType,
                                  FormatInt(chain.addressLength))
  {
  }

  /** The string constructors lose nothing: a record rebuilt from its own fields is
      the record. */
  lemma FromStrRebuilds(a: StakerAsset, o: OperatorAsset, c: ClientChain, t: AssetsToken)
    ensures NewStakerAssetFromStr(a.stakerId, a.assetId, a.deposited, a.withdrawable, a.pendingUndelegation, a.additionalSlashed) == a
    ensures NewOperatorAssetFromStr(o.operatorAddress, o.assetId, o.totalAmount, o.pendingUndelegationAmount, o.totalShare, o.selfShare) == o
    ensures NewClientChainFromStr(c.name, c.metaInfo, c.chainId, c.exocoreChainIndex, c.finalizationBlocks,
                                  c.layerZeroChainId, c.signatureType, c.addressLength) == c
    ensures NewAssetsTokenFromStr(t.assetId, t.name, t.symbol, t.address, t.decimals, t.layerZeroChainId,
                                  t.exocoreChainIndex, t.metaInfo, t.amount) == t
  {
  }
}
