// types/operator.go: the string forms of x/operator records that the indexer stores.
// Decimal amounts are `LegacyDec` values, represented by their scaled integers
// (see module Decimal); block heights are `uint64`.

module OperatorTypes {
  import opened Wrappers
  import opened Decimal

  /** The string form of x/operator `OperatorInfo`. */
  datatype Operator = Operator(
    earningsAddress: string,
    approveAddress: string,
    metaInfo: string,
    rate: string,
    maxRate: string,
    maxChangeRate: string,
    commissionUpdateTime: string)

  /** The parts of x/operator `OperatorInfo` the indexer reads. The commission update
      time is kept in the form `time.Time.String()` renders it; that rendering is not
      part of this model. */
  datatype OperatorInfo = OperatorInfo(
    earningsAddr: string,
    approveAddr: string,
    operatorMetaInfo: string,
    rate: int,
    maxRate: int,
    maxChangeRate: int,
    updateTime: string)

  /** `NewOperator`: addresses and meta info are copied, the three rates rendered by
      `LegacyDec.String()`. */
  function NewOperator(t: OperatorInfo): (o: Operator)
    ensures o.earningsAddress == t.earningsAddr && o.approveAddress == t.approveAddr
    ensures o.metaInfo == t.operatorMetaInfo && o.commissionUpdateTime == t.updateTime
    ensures ParseDec(o.rate) == Some(t.rate) && ParseDec(o.maxRate) == Some(t.maxRate)
    ensures ParseDec(o.maxChangeRate) == Some(t.maxChangeRate)
  {
    ParseFormatDec(t.rate);
    ParseFormatDec(t.maxRate);
    ParseFormatDec(t.maxChangeRate);
    Operator(t.earningsAddr, t.approveAddr, t.operatorMetaInfo,
             FormatDec(t.rate), FormatDec(t.maxRate), FormatDec(t.maxChangeRate), t.updateTime)
  }

  /** `NewOperatorFromStr`: every field is the argument of the same name. */
  function NewOperatorFromStr(earningsAddress: string, approveAddress: string, metaInfo: string,
                              rate: string, maxRate: string, maxChangeRate: string, commissionUpdateTime: string): (o: Operator)
    ensures o.earningsAddress == earningsAddress && o.approveAddress == approveAddress && o.metaInfo == metaInfo
    ensures o.rate == rate && o.maxRate == maxRate && o.maxChangeRate == maxChangeRate
    ensures o.commissionUpdateTime == commissionUpdateTime
  {
    Operator(earningsAddress, approveAddress, metaInfo, rate, maxRate, maxChangeRate, commissionUpdateTime)
  }

  /** An operator's opt-in state for one AVS, heights as decimal strings. */
  datatype Opted = Opted(
    operatorAddress: string,
    avsAddress: string,
    slashContract: string,
    inHeight: string,
    outHeight: string,
    jailed: bool)

  const MaxUint64: nat := 0xFFFF_FFFF_FFFF_FFFF

  /** x/operator `DefaultOptedOutHeight`, `math.MaxUint64`: the opt-out height of an
      operator that has not opted out. */
  const DefaultOptedOutHeight: nat := MaxUint64

  /** x/operator `OptedInfo`. */
  datatype OptedInfo = OptedInfo(slashContract: string, optedInHeight: nat, optedOutHeight: nat, jailed: bool)

  /** `NewOpted`: the heights rendered with `%d`. */
  function NewOpted(operatorAddress: string, avsAddress: string, t: OptedInfo): (o: Opted)
    ensures o.operatorAddress == operatorAddress && o.avsAddress == avsAddress
    ensures o.slashContract == t.slashContract && o.jailed == t.jailed
    ensures ParseInteger(o.inHeight) == Some(t.optedInHeight as int)
    ensures ParseInteger(o.outHeight) == Some(t.optedOutHeight as int)
  {
    ParseFormatInt(t.optedInHeight);
    ParseFormatInt(t.optedOutHeight);
    Opted(operatorAddress, avsAddress, t.slashContract, FormatInt(t.optedInHeight), FormatInt(t.optedOutHeight), t.jailed)
  }

  /** `NewOptedFromStr`: an empty opt-out height stands for the default one. */
  function NewOptedFromStr(operatorAddress: string, avsAddress: string, slashContract: string,
                           inHeight: string, outHeight: string, jailed: bool): (o: Opted)
    ensures o.operatorAddress == operatorAddress && o.avsAddress == avsAddress
    ensures o.slashContract == slashContract && o.inHeight == inHeight && o.jailed == jailed
    ensures outHeight == "" ==> ParseInteger(o.outHeight) == Some(DefaultOptedOutHeight as int)
    ensures outHeight != "" ==> o.outHeight == outHeight
  {
    ParseFormatInt(DefaultOptedOutHeight);
    Opted(operatorAddress, avsAddress, slashContract, inHeight,
          if outHeight == "" then FormatInt(DefaultOptedOutHeight) else outHeight, jailed)
  }

  /** The string form of x/operator `OperatorOptedUSDValue`, with the derived value
      of the stake that is not the operator's own. */
  datatype OperatorUSDValue = OperatorUSDValue(
    operatorAddress: string,
    avsAddress: string,
    selfUSDValue: string,
    totalUSDValue: string,
    activeUSDValue: string,
    otherUSDValue: string)

  /** x/operator `OperatorOptedUSDValue`. */
  datatype OperatorOptedUSDValue = OperatorOptedUSDValue(selfUSDValue: int, totalUSDValue: int, activeUSDValue: int)

  /** `NewOperatorUSDValueFromStr`: nil (`None`) when the total or the self value is
      not a decimal; otherwise the strings are kept and `other` is total − self,
      rendered by `LegacyDec.String()` (`OtherIsDifference` reads it back). The
      active value is not parsed. */
  function NewOperatorUSDValueFromStr(operatorAddr: string, avsAddr: string,
                                      selfUsdValue: string, totalUsdValue: string, activeUsdValue: string): (r: Option<OperatorUSDValue>)
    ensures r.Some? <==> ParseDec(totalUsdValue).Some? && ParseDec(selfUsdValue).Some?
  {
    if ParseDec(totalUsdValue).None? || ParseDec(selfUsdValue).None? then None
    else Some(OperatorUSDValue(operatorAddr, avsAddr, selfUsdValue, totalUsdValue, activeUsdValue,
                               FormatDec(ParseDec(totalUsdValue).value - ParseDec(selfUsdValue).value)))
  }

  /** The derived `other` of a value built from strings reads back as total − self. */
  lemma OtherIsDifference(operatorAddr: string, avsAddr: string, selfUsdValue: string, totalUsdValue: string, activeUsdValue: string)
    requires ParseDec(totalUsdValue).Some? && ParseDec(selfUsdValue).Some?
    ensures ParseDec(NewOperatorUSDValueFromStr(operatorAddr, avsAddr, selfUsdValue, totalUsdValue, activeUsdValue).value.otherUSDValue)
         == Some(ParseDec(totalUsdValue).value - ParseDec(selfUsdValue).value)
  {
    ParseFormatDec(ParseDec(totalUsdValue).value - ParseDec(selfUsdValue).value);
  }

  /** `NewOperatorUSDValue`: the typed values rendered by `LegacyDec.String()`, `other`
      being total − self (`TypedUsdValueReadsBack` reads them back). */
  function NewOperatorUSDValue(operatorAddr: string, avsAddr: string, v: OperatorOptedUSDValue): OperatorUSDValue
  {
    OperatorUSDValue(operatorAddr, avsAddr, FormatDec(v.selfUSDValue), FormatDec(v.totalUSDValue),
                     FormatDec(v.activeUSDValue), FormatDec(v.totalUSDValue - v.selfUSDValue))
  }

  /** Every string of a value built from typed values reads back as that value, and
      `other` as total − self. */
  lemma TypedUsdValueReadsBack(operatorAddr: string, avsAddr: string, v: OperatorOptedUSDValue)
    ensures var r := NewOperatorUSDValue(operatorAddr, avsAddr, v);
      && r.operatorAddress == operatorAddr && r.avsAddress == avsAddr
      && ParseDec(r.selfUSDValue) == Some(v.selfUSDValue) && ParseDec(r.totalUSDValue) == Some(v.totalUSDValue)
      && ParseDec(r.activeUSDValue) == Some(v.activeUSDValue)
      && ParseDec(r.otherUSDValue) == Some(v.totalUSDValue - v.selfUSDValue)
  {
    ParseFormatDec(v.selfUSDValue);
    ParseFormatDec(v.totalUSDValue);
    ParseFormatDec(v.activeUSDValue);
    ParseFormatDec(v.totalUSDValue - v.selfUSDValue);
  }

  datatype AvsUSDValue = AvsUSDValue(avsAddress: string, usdValue: string)

  /** x/operator `AVSUSDValue`. */
  datatype AVSUSDValue = AVSUSDValue(avsAddr: string, value: int)

  /** `NewAvsUSDValueFromStr`: both strings kept as given. */
  function NewAvsUSDValueFromStr(avsAddr: string, usdValue: string): (r: AvsUSDValue)
    ensures r.avsAddress == avsAddr && r.usdValue == usdValue
  {
    AvsUSDValue(avsAddr, usdValue)
  }

  /** `NewAvsUSDValue`: the value rendered by `LegacyDec.String()`. */
  function NewAvsUSDValue(v: AVSUSDValue): (r: AvsUSDValue)
    ensures r.avsAddress == v.avsAddr && ParseDec(r.usdValue) == Some(v.value)
  {
    ParseFormatDec(v.value);
    AvsUSDValue(v.avsAddr, FormatDec(v.value))
  }

  // ---------------------------------------------------------------------------------
  // Properties

  /** The two USD-value constructors agree: reading back the rendered typed values
      gives the record the typed constructor builds. */
  lemma UsdValueFromStrAgrees(operatorAddr: string, avsAddr: string, v: OperatorOptedUSDValue)
    ensures NewOperatorUSDValueFromStr(operatorAddr, avsAddr, FormatDec(v.selfUSDValue), FormatDec(v.totalUSDValue),
                                       FormatDec(v.activeUSDValue)) == Some(NewOperatorUSDValue(operatorAddr, avsAddr, v))
  {
    var self, total, active := FormatDec(v.selfUSDValue), FormatDec(v.totalUSDValue), FormatDec(v.activeUSDValue);
    ParseFormatDec(v.selfUSDValue);
    ParseFormatDec(v.totalUSDValue);
    FromStrOfParsed(operatorAddr, avsAddr, self, total, active, v.selfUSDValue, v.totalUSDValue);
    TypedUsdValueFields(operatorAddr, avsAddr, v);
  }

  /** The record `NewOperatorUSDValue` builds, field by field. */
  lemma TypedUsdValueFields(operatorAddr: string, avsAddr: string, v: OperatorOptedUSDValue)
    ensures NewOperatorUSDValue(operatorAddr, avsAddr, v)
         == OperatorUSDValue(operatorAddr, avsAddr, FormatDec(v.selfUSDValue), FormatDec(v.totalUSDValue),
                             FormatDec(v.activeUSDValue), FormatDec(v.totalUSDValue - v.selfUSDValue))
  {
  }

  /** A value built from strings that parse as `self` and `total`. */
  lemma FromStrOfParsed(operatorAddr: string, avsAddr: string, selfUsdValue: string, totalUsdValue: string, activeUsdValue: string,
                        self: int, total: int)
    requires ParseDec(selfUsdValue) == Some(self) && ParseDec(totalUsdValue) == Some(total)
    ensures NewOperatorUSDValueFromStr(operatorAddr, avsAddr, selfUsdValue, totalUsdValue, activeUsdValue)
         == Some(OperatorUSDValue(operatorAddr, avsAddr, selfUsdValue, totalUsdValue, activeUsdValue, FormatDec(total - self)))
  {
    var d := ParseDec(totalUsdValue).value - ParseDec(selfUsdValue).value;
    assert d == total - self;
    FormatDecOfEqual(d, total - self);
  }

  /** An opt-in saved from a transaction (no opt-out height, not jailed) is the record
      genesis builds for the same opt-in with the default opt-out height. */
  lemma OptInFromStrAgrees(operatorAddr: string, avsAddr: string, slashContract: string, inHeight: nat)
    ensures NewOptedFromStr(operatorAddr, avsAddr, slashContract, FormatInt(inHeight), "", false)
         == NewOpted(operatorAddr, avsAddr, OptedInfo(slashContract, inHeight, DefaultOptedOutHeight, false))
  {
  }

  /** Genesis renders AVS values as `NewAvsUSDValue` does. */
  lemma AvsUsdValueFromStrAgrees(v: AVSUSDValue)
    ensures NewAvsUSDValueFromStr(v.avsAddr, FormatDec(v.value)) == NewAvsUSDValue(v)
  {
  }
}
