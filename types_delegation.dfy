// types/delegation.go: the string forms of x/delegation records that the indexer
// stores. `math.Int` amounts are rendered by `FormatInt`, `LegacyDec` shares by
// `FormatDec` and unsigned counters with `%d` (module Decimal).

module DelegationTypes {
  import opened Wrappers
  import opened Decimal

  /** `DelegationState`: what one staker has delegated of one asset to one operator. */
  datatype DelegationState = DelegationState(
    stakerId: string,
    assetId: string,
    operatorAddr: string,
    undelegatableShare: string,
    waitUndelegationAmount: string)

  /** The parts of x/delegation `DelegationAmounts` the indexer reads. */
  datatype DelegationAmounts = DelegationAmounts(undelegatableShare: int, waitUndelegationAmount: int)

  /** `NewDelegationStateFromStr`: every field is the argument of the same name. */
  function NewDelegationStateFromStr(stakerId: string, assetId: string, operatorAddr: string,
                                     undelegatableShare: string, waitUndelegationAmount: string): (s: DelegationState)
    ensures s.stakerId == stakerId && s.assetId == assetId && s.operatorAddr == operatorAddr
    ensures s.undelegatableShare == undelegatableShare && s.waitUndelegationAmount == waitUndelegationAmount
  {
    DelegationState(stakerId, assetId, operatorAddr, undelegatableShare, waitUndelegationAmount)
  }

  /** `NewDelegationState`: the share rendered as a `LegacyDec`, the waiting amount as a
      `math.Int`; both read back to the amounts given. */
  function NewDelegationState(stakerId: string, assetId: string, operatorAddr: string, amounts: DelegationAmounts): (s: DelegationState)
    ensures s.stakerId == stakerId && s.assetId == assetId && s.operatorAddr == operatorAddr
    ensures ParseDec(s.undelegatableShare) == Some(amounts.undelegatableShare)
    ensures ParseInteger(s.waitUndelegationAmount) == Some(amounts.waitUndelegationAmount)
  {
    ParseFormatDec(amounts.undelegatableShare);
    ParseFormatInt(amounts.waitUndelegationAmount);
    NewDelegationStateFromStr(stakerId, assetId, operatorAddr,
                              FormatDec(amounts.undelegatableShare), FormatInt(amounts.waitUndelegationAmount))
  }

  /** `UndelegationRecord`: x/delegation's undelegation record with its record id and
      hold count, every field in string form. */
  datatype UndelegationRecord = UndelegationRecord(
    recordId: string,
    stakerId: string,
    assetId: string,
    operatorAddr: string,
    txHash: string,
    blockNumber: string,
    completedEpochIdentifier: string,
    completedEpochNumber: string,
    undelegationId: string,
    amount: string,
    actualCompletedAmount: string,
    holdCount: string)

  /** `NewUndelegationRecordFromStr` as written at types/delegation.go:67-86: the
      composite literal sets the first ten fields and never mentions
      `ActualCompletedAmount` or `HoldCount`, which keep Go's zero value "". */
  function NewUndelegationRecordFromStrAsWritten(
    recordId: string, stakerId: string, assetId: string, operatorAddr: string, txHash: string, blockNumber: string,
    completedEpochIdentifier: string, completedEpochNumber: string, undelegationId: string, amount: string,
    actualCompletedAmount: string, holdCount: string): UndelegationRecord
  {
    UndelegationRecord(recordId, stakerId, assetId, operatorAddr, txHash, blockNumber,
                       completedEpochIdentifier, completedEpochNumber, undelegationId, amount, "", "")
  }

  /** `NewUndelegationRecordFromStr` as its callers use it: every field is the argument
      of the same name. */
  function NewUndelegationRecordFromStr(
    recordId: string, stakerId: string, assetId: string, operatorAddr: string, txHash: string, blockNumber: string,
    completedEpochIdentifier: string, completedEpochNumber: string, undelegationId: string, amount: string,
    actualCompletedAmount: string, holdCount: string): (r: UndelegationRecord)
    ensures r.recordId == recordId && r.stakerId == stakerId && r.assetId == assetId && r.operatorAddr == operatorAddr
    ensures r.txHash == txHash && r.blockNumber == blockNumber && r.completedEpochIdentifier == completedEpochIdentifier
    ensures r.completedEpochNumber == completedEpochNumber && r.undelegationId == undelegationId && r.amount == amount
    ensures r.actualCompletedAmount == actualCompletedAmount && r.holdCount == holdCount
  {
    UndelegationRecord(recordId, stakerId, assetId, operatorAddr, txHash, blockNumber,
                       completedEpochIdentifier, completedEpochNumber, undelegationId, amount, actualCompletedAmount, holdCount)
  }

  /** The constructor as written loses the two arguments its callers pass for the
      actual completed amount and the hold count: an undelegation of "100" started
      with actual amount "100" and hold count "0" is stored with both empty, where
      the corrected constructor keeps them. */
  lemma AsWrittenDropsCompletion()
    ensures var r := NewUndelegationRecordFromStrAsWritten("id", "staker", "asset", "operator", "hash", "7", "week", "3", "1", "100", "100", "0");
      r.actualCompletedAmount == "" && r.holdCount == ""
    ensures var r := NewUndelegationRecordFromStr("id", "staker", "asset", "operator", "hash", "7", "week", "3", "1", "100", "100", "0");
      r.actualCompletedAmount == "100" && r.holdCount == "0"
  {
  }

  /** The two constructors differ exactly in the two dropped fields: they agree on
      every argument list whose actual amount and hold count are both "". */
  lemma AsWrittenAgreesOnlyWhenEmpty(
    recordId: string, stakerId: string, assetId: string, operatorAddr: string, txHash: string, blockNumber: string,
    completedEpochIdentifier: string, completedEpochNumber: string, undelegationId: string, amount: string,
    actualCompletedAmount: string, holdCount: string)
    ensures NewUndelegationRecordFromStrAsWritten(recordId, stakerId, assetId, operatorAddr, txHash, blockNumber,
              completedEpochIdentifier, completedEpochNumber, undelegationId, amount, actualCompletedAmount, holdCount)
         == NewUndelegationRecordFromStr(recordId, stakerId, assetId, operatorAddr, txHash, blockNumber,
              completedEpochIdentifier, completedEpochNumber, undelegationId, amount, actualCompletedAmount, holdCount)
        <==> actualCompletedAmount == "" && holdCount == ""
  {
  }

  /** The parts of x/delegation `UndelegationRecord` the indexer reads. */
  datatype UndelegationInfo = UndelegationInfo(
    stakerId: string,
    assetId: string,
    operatorAddr: string,
    txHash: string,
    blockNumber: nat,
    completedEpochIdentifier: string,
    completedEpochNumber: int,
    undelegationId: nat,
    amount: int,
    actualCompletedAmount: int)

  /** `hexutil.Encode(record.GetKey())`, which is not part of this model. */
  type RecordKeyOf = UndelegationInfo -> string

  /** `NewUndelegationRecord`, which hands its values, rendered, to the string
      constructor as written: the record id is the hex of the record's key; block
      number, epoch number and undelegation id are rendered in base 10, the amount as
      `math.Int`; the actual completed amount and the hold count are dropped, as the
      string constructor drops them. */
  function NewUndelegationRecord(keyOf: RecordKeyOf, u: UndelegationInfo, holdCount: nat): (r: UndelegationRecord)
    ensures r.recordId == keyOf(u) && r.stakerId == u.stakerId && r.assetId == u.assetId && r.operatorAddr == u.operatorAddr
    ensures r.txHash == u.txHash && r.completedEpochIdentifier == u.completedEpochIdentifier
    ensures ParseInteger(r.blockNumber) == Some(u.blockNumber as int)
    ensures ParseInteger(r.completedEpochNumber) == Some(u.completedEpochNumber)
    ensures ParseInteger(r.undelegationId) == Some(u.undelegationId as int)
    ensures ParseInteger(r.amount) == Some(u.amount)
    ensures r.actualCompletedAmount == "" && r.holdCount == ""
    ensures r == NewUndelegationRecordCorrected(keyOf, u, holdCount).(actualCompletedAmount := "", holdCount := "")
  {
    ParseFormatInt(u.blockNumber);
    ParseFormatInt(u.completedEpochNumber);
    ParseFormatInt(u.undelegationId);
    ParseFormatInt(u.amount);
    NewUndelegationRecordFromStrAsWritten(keyOf(u), u.stakerId, u.assetId, u.operatorAddr, u.txHash, FormatInt(u.blockNumber),
                                          u.completedEpochIdentifier, FormatInt(u.completedEpochNumber), FormatInt(u.undelegationId),
                                          FormatInt(u.amount), FormatInt(u.actualCompletedAmount), FormatInt(holdCount))
  }

  /** `NewUndelegationRecord` over the corrected string constructor: the actual
      completed amount and the hold count are kept, rendered in base 10. */
  function NewUndelegationRecordCorrected(keyOf: RecordKeyOf, u: UndelegationInfo, holdCount: nat): (r: UndelegationRecord)
    ensures r.recordId == keyOf(u) && r.stakerId == u.stakerId && r.assetId == u.assetId && r.operatorAddr == u.operatorAddr
    ensures ParseInteger(r.amount) == Some(u.amount)
    ensures ParseInteger(r.actualCompletedAmount) == Some(u.actualCompletedAmount)
    ensures ParseInteger(r.holdCount) == Some(holdCount as int)
  {
    ParseFormatInt(u.amount);
    ParseFormatInt(u.actualCompletedAmount);
    ParseFormatInt(holdCount);
    NewUndelegationRecordFromStr(keyOf(u), u.stakerId, u.assetId, u.operatorAddr, u.txHash, FormatInt(u.blockNumber),
                                 u.completedEpochIdentifier, FormatInt(u.completedEpochNumber), FormatInt(u.undelegationId),
                                 FormatInt(u.amount), FormatInt(u.actualCompletedAmount), FormatInt(holdCount))
  }

  /** `ExoAssetDelegation` as types/delegation.go declares it: the native asset a
      staker has delegated, with no operator and no slashed amount. */
  datatype ExoAssetDelegation = ExoAssetDelegation(stakerId: string, delegated: string, pendingUndelegation: string)

  /** `NewExoAssetDelegationFromStr`: every field is the argument of the same name. */
  function NewExoAssetDelegationFromStr(stakerId: string, delegated: string, pendingUndelegation: string): (d: ExoAssetDelegation)
    ensures d.stakerId == stakerId && d.delegated == delegated && d.pendingUndelegation == pendingUndelegation
  {
    ExoAssetDelegation(stakerId, delegated, pendingUndelegation)
  }
}
