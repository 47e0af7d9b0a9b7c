// modules/operator: what transactions, blocks and the genesis state write about
// operators, their consensus keys, their AVS opt-ins and USD values.

module OperatorModule {
  import opened Wrappers
  import opened Events
  import opened Replay
  import opened Decimal
  import opened OperatorTypes
  import opened OperatorDb

  const EventTypeRegisterOperator := "operatortypes.EventTypeRegisterOperator"
  const EventTypeOptIn := "operatortypes.EventTypeOptIn"
  const EventTypeSetConsKey := "operatortypes.EventTypeSetConsKey"
  const EventTypeSetPrevConsKey := "operatortypes.EventTypeSetPrevConsKey"
  const EventTypeOptInfoUpdated := "operatortypes.EventTypeOptInfoUpdated"
  const EventTypeInitRemoveConsKey := "operatortypes.EventTypeInitRemoveConsKey"
  const EventTypeUpdateOperatorUSDValue := "operatortypes.EventTypeUpdateOperatorUSDValue"
  const EventTypeDeleteOperatorUSDValue := "operatortypes.EventTypeDeleteOperatorUSDValue"
  const EventTypeUpdateAVSUSDValue := "operatortypes.EventTypeUpdateAVSUSDValue"
  const EventTypeDeleteAVSUSDValue := "operatortypes.EventTypeDeleteAVSUSDValue"
  const EventTypeEndRemoveConsKey := "operatortypes.EventTypeEndRemoveConsKey"
  const EventTypeRemovePrevConsKey := "operatortypes.EventTypeRemovePrevConsKey"

  const AttributeKeyOperator := "operatortypes.AttributeKeyOperator"
  const AttributeKeyMetaInfo := "operatortypes.AttributeKeyMetaInfo"
  const AttributeKeyCommissionRate := "stakingtypes.AttributeKeyCommissionRate"
  const AttributeKeyMaxCommissionRate := "operatortypes.AttributeKeyMaxCommissionRate"
  const AttributeKeyMaxChangeRate := "operatortypes.AttributeKeyMaxChangeRate"
  const AttributeKeyCommissionUpdateTime := "operatortypes.AttributeKeyCommissionUpdateTime"
  const AttributeKeyAVSAddr := "operatortypes.AttributeKeyAVSAddr"
  const AttributeKeySlashContract := "operatortypes.AttributeKeySlashContract"
  const AttributeKeyOptInHeight := "operatortypes.AttributeKeyOptInHeight"
  const AttributeKeyOptOutHeight := "operatortypes.AttributeKeyOptOutHeight"
  const AttributeKeyJailed := "operatortypes.AttributeKeyJailed"
  const AttributeKeyChainID := "operatortypes.AttributeKeyChainID"
  const AttributeKeyConsensusAddress := "operatortypes.AttributeKeyConsensusAddress"
  const AttributeKeyConsKeyHex := "operatortypes.AttributeKeyConsKeyHex"
  const AttributeKeySelfUSDValue := "operatortypes.AttributeKeySelfUSDValue"
  const AttributeKeyTotalUSDValue := "operatortypes.AttributeKeyTotalUSDValue"
  const AttributeKeyActiveUSDValue := "operatortypes.AttributeKeyActiveUSDValue"

  const NilDereference := "nil pointer dereference"

  // ---------------------------------------------------------------------------------
  // Event handlers. Each loops over the events of one type, reads its attributes in a
  // fixed order (the first missing one is returned as the error) and calls one store
  // function.

  datatype Handler =
    | Registration          // handle_tx.go handleOperatorRegistrationEvents
    | OptIn                 // handle_tx.go handleOptInEvents
    | SetConsKey            // handle_tx.go handleSetConsKey
    | SetPrevKey            // handle_tx.go handleSetPrevConsKey
    | OptInfoUpdated        // handle_tx.go handleOptInfoUpdated
    | InitKeyRemoval        // handle_tx.go handleInitConsKeyRemoval
    | OperatorUsdValues     // handle_block.go handleOperatorUSDValues
    | OperatorUsdDeletion   // handle_block.go handleOperatorUSDValueDeletion
    | AvsUsdValues          // handle_block.go handleAvsUSDValues
    | AvsUsdDeletion        // handle_block.go handleAvsUSDValueDeletion
    | CompleteKeyRemoval    // handle_block.go handleCompleteConsKeyRemoval
    | ClearPrevKey          // handle_block.go handleClearOperatorPrevConsKey

  function EventType(h: Handler): string
  {
    match h
    case Registration => EventTypeRegisterOperator
    case OptIn => EventTypeOptIn
    case SetConsKey => EventTypeSetConsKey
    case SetPrevKey => EventTypeSetPrevConsKey
    case OptInfoUpdated => EventTypeOptInfoUpdated
    case InitKeyRemoval => EventTypeInitRemoveConsKey
    case OperatorUsdValues => EventTypeUpdateOperatorUSDValue
    case OperatorUsdDeletion => EventTypeDeleteOperatorUSDValue
    case AvsUsdValues => EventTypeUpdateAVSUSDValue
    case AvsUsdDeletion => EventTypeDeleteAVSUSDValue
    case CompleteKeyRemoval => EventTypeEndRemoveConsKey
    case ClearPrevKey => EventTypeRemovePrevConsKey
  }

  /** The attributes each handler reads, in the order it reads them. */
  function Keys(h: Handler): seq<string>
  {
    match h
    case Registration => [AttributeKeyOperator, AttributeKeyMetaInfo, AttributeKeyCommissionRate,
                          AttributeKeyMaxCommissionRate, AttributeKeyMaxChangeRate, AttributeKeyCommissionUpdateTime]
    case OptIn => [AttributeKeyOperator, AttributeKeyAVSAddr, AttributeKeySlashContract, AttributeKeyOptInHeight]
    case SetConsKey => [AttributeKeyOperator, AttributeKeyChainID, AttributeKeyConsensusAddress, AttributeKeyConsKeyHex]
    case SetPrevKey => [AttributeKeyOperator, AttributeKeyChainID, AttributeKeyConsensusAddress, AttributeKeyConsKeyHex]
    case OptInfoUpdated => [AttributeKeyOperator, AttributeKeyAVSAddr, AttributeKeySlashContract,
                            AttributeKeyOptInHeight, AttributeKeyOptOutHeight, AttributeKeyJailed]
    case InitKeyRemoval => [AttributeKeyOperator, AttributeKeyChainID]
    case OperatorUsdValues => [AttributeKeyOperator, AttributeKeyAVSAddr, AttributeKeySelfUSDValue,
                               AttributeKeyTotalUSDValue, AttributeKeyActiveUSDValue]
    case OperatorUsdDeletion => [AttributeKeyOperator, AttributeKeyAVSAddr]
    case AvsUsdValues => [AttributeKeyAVSAddr, AttributeKeyTotalUSDValue]
    case AvsUsdDeletion => [AttributeKeyAVSAddr]
    case CompleteKeyRemoval => [AttributeKeyOperator, AttributeKeyChainID]
    case ClearPrevKey => [AttributeKeyOperator, AttributeKeyChainID]
  }

  /** `handleOperatorUSDValues` once its five attributes are read, as handle_block.go:56-60
      writes it: a nil value from `NewOperatorUSDValueFromStr` is passed on to
      `SaveOperatorUSDValue`, which dereferences it and panics. */
  function OperatorUsdBody(v: seq<string>): Script<Write>
    requires |v| == 5
  {
    match NewOperatorUSDValueFromStr(v[0], v[1], v[2], v[3], v[4])
    case None => Stop(Panic(NilDereference))
    case Some(x) => Single(UpsertOperatorUsd(x))
  }

  /** The body as evidently intended: a value that `NewOperatorUSDValueFromStr` cannot
      build is returned as a parse error of the first of total and self that does not
      parse, and nothing is saved. */
  function OperatorUsdBodyCorrected(v: seq<string>): Script<Write>
    requires |v| == 5
  {
    match NewOperatorUSDValueFromStr(v[0], v[1], v[2], v[3], v[4])
    case None => Stop(ParseError(if ParseDec(v[3]).None? then v[3] else v[2]))
    case Some(x) => Single(UpsertOperatorUsd(x))
  }

  /** What a handler does with the attribute values `v` of one event. */
  function Body(parseTime: string -> Option<Timestamp>, h: Handler, v: seq<string>): Script<Write>
    requires |v| == |Keys(h)|
  {
    match h
    case Registration => DetailScript(parseTime, NewOperatorFromStr(v[0], v[0], v[1], v[2], v[3], v[4], v[5]))
    case OptIn => Single(UpsertOpted(NewOptedFromStr(v[0], v[1], v[2], v[3], "", false)))
    case SetConsKey => Single(UpsertConsKey(v[0], v[1], v[3], v[2]))
    case SetPrevKey => Single(UpsertConsKey(v[0], v[1], v[3], v[2]))
    case OptInfoUpdated => Single(UpsertOpted(NewOptedFromStr(v[0], v[1], v[2], v[3], v[4], v[5] == "true")))
    case InitKeyRemoval => Single(MarkKeyRemoval(v[1], v[0]))
    case OperatorUsdValues => OperatorUsdBody(v)
    case OperatorUsdDeletion => Single(DeleteOperatorUsd(v[0], v[1]))
    case AvsUsdValues => Single(UpsertAvsUsd(NewAvsUSDValueFromStr(v[0], v[1])))
    case AvsUsdDeletion => Single(DeleteAvsUsd(v[0]))
    case CompleteKeyRemoval => Single(RemoveConsKey(v[1], v[0]))
    case ClearPrevKey => Single(ClearPrevConsKey(v[0], v[1]))
  }

  function EventBody(parseTime: string -> Option<Timestamp>, h: Handler): Event -> Script<Write>
  {
    (e: Event) =>
      match Lookup(e, Keys(h))
      case Err(err) => Stop(err)
      case Ok(v) => Body(parseTime, h, v)
  }

  /** The handler's `for _, event := range events` over the events already selected. */
  function HandlerLoop(parseTime: string -> Option<Timestamp>, h: Handler, evs: seq<Event>): Script<Write>
  {
    Loop(EventBody(parseTime, h), evs)
  }

  /** A handler: select the events of its type, then loop over them. */
  function HandlerScript(parseTime: string -> Option<Timestamp>, h: Handler, events: seq<Event>): Script<Write>
  {
    HandlerLoop(parseTime, h, FindEventsByType(events, EventType(h)))
  }

  /** `handleTxAndBeginBlockEvents`: opt-info updates, operator USD values, their
      deletions, AVS USD values, their deletions. */
  function CommonScript(parseTime: string -> Option<Timestamp>, events: seq<Event>): Script<Write>
  {
    CommonBatch(parseTime, SelectCommon(events))
  }

  /** The events each of the common handlers selects. */
  datatype CommonEvents = CommonEvents(
    optInfoUpdates: seq<Event>,
    usdValues: seq<Event>,
    usdDeletions: seq<Event>,
    avsUsdValues: seq<Event>,
    avsUsdDeletions: seq<Event>)

  function SelectCommon(events: seq<Event>): CommonEvents
  {
    CommonEvents(FindEventsByType(events, EventType(OptInfoUpdated)), FindEventsByType(events, EventType(OperatorUsdValues)),
                 FindEventsByType(events, EventType(OperatorUsdDeletion)), FindEventsByType(events, EventType(AvsUsdValues)),
                 FindEventsByType(events, EventType(AvsUsdDeletion)))
  }

  /** The common handlers' loops, in order, over the events each selected. */
  function CommonBatch(parseTime: string -> Option<Timestamp>, c: CommonEvents): Script<Write>
  {
    Then(HandlerLoop(parseTime, OptInfoUpdated, c.optInfoUpdates),
    Then(HandlerLoop(parseTime, OperatorUsdValues, c.usdValues),
    Then(HandlerLoop(parseTime, OperatorUsdDeletion, c.usdDeletions),
    Then(HandlerLoop(parseTime, AvsUsdValues, c.avsUsdValues),
         HandlerLoop(parseTime, AvsUsdDeletion, c.avsUsdDeletions)))))
  }

  /** `HandleTx`: registration, opt-in, set key, set previous key, the common
      handlers, and the start of key removals last. */
  function TxScript(parseTime: string -> Option<Timestamp>, events: seq<Event>): Script<Write>
  {
    Then(HandlerScript(parseTime, Registration, events),
    Then(HandlerScript(parseTime, OptIn, events),
    Then(HandlerScript(parseTime, SetConsKey, events),
    Then(HandlerScript(parseTime, SetPrevKey, events),
    Then(CommonScript(parseTime, events),
         HandlerScript(parseTime, InitKeyRemoval, events))))))
  }

  /** `HandleBlock`: the common handlers on the BeginBlock events, then key removals
      completed and previous keys cleared on the EndBlock events. */
  function BlockScript(parseTime: string -> Option<Timestamp>, block: Block): Script<Write>
  {
    Then(CommonScript(parseTime, block.beginBlockEvents),
    Then(HandlerScript(parseTime, CompleteKeyRemoval, block.endBlockEvents),
         HandlerScript(parseTime, ClearPrevKey, block.endBlockEvents)))
  }

  // ---------------------------------------------------------------------------------
  // Genesis

  /** `keytypes.NewWrappedConsKeyFromHex` and what the handler reads of the wrapped key:
      `ToHex()`, the hex of `ToConsAddr().Bytes()` and `ToConsAddr().String()`. */
  datatype WrappedKey = WrappedKey(hex: string, consAddrHex: string, consAddrString: string)

  datatype ChainDetail = ChainDetail(chainId: string, consensusKey: string)

  datatype OperatorRecord = OperatorRecord(operatorAddress: string, chains: seq<ChainDetail>)

  /** Genesis entries whose `key` joins two addresses. */
  datatype OptState = OptState(key: string, optInfo: OptedInfo)
  datatype OperatorUsdState = OperatorUsdState(key: string, optedUSDValue: OperatorOptedUSDValue)
  datatype PrevConsKey = PrevConsKey(key: string, consensusKey: string)
  datatype KeyRemoval = KeyRemoval(key: string)

  /** The parts of x/operator `GenesisState` the handler reads. */
  datatype GenesisState = GenesisState(
    operators: seq<OperatorInfo>,
    operatorRecords: seq<OperatorRecord>,
    optStates: seq<OptState>,
    operatorUSDValues: seq<OperatorUsdState>,
    avsUSDValues: seq<AVSUSDValue>,
    preConsKeys: seq<PrevConsKey>,
    operatorKeyRemovals: seq<KeyRemoval>)

  /** `ParseJoinedStoreKey(key, 2)`: the two parts of a joined key, or `None`. */
  type KeyParser = string -> Option<(string, string)>

  type KeyWrapper = string -> Option<WrappedKey>

  function OperatorBody(parseTime: string -> Option<Timestamp>): OperatorInfo -> Script<Write>
  {
    (info: OperatorInfo) => DetailScript(parseTime, NewOperator(info))
  }

  /** One chain of an operator record. The key is taken as valid: a key that does not
      wrap is a nil interface whose method call panics. */
  function ChainKeyBody(wrapKey: KeyWrapper, operatorAddr: string): ChainDetail -> Script<Write>
  {
    (d: ChainDetail) =>
      match wrapKey(d.consensusKey)
      case None => Stop(Panic(NilDereference))
      case Some(k) => Single(UpsertConsKey(operatorAddr, d.chainId, d.consensusKey, k.consAddrHex))
  }

  function RecordBody(wrapKey: KeyWrapper): OperatorRecord -> Script<Write>
  {
    (rec: OperatorRecord) => Loop(ChainKeyBody(wrapKey, rec.operatorAddress), rec.chains)
  }

  /** An opt state's key is (operator, AVS). */
  function OptStateBody(parseKey: KeyParser): OptState -> Script<Write>
  {
    (s: OptState) =>
      match parseKey(s.key)
      case None => Stop(ParseError(s.key))
      case Some(p) => Single(UpsertOpted(NewOpted(p.0, p.1, s.optInfo)))
  }

  /** A USD value's key is (AVS, operator). */
  function UsdStateBody(parseKey: KeyParser): OperatorUsdState -> Script<Write>
  {
    (u: OperatorUsdState) =>
      match parseKey(u.key)
      case None => Stop(ParseError(u.key))
      case Some(p) => Single(UpsertOperatorUsd(NewOperatorUSDValue(p.1, p.0, u.optedUSDValue)))
  }

  function AvsStateBody(): AVSUSDValue -> Script<Write>
  {
    (v: AVSUSDValue) => Single(UpsertAvsUsd(NewAvsUSDValueFromStr(v.avsAddr, FormatDec(v.value))))
  }

  /** A previous key's key is (chain id, operator), and both are passed in that order
      to `SaveOperatorPrevConsKey(operatorAddr, chainID, …)`. */
  function PrevKeyBody(parseKey: KeyParser, wrapKey: KeyWrapper): PrevConsKey -> Script<Write>
  {
    (p: PrevConsKey) =>
      match parseKey(p.key)
      case None => Stop(ParseError(p.key))
      case Some(q) =>
        match wrapKey(p.consensusKey)
        case None => Stop(Panic(NilDereference))
        case Some(k) => Single(SetPrevConsKey(q.0, q.1, k.hex, k.consAddrString))
  }

  /** A removal's key is (operator, chain id), passed as (chain id, operator) to
      `MarkOperatorKeyRemoval(operatorAddr, chainID)`. */
  function RemovalBody(parseKey: KeyParser): KeyRemoval -> Script<Write>
  {
    (r: KeyRemoval) =>
      match parseKey(r.key)
      case None => Stop(ParseError(r.key))
      case Some(q) => Single(MarkKeyRemoval(q.1, q.0))
  }

  /** `HandleGenesis`: nothing is written when the state does not decode; otherwise
      operators, their consensus keys, opt states, operator and AVS USD values, previous
      keys and key removals, in that order, the first error ending the load. */
  function GenesisScript(parseTime: string -> Option<Timestamp>, wrapKey: KeyWrapper, parseKey: KeyParser, decoded: Option<GenesisState>): Script<Write>
  {
    match decoded
    case None => Stop(DecodeError)
    case Some(g) =>
      Then(Loop(OperatorBody(parseTime), g.operators),
      Then(Loop(RecordBody(wrapKey), g.operatorRecords),
      Then(Loop(OptStateBody(parseKey), g.optStates),
      Then(Loop(UsdStateBody(parseKey), g.operatorUSDValues),
      Then(Loop(AvsStateBody(), g.avsUSDValues),
      Then(Loop(PrevKeyBody(parseKey, wrapKey), g.preConsKeys),
           Loop(RemovalBody(parseKey), g.operatorKeyRemovals)))))))
  }

  // ---------------------------------------------------------------------------------
  // Properties of the event handlers

  /** The value of attribute `key` of the event ("" when the event lacks it; the
      lemmas below only read attributes the event carries). */
  function Attr(e: Event, key: string): string
  {
    match FindAttributeByKey(e, key)
    case Ok(v) => v
    case Err(_) => ""
  }

  /** The event carries every attribute handler `h` reads. */
  predicate Carries(e: Event, h: Handler)
  {
    forall k :: k in Keys(h) ==> HasKey(e.attributes, k)
  }

  /** An event carrying the attributes is handled by `Body` on their values. */
  lemma Decoded(parseTime: string -> Option<Timestamp>, h: Handler, e: Event) returns (v: seq<string>)
    requires Carries(e, h)
    ensures |v| == |Keys(h)| && forall i :: 0 <= i < |v| ==> HasKey(e.attributes, Keys(h)[i]) && v[i] == Attr(e, Keys(h)[i])
    ensures EventBody(parseTime, h)(e) == Body(parseTime, h, v)
  {
    v := Lookup(e, Keys(h)).value;
  }

  /** An event missing an attribute stops its handler with the first missing key, in
      the order the handler reads them. */
  lemma MissingAttributeStops(parseTime: string -> Option<Timestamp>, h: Handler, e: Event)
    requires !Carries(e, h)
    ensures exists i :: 0 <= i < |Keys(h)| && !HasKey(e.attributes, Keys(h)[i])
                     && (forall j :: 0 <= j < i ==> HasKey(e.attributes, Keys(h)[j]))
                     && EventBody(parseTime, h)(e) == Stop(MissingAttribute(Keys(h)[i]))
  {
    var x := Lookup(e, Keys(h));
    assert x.Err?;
    assert EventBody(parseTime, h)(e) == Stop(x.error);
  }

  /** Every handler body sends one statement or returns an error. */
  lemma EventBodyOneOrStop(parseTime: string -> Option<Timestamp>, h: Handler)
    ensures forall e :: OneOrStop(EventBody(parseTime, h)(e))
  {
    forall e
      ensures OneOrStop(EventBody(parseTime, h)(e))
    {
      var x := Lookup(e, Keys(h));
      if x.Ok? {
        BodyOneOrStop(parseTime, h, x.value);
      }
    }
  }

  lemma BodyOneOrStop(parseTime: string -> Option<Timestamp>, h: Handler, v: seq<string>)
    requires |v| == |Keys(h)|
    ensures OneOrStop(Body(parseTime, h, v))
  {
    if h.Registration? {
      assert Body(parseTime, h, v) == DetailScript(parseTime, NewOperatorFromStr(v[0], v[0], v[1], v[2], v[3], v[4], v[5]));
    }
  }

  /** A handler's loop sends one statement per event, in order, up to the first event
      whose body fails; that failure is what the handler returns. */
  lemma HandlerLoopShape(parseTime: string -> Option<Timestamp>, h: Handler, evs: seq<Event>)
    ensures var s, k := HandlerLoop(parseTime, h, evs), FirstStop(EventBody(parseTime, h), evs);
      && |s.writes| == k
      && (forall i :: 0 <= i < k ==> EventBody(parseTime, h)(evs[i]) == Single(s.writes[i]))
      && s.stop == (if k < |evs| then EventBody(parseTime, h)(evs[k]).stop else None)
  {
    EventBodyOneOrStop(parseTime, h);
    LoopSingles(EventBody(parseTime, h), evs);
  }

  /** A handler that runs to the end sent one statement for every event it selected,
      and every such event carried all of the handler's attributes. */
  lemma HandlerCompleted(parseTime: string -> Option<Timestamp>, h: Handler, evs: seq<Event>)
    requires HandlerLoop(parseTime, h, evs).stop.None?
    ensures var s := HandlerLoop(parseTime, h, evs);
      && |s.writes| == |evs|
      && forall i :: 0 <= i < |evs| ==> Carries(evs[i], h) && EventBody(parseTime, h)(evs[i]) == Single(s.writes[i])
  {
    HandlerLoopShape(parseTime, h, evs);
    forall i | 0 <= i < |evs|
      ensures Carries(evs[i], h)
    {
      BodySentCarries(parseTime, h, evs[i]);
    }
  }

  lemma BodySentCarries(parseTime: string -> Option<Timestamp>, h: Handler, e: Event)
    ensures EventBody(parseTime, h)(e).stop.None? ==> Carries(e, h)
  {
  }

  /** The bodies that only read attributes succeed on an event that carries them. */
  lemma PlainBodySucceeds(parseTime: string -> Option<Timestamp>, h: Handler, e: Event)
    ensures !h.Registration? && !h.OperatorUsdValues? && Carries(e, h) ==> EventBody(parseTime, h)(e).stop.None?
  {
    if !h.Registration? && !h.OperatorUsdValues? && Carries(e, h) {
      var v := Decoded(parseTime, h, e);
    }
  }

  /** The handlers that only read attributes fail exactly when one of their events
      lacks one. */
  lemma HandlerFailsIffMissing(parseTime: string -> Option<Timestamp>, h: Handler, evs: seq<Event>)
    requires !h.Registration? && !h.OperatorUsdValues?
    ensures HandlerLoop(parseTime, h, evs).stop.None? <==> forall i :: 0 <= i < |evs| ==> Carries(evs[i], h)
  {
    HandlerLoopShape(parseTime, h, evs);
    var k := FirstStop(EventBody(parseTime, h), evs);
    if k < |evs| {
      PlainBodySucceeds(parseTime, h, evs[k]);
    } else {
      HandlerCompleted(parseTime, h, evs);
    }
  }

  /** handleOperatorRegistrationEvents: the operator address is both the earnings and
      the approve address, the other fields are the attributes; a commission time that
      does not parse is an error. */
  lemma RegistrationSavesOperator(parseTime: string -> Option<Timestamp>, e: Event)
    requires Carries(e, Registration)
    ensures var time := Attr(e, AttributeKeyCommissionUpdateTime);
      && (parseTime(time).None? ==> EventBody(parseTime, Registration)(e) == Stop(ParseError(time)))
      && (parseTime(time).Some? ==>
            EventBody(parseTime, Registration)(e)
            == Single(UpsertOperator(Operator(Attr(e, AttributeKeyOperator), Attr(e, AttributeKeyOperator), Attr(e, AttributeKeyMetaInfo),
                                              Attr(e, AttributeKeyCommissionRate), Attr(e, AttributeKeyMaxCommissionRate),
                                              Attr(e, AttributeKeyMaxChangeRate), time),
                                     parseTime(time).value)))
  {
    var v := Decoded(parseTime, Registration, e);
  }

  /** handleOptInEvents: no opt-out height, so the default one, and not jailed. */
  lemma OptInSavesDefaults(parseTime: string -> Option<Timestamp>, e: Event)
    requires Carries(e, OptIn)
    ensures var s := EventBody(parseTime, OptIn)(e);
      && s.stop.None? && |s.writes| == 1 && s.writes[0].UpsertOpted?
      && var o := s.writes[0].opted;
      && o.operatorAddress == Attr(e, AttributeKeyOperator) && o.avsAddress == Attr(e, AttributeKeyAVSAddr)
      && o.slashContract == Attr(e, AttributeKeySlashContract) && o.inHeight == Attr(e, AttributeKeyOptInHeight)
      && ParseInteger(o.outHeight) == Some(DefaultOptedOutHeight as int) && !o.jailed
  {
    var v := Decoded(parseTime, OptIn, e);
  }

  /** handleOptInfoUpdated: the opt-in is overwritten from the attributes, and the
      operator is jailed exactly when the attribute is the string "true". */
  lemma OptInfoJailedIffTrue(parseTime: string -> Option<Timestamp>, e: Event)
    requires Carries(e, OptInfoUpdated)
    ensures var s := EventBody(parseTime, OptInfoUpdated)(e);
      && s.stop.None? && |s.writes| == 1 && s.writes[0].UpsertOpted?
      && var o := s.writes[0].opted;
      && o.operatorAddress == Attr(e, AttributeKeyOperator) && o.avsAddress == Attr(e, AttributeKeyAVSAddr)
      && o.slashContract == Attr(e, AttributeKeySlashContract) && o.inHeight == Attr(e, AttributeKeyOptInHeight)
      && (o.jailed <==> Attr(e, AttributeKeyJailed) == "true")
      && (Attr(e, AttributeKeyOptOutHeight) != "" ==> o.outHeight == Attr(e, AttributeKeyOptOutHeight))
      && (Attr(e, AttributeKeyOptOutHeight) == "" ==> ParseInteger(o.outHeight) == Some(DefaultOptedOutHeight as int))
  {
    var v := Decoded(parseTime, OptInfoUpdated, e);
  }

  /** handleSetPrevConsKey sends what handleSetConsKey sends: the key of the event
      becomes the row's current key (`ConsKeyKeepsHistory` says the previous-key
      columns are untouched). */
  lemma PrevKeyHandlerSavesCurrentKey(parseTime: string -> Option<Timestamp>, e: Event)
    ensures EventBody(parseTime, SetPrevKey)(e) == EventBody(parseTime, SetConsKey)(e)
    ensures Carries(e, SetPrevKey) ==>
      EventBody(parseTime, SetPrevKey)(e)
      == Single(UpsertConsKey(Attr(e, AttributeKeyOperator), Attr(e, AttributeKeyChainID),
                              Attr(e, AttributeKeyConsKeyHex), Attr(e, AttributeKeyConsensusAddress)))
  {
    assert Keys(SetPrevKey) == Keys(SetConsKey);
    if Carries(e, SetPrevKey) {
      var v := Decoded(parseTime, SetPrevKey, e);
    }
  }

  /** handleInitConsKeyRemoval passes (chain id, operator) where the store expects
      (operator, chain id), so it marks the row keyed (chain id, operator). */
  lemma InitRemovalSwapsKey(parseTime: string -> Option<Timestamp>, e: Event)
    requires Carries(e, InitKeyRemoval)
    ensures EventBody(parseTime, InitKeyRemoval)(e)
         == Single(MarkKeyRemoval(Attr(e, AttributeKeyChainID), Attr(e, AttributeKeyOperator)))
  {
    var v := Decoded(parseTime, InitKeyRemoval, e);
  }

  /** handleCompleteConsKeyRemoval passes (chain id, operator) as well, so it deletes
      the row keyed (chain id, operator). */
  lemma CompleteRemovalSwapsKey(parseTime: string -> Option<Timestamp>, e: Event)
    requires Carries(e, CompleteKeyRemoval)
    ensures EventBody(parseTime, CompleteKeyRemoval)(e)
         == Single(RemoveConsKey(Attr(e, AttributeKeyChainID), Attr(e, AttributeKeyOperator)))
  {
    var v := Decoded(parseTime, CompleteKeyRemoval, e);
  }

  /** A statement keyed (chain id, operator) leaves the operator's own row (operator,
      chain id) as it was whenever the two strings differ: the swapped removal never
      marks or deletes it. */
  lemma SwappedKeyMissesRow(t: Tables, op: string, chain: string)
    requires op != chain && (op, chain) in t.consKeys
    ensures Apply(t, MarkKeyRemoval(chain, op)).consKeys[(op, chain)] == t.consKeys[(op, chain)]
    ensures (op, chain) in Apply(t, RemoveConsKey(chain, op)).consKeys
  {
  }

  /** handleClearOperatorPrevConsKey passes (operator, chain id) in the store's order. */
  lemma ClearPrevKeyInOrder(parseTime: string -> Option<Timestamp>, e: Event)
    requires Carries(e, ClearPrevKey)
    ensures EventBody(parseTime, ClearPrevKey)(e)
         == Single(ClearPrevConsKey(Attr(e, AttributeKeyOperator), Attr(e, AttributeKeyChainID)))
  {
    var v := Decoded(parseTime, ClearPrevKey, e);
  }

  /** handleOperatorUSDValues, over the attribute values `v` (operator, AVS, self,
      total, active) of an event (`Decoded` ties them to the event): the strings are
      stored with other = total − self; when total or self is not a decimal the nil
      value is dereferenced and the handler panics. */
  lemma OperatorUsdSavesDerived(v: seq<string>)
    requires |v| == 5
    ensures var s := OperatorUsdBody(v);
      && (ParseDec(v[3]).None? || ParseDec(v[2]).None? ==> s == Stop(Panic(NilDereference)))
      && (ParseDec(v[3]).Some? && ParseDec(v[2]).Some? ==>
            && s.stop.None? && |s.writes| == 1 && s.writes[0].UpsertOperatorUsd?
            && var x := s.writes[0].value;
            && x.operatorAddress == v[0] && x.avsAddress == v[1]
            && x.selfUSDValue == v[2] && x.totalUSDValue == v[3] && x.activeUSDValue == v[4]
            && ParseDec(x.otherUSDValue) == Some(ParseDec(v[3]).value - ParseDec(v[2]).value))
  {
    if ParseDec(v[3]).Some? && ParseDec(v[2]).Some? {
      var self, total := ParseDec(v[2]).value, ParseDec(v[3]).value;
      FromStrOfParsed(v[0], v[1], v[2], v[3], v[4], self, total);
      ParseFormatDec(total - self);
    }
  }

  /** The corrected body returns the parse error of the total, then of the self value,
      and saves nothing; on values that parse it does what the handler does. */
  lemma OperatorUsdCorrectedReportsError(v: seq<string>)
    requires |v| == 5
    ensures var s := OperatorUsdBodyCorrected(v);
      && (ParseDec(v[3]).None? ==> s == Stop(ParseError(v[3])))
      && (ParseDec(v[3]).Some? && ParseDec(v[2]).None? ==> s == Stop(ParseError(v[2])))
      && (ParseDec(v[3]).Some? && ParseDec(v[2]).Some? ==> s == OperatorUsdBody(v))
  {
  }

  /** handleAvsUSDValues stores the value of the total-USD-value attribute. */
  lemma AvsUsdReadsTotal(parseTime: string -> Option<Timestamp>, e: Event)
    requires Carries(e, AvsUsdValues)
    ensures EventBody(parseTime, AvsUsdValues)(e)
         == Single(UpsertAvsUsd(AvsUSDValue(Attr(e, AttributeKeyAVSAddr), Attr(e, AttributeKeyTotalUSDValue))))
  {
    var v := Decoded(parseTime, AvsUsdValues, e);
  }

  /** The deletion handlers delete the (operator, AVS) pair, or the AVS, of the event. */
  lemma DeletionsExact(parseTime: string -> Option<Timestamp>, e: Event)
    ensures Carries(e, OperatorUsdDeletion) ==>
      EventBody(parseTime, OperatorUsdDeletion)(e) == Single(DeleteOperatorUsd(Attr(e, AttributeKeyOperator), Attr(e, AttributeKeyAVSAddr)))
    ensures Carries(e, AvsUsdDeletion) ==>
      EventBody(parseTime, AvsUsdDeletion)(e) == Single(DeleteAvsUsd(Attr(e, AttributeKeyAVSAddr)))
  {
    if Carries(e, OperatorUsdDeletion) {
      var v := Decoded(parseTime, OperatorUsdDeletion, e);
    }
    if Carries(e, AvsUsdDeletion) {
      var v := Decoded(parseTime, AvsUsdDeletion, e);
    }
  }

  /** The operator USD deletion handler sends only deletions, and the AVS USD handlers
      only AVS USD statements. */
  lemma LaterHandlersWrites(parseTime: string -> Option<Timestamp>, c: CommonEvents)
    requires HandlerLoop(parseTime, OperatorUsdDeletion, c.usdDeletions).stop.None?
    requires HandlerLoop(parseTime, AvsUsdValues, c.avsUsdValues).stop.None?
    requires HandlerLoop(parseTime, AvsUsdDeletion, c.avsUsdDeletions).stop.None?
    ensures var ws := HandlerLoop(parseTime, AvsUsdValues, c.avsUsdValues).writes;
      forall i :: 0 <= i < |ws| ==> ws[i].UpsertAvsUsd?
    ensures var ws := HandlerLoop(parseTime, AvsUsdDeletion, c.avsUsdDeletions).writes;
      forall i :: 0 <= i < |ws| ==> ws[i].DeleteAvsUsd?
    ensures var ws := HandlerLoop(parseTime, OperatorUsdDeletion, c.usdDeletions).writes;
      forall i :: 0 <= i < |ws| ==> ws[i].DeleteOperatorUsd?
  {
    HandlerCompleted(parseTime, OperatorUsdDeletion, c.usdDeletions);
    forall i | 0 <= i < |c.usdDeletions|
      ensures HandlerLoop(parseTime, OperatorUsdDeletion, c.usdDeletions).writes[i].DeleteOperatorUsd?
    {
      DeletionsExact(parseTime, c.usdDeletions[i]);
    }
    HandlerCompleted(parseTime, AvsUsdValues, c.avsUsdValues);
    HandlerCompleted(parseTime, AvsUsdDeletion, c.avsUsdDeletions);
    forall i | 0 <= i < |c.avsUsdValues|
      ensures HandlerLoop(parseTime, AvsUsdValues, c.avsUsdValues).writes[i].UpsertAvsUsd?
    {
      AvsUsdReadsTotal(parseTime, c.avsUsdValues[i]);
    }
    forall i | 0 <= i < |c.avsUsdDeletions|
      ensures HandlerLoop(parseTime, AvsUsdDeletion, c.avsUsdDeletions).writes[i].DeleteAvsUsd?
    {
      DeletionsExact(parseTime, c.avsUsdDeletions[i]);
    }
  }

  lemma NoUsdUpsertIn(a: seq<Write>, b: seq<Write>, c: seq<Write>)
    requires forall i :: 0 <= i < |a| ==> a[i].DeleteOperatorUsd?
    requires forall i :: 0 <= i < |b| ==> b[i].UpsertAvsUsd?
    requires forall i :: 0 <= i < |c| ==> c[i].DeleteAvsUsd?
    ensures forall i :: 0 <= i < |a + (b + c)| ==> !(a + (b + c))[i].UpsertOperatorUsd?
  {
  }

  /** In one batch of common events (`c` is `SelectCommon(events)`), an operator USD
      value that is both upserted and deleted ends up deleted: the deletions run after
      the upserts. */
  lemma OperatorUsdDeletionWins(parseTime: string -> Option<Timestamp>, t: Tables, c: CommonEvents, e: Event)
    requires CommonBatch(parseTime, c).stop.None?
    requires e in c.usdDeletions
    ensures Carries(e, OperatorUsdDeletion)
    ensures (Attr(e, AttributeKeyOperator), Attr(e, AttributeKeyAVSAddr)) !in ApplyAll(Apply, t, CommonBatch(parseTime, c).writes).operatorUsd
  {
    var s0, s1 := HandlerLoop(parseTime, OptInfoUpdated, c.optInfoUpdates), HandlerLoop(parseTime, OperatorUsdValues, c.usdValues);
    var s2 := HandlerLoop(parseTime, OperatorUsdDeletion, c.usdDeletions);
    var s3, s4 := HandlerLoop(parseTime, AvsUsdValues, c.avsUsdValues), HandlerLoop(parseTime, AvsUsdDeletion, c.avsUsdDeletions);
    var j :| 0 <= j < |c.usdDeletions| && c.usdDeletions[j] == e;
    HandlerCompleted(parseTime, OperatorUsdDeletion, c.usdDeletions);
    DeletionsExact(parseTime, e);
    LaterHandlersWrites(parseTime, c);
    var r3 := s3.writes + s4.writes;
    var tail := s2.writes + r3;
    assert CommonBatch(parseTime, c).writes == s0.writes + (s1.writes + tail);
    ApplyAllConcat(Apply, t, s0.writes, s1.writes + tail);
    ApplyAllConcat(Apply, ApplyAll(Apply, t, s0.writes), s1.writes, tail);
    assert tail[j] == s2.writes[j];
    NoUsdUpsertIn(s2.writes, s3.writes, s4.writes);
    UsdDeletionStays(ApplyAll(Apply, ApplyAll(Apply, t, s0.writes), s1.writes), tail, j);
  }

  /** The same holds for AVS USD values: a deletion in the batch wins over an upsert. */
  lemma AvsUsdDeletionWins(parseTime: string -> Option<Timestamp>, t: Tables, c: CommonEvents, e: Event)
    requires CommonBatch(parseTime, c).stop.None?
    requires e in c.avsUsdDeletions
    ensures Carries(e, AvsUsdDeletion)
    ensures Attr(e, AttributeKeyAVSAddr) !in ApplyAll(Apply, t, CommonBatch(parseTime, c).writes).avsUsd
  {
    var s0, s1 := HandlerLoop(parseTime, OptInfoUpdated, c.optInfoUpdates), HandlerLoop(parseTime, OperatorUsdValues, c.usdValues);
    var s2 := HandlerLoop(parseTime, OperatorUsdDeletion, c.usdDeletions);
    var s3, s4 := HandlerLoop(parseTime, AvsUsdValues, c.avsUsdValues), HandlerLoop(parseTime, AvsUsdDeletion, c.avsUsdDeletions);
    var j :| 0 <= j < |c.avsUsdDeletions| && c.avsUsdDeletions[j] == e;
    HandlerCompleted(parseTime, AvsUsdDeletion, c.avsUsdDeletions);
    DeletionsExact(parseTime, e);
    LaterHandlersWrites(parseTime, c);
    assert CommonBatch(parseTime, c).writes == s0.writes + (s1.writes + (s2.writes + (s3.writes + s4.writes)));
    var t0 := ApplyAll(Apply, t, s0.writes);
    var t1 := ApplyAll(Apply, t0, s1.writes);
    var t2 := ApplyAll(Apply, t1, s2.writes);
    ApplyAllConcat(Apply, t, s0.writes, s1.writes + (s2.writes + (s3.writes + s4.writes)));
    ApplyAllConcat(Apply, t0, s1.writes, s2.writes + (s3.writes + s4.writes));
    ApplyAllConcat(Apply, t1, s2.writes, s3.writes + s4.writes);
    ApplyAllConcat(Apply, t2, s3.writes, s4.writes);
    AvsUsdDeletionStays(ApplyAll(Apply, t2, s3.writes), s4.writes, j);
  }

  /** An operator USD event whose total is not a decimal: the handler dereferences the
      nil value and panics, where the corrected body returns the parse error. */
  lemma NilUsdValuePanics(parseTime: string -> Option<Timestamp>, e: Event, v: seq<string>)
    requires Lookup(e, Keys(OperatorUsdValues)) == Ok(v) && |v| == 5
    requires ParseDec(v[3]).None?
    ensures HandlerLoop(parseTime, OperatorUsdValues, [e]) == Stop(Panic(NilDereference))
    ensures OperatorUsdBodyCorrected(v) == Stop(ParseError(v[3]))
  {
    assert NewOperatorUSDValueFromStr(v[0], v[1], v[2], v[3], v[4]).None?;
    LoopOne(EventBody(parseTime, OperatorUsdValues), e);
    assert EventBody(parseTime, OperatorUsdValues)(e) == Body(parseTime, OperatorUsdValues, v);
    UsdBody(parseTime, v);
  }

  lemma UsdBody(parseTime: string -> Option<Timestamp>, v: seq<string>)
    requires |v| == 5
    ensures Body(parseTime, OperatorUsdValues, v) == OperatorUsdBody(v)
  {
  }

  /** Such values exist: an empty total with a self of "1". */
  lemma NilUsdValueExample()
    ensures OperatorUsdBody(["op", "avs", "1", "", "1"]) == Stop(Panic(NilDereference))
    ensures OperatorUsdBodyCorrected(["op", "avs", "1", "", "1"]) == Stop(ParseError(""))
  {
    assert ParseDec("").None?;
  }

  // ---------------------------------------------------------------------------------
  // Properties of the genesis load

  /** Each genesis loop body sends one statement or returns an error. */
  lemma GenesisBodiesOneOrStop(parseTime: string -> Option<Timestamp>, wrapKey: KeyWrapper, parseKey: KeyParser)
    ensures forall info :: OneOrStop(OperatorBody(parseTime)(info))
    ensures forall a, d :: OneOrStop(ChainKeyBody(wrapKey, a)(d))
    ensures forall x :: OneOrStop(OptStateBody(parseKey)(x))
    ensures forall u :: OneOrStop(UsdStateBody(parseKey)(u))
    ensures forall v :: OneOrStop(AvsStateBody()(v))
    ensures forall p :: OneOrStop(PrevKeyBody(parseKey, wrapKey)(p))
    ensures forall r :: OneOrStop(RemovalBody(parseKey)(r))
  {
    forall a, d: ChainDetail
      ensures OneOrStop(ChainKeyBody(wrapKey, a)(d))
    {
      if wrapKey(d.consensusKey).Some? {
        var k := wrapKey(d.consensusKey).value;
        assert ChainKeyBody(wrapKey, a)(d) == Single(UpsertConsKey(a, d.chainId, d.consensusKey, k.consAddrHex));
      }
    }
    forall x: OptState
      ensures OneOrStop(OptStateBody(parseKey)(x))
    {
      if parseKey(x.key).Some? {
        var p := parseKey(x.key).value;
        assert OptStateBody(parseKey)(x) == Single(UpsertOpted(NewOpted(p.0, p.1, x.optInfo)));
      }
    }
    forall x: OperatorUsdState
      ensures OneOrStop(UsdStateBody(parseKey)(x))
    {
      if parseKey(x.key).Some? {
        var p := parseKey(x.key).value;
        assert UsdStateBody(parseKey)(x) == Single(UpsertOperatorUsd(NewOperatorUSDValue(p.1, p.0, x.optedUSDValue)));
      }
    }
    forall x: PrevConsKey
      ensures OneOrStop(PrevKeyBody(parseKey, wrapKey)(x))
    {
      if parseKey(x.key).Some? && wrapKey(x.consensusKey).Some? {
        var q, k := parseKey(x.key).value, wrapKey(x.consensusKey).value;
        assert PrevKeyBody(parseKey, wrapKey)(x) == Single(SetPrevConsKey(q.0, q.1, k.hex, k.consAddrString));
      }
    }
    forall x: KeyRemoval
      ensures OneOrStop(RemovalBody(parseKey)(x))
    {
      if parseKey(x.key).Some? {
        var q := parseKey(x.key).value;
        assert RemovalBody(parseKey)(x) == Single(MarkKeyRemoval(q.1, q.0));
      }
    }
  }

  /** A decoded genesis state that loads to the end ran every section to the end, and
      its statements are those of the seven sections in order. */
  lemma GenesisCompleted(parseTime: string -> Option<Timestamp>, wrapKey: KeyWrapper, parseKey: KeyParser, g: GenesisState)
    requires GenesisScript(parseTime, wrapKey, parseKey, Some(g)).stop.None?
    ensures var s0, s1, s2 := Loop(OperatorBody(parseTime), g.operators), Loop(RecordBody(wrapKey), g.operatorRecords), Loop(OptStateBody(parseKey), g.optStates);
      var s3, s4 := Loop(UsdStateBody(parseKey), g.operatorUSDValues), Loop(AvsStateBody(), g.avsUSDValues);
      var s5, s6 := Loop(PrevKeyBody(parseKey, wrapKey), g.preConsKeys), Loop(RemovalBody(parseKey), g.operatorKeyRemovals);
      && s0.stop.None? && s1.stop.None? && s2.stop.None? && s3.stop.None? && s4.stop.None? && s5.stop.None? && s6.stop.None?
      && GenesisScript(parseTime, wrapKey, parseKey, Some(g)).writes
         == s0.writes + (s1.writes + (s2.writes + (s3.writes + (s4.writes + (s5.writes + s6.writes)))))
  {
  }

  /** Operators: one detail per operator, loaded to the end exactly when every
      commission time parses. */
  lemma GenesisOperatorsSaved(parseTime: string -> Option<Timestamp>, ops: seq<OperatorInfo>)
    ensures var s := Loop(OperatorBody(parseTime), ops);
      && (s.stop.None? <==> forall i :: 0 <= i < |ops| ==> parseTime(ops[i].updateTime).Some?)
      && (s.stop.None? ==>
            && |s.writes| == |ops|
            && forall i :: 0 <= i < |ops| ==> s.writes[i] == UpsertOperator(NewOperator(ops[i]), parseTime(ops[i].updateTime).value))
  {
    GenesisBodiesOneOrStop(parseTime, (t: string) => None, (t: string) => None);
    LoopCompleted(OperatorBody(parseTime), ops);
  }

  /** The (operator, chain detail) pairs of the operator records, record by record and
      chain by chain. */
  function Pairs(records: seq<OperatorRecord>): seq<(string, ChainDetail)>
  {
    if records == [] then []
    else ChainsOf(records[0]) + Pairs(records[1..])
  }

  function ChainsOf(rec: OperatorRecord): (r: seq<(string, ChainDetail)>)
    ensures |r| == |rec.chains| && forall i :: 0 <= i < |r| ==> r[i] == (rec.operatorAddress, rec.chains[i])
  {
    seq(|rec.chains|, i requires 0 <= i < |rec.chains| => (rec.operatorAddress, rec.chains[i]))
  }

  /** Every chain of every record is a pair, and every pair comes from a record. */
  lemma {:induction false} PairsCover(records: seq<OperatorRecord>)
    ensures forall j, k :: 0 <= j < |records| && 0 <= k < |records[j].chains| ==>
              (records[j].operatorAddress, records[j].chains[k]) in Pairs(records)
    ensures forall p :: p in Pairs(records) ==>
              exists j :: 0 <= j < |records| && p.0 == records[j].operatorAddress && p.1 in records[j].chains
    decreases |records|
  {
    if records != [] {
      var rest := records[1..];
      PairsCover(rest);
      assert forall j :: 1 <= j < |records| ==> records[j] == rest[j - 1];
      forall j, k | 0 <= j < |records| && 0 <= k < |records[j].chains|
        ensures (records[j].operatorAddress, records[j].chains[k]) in Pairs(records)
      {
        if j == 0 {
          assert ChainsOf(records[0])[k] == (records[0].operatorAddress, records[0].chains[k]);
        } else {
          assert (rest[j - 1].operatorAddress, rest[j - 1].chains[k]) in Pairs(rest);
        }
      }
      forall p | p in Pairs(records)
        ensures exists j :: 0 <= j < |records| && p.0 == records[j].operatorAddress && p.1 in records[j].chains
      {
        if p in ChainsOf(records[0]) {
          var k :| 0 <= k < |records[0].chains| && ChainsOf(records[0])[k] == p;
          assert p.1 == records[0].chains[k];
        } else {
          assert p in Pairs(rest);
          var j :| 0 <= j < |rest| && p.0 == rest[j].operatorAddress && p.1 in rest[j].chains;
          assert records[j + 1] == rest[j];
        }
      }
    }
  }

  function PairBody(wrapKey: KeyWrapper): ((string, ChainDetail)) -> Script<Write>
  {
    (p: (string, ChainDetail)) => ChainKeyBody(wrapKey, p.0)(p.1)
  }

  /** The nested loop over records and their chains is one loop over the pairs. */
  lemma {:induction false} RecordsFlatten(wrapKey: KeyWrapper, records: seq<OperatorRecord>)
    ensures Loop(RecordBody(wrapKey), records) == Loop(PairBody(wrapKey), Pairs(records))
    decreases |records|
  {
    if records != [] {
      var head := ChainsOf(records[0]);
      LoopPointwise(ChainKeyBody(wrapKey, records[0].operatorAddress), records[0].chains, PairBody(wrapKey), head);
      RecordsFlatten(wrapKey, records[1..]);
      LoopConcat(PairBody(wrapKey), head, Pairs(records[1..]));
    }
  }

  /** Consensus keys: one row per (operator, chain) detail, with the hex of the key's
      consensus address; a key that does not wrap panics. */
  lemma GenesisConsKeysOnePerDetail(wrapKey: KeyWrapper, records: seq<OperatorRecord>)
    ensures var s, ps := Loop(RecordBody(wrapKey), records), Pairs(records);
      && (s.stop.None? <==> forall i :: 0 <= i < |ps| ==> wrapKey(ps[i].1.consensusKey).Some?)
      && (s.stop.None? ==>
            && |s.writes| == |ps|
            && forall i :: 0 <= i < |ps| ==>
              s.writes[i] == UpsertConsKey(ps[i].0, ps[i].1.chainId, ps[i].1.consensusKey, wrapKey(ps[i].1.consensusKey).value.consAddrHex))
  {
    RecordsFlatten(wrapKey, records);
    GenesisBodiesOneOrStop((t: string) => None, wrapKey, (t: string) => None);
    forall p: (string, ChainDetail)
      ensures OneOrStop(PairBody(wrapKey)(p))
    {
      assert PairBody(wrapKey)(p) == ChainKeyBody(wrapKey, p.0)(p.1);
    }
    LoopCompleted(PairBody(wrapKey), Pairs(records));
  }

  /** Opt states: the joined key is (operator, AVS); a key that does not split is an
      error. */
  lemma GenesisOptStatesSaved(parseKey: KeyParser, xs: seq<OptState>)
    ensures var s := Loop(OptStateBody(parseKey), xs);
      && (s.stop.None? <==> forall i :: 0 <= i < |xs| ==> parseKey(xs[i].key).Some?)
      && (s.stop.None? ==>
            && |s.writes| == |xs|
            && forall i :: 0 <= i < |xs| ==>
                 && s.writes[i].UpsertOpted?
                 && var o, p := s.writes[i].opted, parseKey(xs[i].key).value;
                 && o.operatorAddress == p.0 && o.avsAddress == p.1
                 && o.slashContract == xs[i].optInfo.slashContract && o.jailed == xs[i].optInfo.jailed
                 && ParseInteger(o.inHeight) == Some(xs[i].optInfo.optedInHeight as int)
                 && ParseInteger(o.outHeight) == Some(xs[i].optInfo.optedOutHeight as int))
  {
    GenesisBodiesOneOrStop((t: string) => None, (t: string) => None, parseKey);
    LoopCompleted(OptStateBody(parseKey), xs);
  }

  /** Operator USD values: the joined key is (AVS, operator), the reverse of an opt
      state's; each row is the one `NewOperatorUSDValue` builds from the typed value. */
  lemma GenesisUsdValuesSaved(parseKey: KeyParser, xs: seq<OperatorUsdState>)
    ensures var s := Loop(UsdStateBody(parseKey), xs);
      && (s.stop.None? <==> forall i :: 0 <= i < |xs| ==> parseKey(xs[i].key).Some?)
      && (s.stop.None? ==>
            && |s.writes| == |xs|
            && forall i :: 0 <= i < |xs| ==> UsdStateSaved(parseKey, xs[i], s.writes[i]))
  {
    GenesisBodiesOneOrStop((t: string) => None, (t: string) => None, parseKey);
    var s := Loop(UsdStateBody(parseKey), xs);
    LoopCompleted(UsdStateBody(parseKey), xs);
    if s.stop.None? {
      forall i | 0 <= i < |xs|
        ensures UsdStateSaved(parseKey, xs[i], s.writes[i])
      {
        assert UsdStateBody(parseKey)(xs[i]) == Single(s.writes[i]);
        UsdStateBodyWrites(parseKey, xs[i], s.writes[i]);
      }
    }
  }

  /** What one operator USD genesis entry stores: the row `NewOperatorUSDValue` builds
      for the parts of its joined key, reversed (`TypedUsdValueReadsBack` reads its
      strings back). */
  predicate UsdStateSaved(parseKey: KeyParser, u: OperatorUsdState, w: Write)
  {
    && parseKey(u.key).Some? && w.UpsertOperatorUsd?
    && w.value == NewOperatorUSDValue(parseKey(u.key).value.1, parseKey(u.key).value.0, u.optedUSDValue)
  }

  lemma UsdStateBodyWrites(parseKey: KeyParser, u: OperatorUsdState, w: Write)
    requires UsdStateBody(parseKey)(u) == Single(w)
    ensures UsdStateSaved(parseKey, u, w)
  {
  }

  /** AVS USD values always load; each stored string reads back as its value. */
  lemma GenesisAvsValuesSaved(xs: seq<AVSUSDValue>)
    ensures var s := Loop(AvsStateBody(), xs);
      && s.stop.None? && |s.writes| == |xs|
      && forall i :: 0 <= i < |xs| ==>
           && s.writes[i].UpsertAvsUsd?
           && s.writes[i].avsValue.avsAddress == xs[i].avsAddr
           && ParseDec(s.writes[i].avsValue.usdValue) == Some(xs[i].value)
  {
    GenesisBodiesOneOrStop((t: string) => None, (t: string) => None, (t: string) => None);
    LoopCompleted(AvsStateBody(), xs);
    forall i | 0 <= i < |xs|
      ensures ParseDec(FormatDec(xs[i].value)) == Some(xs[i].value)
    {
      ParseFormatDec(xs[i].value);
    }
  }

  /** Previous keys: the joined key is (chain id, operator) and its parts are passed in
      that order, so the chain id lands where the store expects the operator. */
  lemma GenesisPrevKeysChainFirst(parseKey: KeyParser, wrapKey: KeyWrapper, xs: seq<PrevConsKey>)
    ensures var s := Loop(PrevKeyBody(parseKey, wrapKey), xs);
      && (s.stop.None? <==> forall i :: 0 <= i < |xs| ==> parseKey(xs[i].key).Some? && wrapKey(xs[i].consensusKey).Some?)
      && (s.stop.None? ==>
            && |s.writes| == |xs|
            && forall i :: 0 <= i < |xs| ==>
              var q, k := parseKey(xs[i].key).value, wrapKey(xs[i].consensusKey).value;
              s.writes[i] == SetPrevConsKey(q.0, q.1, k.hex, k.consAddrString))
  {
    GenesisBodiesOneOrStop((t: string) => None, wrapKey, parseKey);
    LoopCompleted(PrevKeyBody(parseKey, wrapKey), xs);
  }

  /** Key removals: the joined key is (operator, chain id) and the parts are passed
      reversed, as the transaction handler does. */
  lemma GenesisRemovalsReversed(parseKey: KeyParser, xs: seq<KeyRemoval>)
    ensures var s := Loop(RemovalBody(parseKey), xs);
      && (s.stop.None? <==> forall i :: 0 <= i < |xs| ==> parseKey(xs[i].key).Some?)
      && (s.stop.None? ==>
            && |s.writes| == |xs|
            && forall i :: 0 <= i < |xs| ==>
              s.writes[i] == MarkKeyRemoval(parseKey(xs[i].key).value.1, parseKey(xs[i].key).value.0))
  {
    GenesisBodiesOneOrStop((t: string) => None, (t: string) => None, parseKey);
    LoopCompleted(RemovalBody(parseKey), xs);
  }

  // ---------------------------------------------------------------------------------
  // The module

  class Module {
    const db: Store
    const wrapKey: KeyWrapper
    const parseKey: KeyParser

    constructor(db: Store, wrapKey: KeyWrapper, parseKey: KeyParser)
      ensures this.db == db && this.wrapKey == wrapKey && this.parseKey == parseKey
    {
      this.db, this.wrapKey, this.parseKey := db, wrapKey, parseKey;
    }

    /** A statement the store functions can send: an operator's timestamp is the one
        its commission time parses to. */
    predicate Sendable(w: Write)
    {
      w.UpsertOperator? ==> db.parseTime(w.operator.commissionUpdateTime) == Some(w.updated)
    }

    /** A loop body that returns an error or sends one such statement. */
    predicate Plain(s: Script<Write>)
    {
      OneOrStop(s) && (s.stop.None? ==> Sendable(s.writes[0]))
    }

    /** The store function that sends `w`. */
    method Send(w: Write) returns (r: Outcome)
      requires Sendable(w)
      modifies db
      ensures (r == Pass && db.Snapshot() == Apply(old(db.Snapshot()), w)) || (r == Fail(DbError) && db.Snapshot() == old(db.Snapshot()))
    {
      match w
      case UpsertOperator(o, _) => r := db.SaveOperatorDetail(o);
      case UpsertConsKey(op, chain, hex, addr) => r := db.SaveOperatorConsKey(op, chain, hex, addr);
      case UpsertOpted(o) => r := db.SaveOptedState(o);
      case UpsertOperatorUsd(v) => r := db.SaveOperatorUSDValue(v);
      case DeleteOperatorUsd(op, avs) => r := db.DeleteOperatorUSDValue(op, avs);
      case UpsertAvsUsd(v) => r := db.SaveAvsUSDValue(v);
      case DeleteAvsUsd(avs) => r := db.DeleteAvsUSDValue(avs);
      case SetPrevConsKey(op, chain, hex, addr) => r := db.SaveOperatorPrevConsKey(op, chain, hex, addr);
      case ClearPrevConsKey(op, chain) => r := db.ClearOperatorPrevConsKey(op, chain);
      case MarkKeyRemoval(op, chain) => r := db.MarkOperatorKeyRemoval(op, chain);
      case RemoveConsKey(op, chain) => r := db.RemoveOperatorConsKey(op, chain);
    }

    /** `for _, x := range xs { … }` where the body returns an error or calls one store
        function. */
    method SendEach<T>(body: T -> Script<Write>, xs: seq<T>) returns (r: Outcome, ghost n: nat)
      requires forall x :: Plain(body(x))
      modifies db
      ensures Performed(Loop(body, xs), r, n)
      ensures db.Snapshot() == ApplyAll(Apply, old(db.Snapshot()), Loop(body, xs).writes[..n])
    {
      ghost var full, j0 := Loop(body, xs), db.Snapshot();
      ghost var done := Begin(Apply, full, j0);
      var i := 0;
      while i < |xs|
        invariant i <= |xs| && done.stop.None? && db.Snapshot() == ApplyAll(Apply, j0, done.writes)
        invariant full == Then(done, Loop(body, xs[i..]))
      {
        LoopStep(body, xs, i);
        var s := body(xs[i]);
        assert Plain(s);
        if s.stop.Some? {
          assert s == Stop(s.stop.value);
          n := Halt(Apply, full, done, s.stop.value, j0, db.Snapshot());
          return Fail(s.stop.value), n;
        }
        assert s == Single(s.writes[0]);
        ghost var mid := db.Snapshot();
        r := Send(s.writes[0]);
        ghost var m := Ran(Apply, s.writes[0], r, mid, db.Snapshot());
        done, n := Advance(Apply, full, done, s, Loop(body, xs[i + 1..]), r, m, j0, mid, db.Snapshot());
        if r.Fail? {
          return;
        }
        i := i + 1;
      }
      assert xs[i..] == [];
      n := Finish(Apply, full, done, j0, db.Snapshot());
      r := Pass;
    }

    lemma EventBodyPlain(h: Handler)
      ensures forall e :: Plain(EventBody(db.parseTime, h)(e))
    {
      forall e
        ensures Plain(EventBody(db.parseTime, h)(e))
      {
        var x := Lookup(e, Keys(h));
        if x.Ok? {
          BodyPlain(h, x.value);
        }
      }
    }

    lemma BodyPlain(h: Handler, v: seq<string>)
      requires |v| == |Keys(h)|
      ensures Plain(Body(db.parseTime, h, v))
    {
      if h.Registration? {
        assert Body(db.parseTime, h, v) == DetailScript(db.parseTime, NewOperatorFromStr(v[0], v[0], v[1], v[2], v[3], v[4], v[5]));
      }
    }

    /** One of the event handlers (the `handle…` functions of handle_tx.go and
        handle_block.go). */
    method HandleEvents(h: Handler, events: seq<Event>) returns (r: Outcome, ghost n: nat)
      modifies db
      ensures Performed(HandlerScript(db.parseTime, h, events), r, n)
      ensures db.Snapshot() == ApplyAll(Apply, old(db.Snapshot()), HandlerScript(db.parseTime, h, events).writes[..n])
    {
      EventBodyPlain(h);
      r, n := SendEach(EventBody(db.parseTime, h), FindEventsByType(events, EventType(h)));
    }

    /** `handleTxAndBeginBlockEvents`. */
    method HandleCommon(events: seq<Event>) returns (r: Outcome, ghost n: nat)
      modifies db
      ensures Performed(CommonScript(db.parseTime, events), r, n)
      ensures db.Snapshot() == ApplyAll(Apply, old(db.Snapshot()), CommonScript(db.parseTime, events).writes[..n])
    {
      var pt := db.parseTime;
      ghost var s0, s1, s2 := HandlerScript(pt, OptInfoUpdated, events), HandlerScript(pt, OperatorUsdValues, events), HandlerScript(pt, OperatorUsdDeletion, events);
      ghost var s3, s4 := HandlerScript(pt, AvsUsdValues, events), HandlerScript(pt, AvsUsdDeletion, events);
      ghost var full, j0 := CommonScript(pt, events), db.Snapshot();
      ThenDone(s4);
      ghost var done := Begin(Apply, full, j0);
      ghost var mid, m;
      mid := db.Snapshot();
      r, m := HandleEvents(OptInfoUpdated, events);
      done, n := Advance(Apply, full, done, s0, Then(s1, Then(s2, Then(s3, s4))), r, m, j0, mid, db.Snapshot());
      if r.Fail? {
        return;
      }
      mid := db.Snapshot();
      r, m := HandleEvents(OperatorUsdValues, events);
      done, n := Advance(Apply, full, done, s1, Then(s2, Then(s3, s4)), r, m, j0, mid, db.Snapshot());
      if r.Fail? {
        return;
      }
      mid := db.Snapshot();
      r, m := HandleEvents(OperatorUsdDeletion, events);
      done, n := Advance(Apply, full, done, s2, Then(s3, s4), r, m, j0, mid, db.Snapshot());
      if r.Fail? {
        return;
      }
      mid := db.Snapshot();
      r, m := HandleEvents(AvsUsdValues, events);
      done, n := Advance(Apply, full, done, s3, s4, r, m, j0, mid, db.Snapshot());
      if r.Fail? {
        return;
      }
      mid := db.Snapshot();
      r, m := HandleEvents(AvsUsdDeletion, events);
      done, n := Advance(Apply, full, done, s4, Done(), r, m, j0, mid, db.Snapshot());
      if r.Fail? {
        return;
      }
      n := Finish(Apply, full, done, j0, db.Snapshot());
    }

    /** modules/operator/handle_tx.go `HandleTx`. */
    method HandleTx(events: seq<Event>) returns (r: Outcome, ghost n: nat)
      modifies db
      ensures Performed(TxScript(db.parseTime, events), r, n)
      ensures db.Snapshot() == ApplyAll(Apply, old(db.Snapshot()), TxScript(db.parseTime, events).writes[..n])
    {
      var pt := db.parseTime;
      ghost var s0, s1, s2 := HandlerScript(pt, Registration, events), HandlerScript(pt, OptIn, events), HandlerScript(pt, SetConsKey, events);
      ghost var s3, s4, s5 := HandlerScript(pt, SetPrevKey, events), CommonScript(pt, events), HandlerScript(pt, InitKeyRemoval, events);
      ghost var full, j0 := TxScript(pt, events), db.Snapshot();
      ThenDone(s5);
      ghost var done := Begin(Apply, full, j0);
      ghost var mid, m;
      mid := db.Snapshot();
      r, m := HandleEvents(Registration, events);
      done, n := Advance(Apply, full, done, s0, Then(s1, Then(s2, Then(s3, Then(s4, s5)))), r, m, j0, mid, db.Snapshot());
      if r.Fail? {
        return;
      }
      mid := db.Snapshot();
      r, m := HandleEvents(OptIn, events);
      done, n := Advance(Apply, full, done, s1, Then(s2, Then(s3, Then(s4, s5))), r, m, j0, mid, db.Snapshot());
      if r.Fail? {
        return;
      }
      mid := db.Snapshot();
      r, m := HandleEvents(SetConsKey, events);
      done, n := Advance(Apply, full, done, s2, Then(s3, Then(s4, s5)), r, m, j0, mid, db.Snapshot());
      if r.Fail? {
        return;
      }
      mid := db.Snapshot();
      r, m := HandleEvents(SetPrevKey, events);
      done, n := Advance(Apply, full, done, s3, Then(s4, s5), r, m, j0, mid, db.Snapshot());
      if r.Fail? {
        return;
      }
      mid := db.Snapshot();
      r, m := HandleCommon(events);
      done, n := Advance(Apply, full, done, s4, s5, r, m, j0, mid, db.Snapshot());
      if r.Fail? {
        return;
      }
      mid := db.Snapshot();
      r, m := HandleEvents(InitKeyRemoval, events);
      done, n := Advance(Apply, full, done, s5, Done(), r, m, j0, mid, db.Snapshot());
      if r.Fail? {
        return;
      }
      n := Finish(Apply, full, done, j0, db.Snapshot());
    }

    /** modules/operator/handle_block.go `HandleBlock`. */
    method HandleBlock(block: Block) returns (r: Outcome, ghost n: nat)
      modifies db
      ensures Performed(BlockScript(db.parseTime, block), r, n)
      ensures db.Snapshot() == ApplyAll(Apply, old(db.Snapshot()), BlockScript(db.parseTime, block).writes[..n])
    {
      var pt := db.parseTime;
      ghost var s0 := CommonScript(pt, block.beginBlockEvents);
      ghost var s1, s2 := HandlerScript(pt, CompleteKeyRemoval, block.endBlockEvents), HandlerScript(pt, ClearPrevKey, block.endBlockEvents);
      ghost var full, j0 := BlockScript(pt, block), db.Snapshot();
      ThenDone(s2);
      ghost var done := Begin(Apply, full, j0);
      ghost var mid, m;
      mid := db.Snapshot();
      r, m := HandleCommon(block.beginBlockEvents);
      done, n := Advance(Apply, full, done, s0, Then(s1, s2), r, m, j0, mid, db.Snapshot());
      if r.Fail? {
        return;
      }
      mid := db.Snapshot();
      r, m := HandleEvents(CompleteKeyRemoval, block.endBlockEvents);
      done, n := Advance(Apply, full, done, s1, s2, r, m, j0, mid, db.Snapshot());
      if r.Fail? {
        return;
      }
      mid := db.Snapshot();
      r, m := HandleEvents(ClearPrevKey, block.endBlockEvents);
      done, n := Advance(Apply, full, done, s2, Done(), r, m, j0, mid, db.Snapshot());
      if r.Fail? {
        return;
      }
      n := Finish(Apply, full, done, j0, db.Snapshot());
    }

    lemma ChainKeyBodyPlain(operatorAddr: string)
      ensures forall d :: Plain(ChainKeyBody(wrapKey, operatorAddr)(d))
    {
      forall d: ChainDetail
        ensures Plain(ChainKeyBody(wrapKey, operatorAddr)(d))
      {
        if wrapKey(d.consensusKey).Some? {
          var k := wrapKey(d.consensusKey).value;
          assert ChainKeyBody(wrapKey, operatorAddr)(d) == Single(UpsertConsKey(operatorAddr, d.chainId, d.consensusKey, k.consAddrHex));
        }
      }
    }

    lemma GenesisBodiesPlain()
      ensures forall x :: Plain(OperatorBody(db.parseTime)(x))
      ensures forall x :: Plain(OptStateBody(parseKey)(x))
      ensures forall x :: Plain(UsdStateBody(parseKey)(x))
      ensures forall x :: Plain(AvsStateBody()(x))
      ensures forall x :: Plain(PrevKeyBody(parseKey, wrapKey)(x))
      ensures forall x :: Plain(RemovalBody(parseKey)(x))
    {
      forall x: OptState
        ensures Plain(OptStateBody(parseKey)(x))
      {
        if parseKey(x.key).Some? {
          var p := parseKey(x.key).value;
          assert OptStateBody(parseKey)(x) == Single(UpsertOpted(NewOpted(p.0, p.1, x.optInfo)));
        }
      }
      forall x: OperatorUsdState
        ensures Plain(UsdStateBody(parseKey)(x))
      {
        if parseKey(x.key).Some? {
          var p := parseKey(x.key).value;
          assert UsdStateBody(parseKey)(x) == Single(UpsertOperatorUsd(NewOperatorUSDValue(p.1, p.0, x.optedUSDValue)));
        }
      }
      forall x: PrevConsKey
        ensures Plain(PrevKeyBody(parseKey, wrapKey)(x))
      {
        if parseKey(x.key).Some? && wrapKey(x.consensusKey).Some? {
          var q, k := parseKey(x.key).value, wrapKey(x.consensusKey).value;
          assert PrevKeyBody(parseKey, wrapKey)(x) == Single(SetPrevConsKey(q.0, q.1, k.hex, k.consAddrString));
        }
      }
      forall x: KeyRemoval
        ensures Plain(RemovalBody(parseKey)(x))
      {
        if parseKey(x.key).Some? {
          var q := parseKey(x.key).value;
          assert RemovalBody(parseKey)(x) == Single(MarkKeyRemoval(q.1, q.0));
        }
      }
    }

    /** The consensus keys of the operator records: a loop over the records around a
        loop over each record's chains. */
    method SaveRecordKeys(records: seq<OperatorRecord>) returns (r: Outcome, ghost n: nat)
      modifies db
      ensures Performed(Loop(RecordBody(wrapKey), records), r, n)
      ensures db.Snapshot() == ApplyAll(Apply, old(db.Snapshot()), Loop(RecordBody(wrapKey), records).writes[..n])
    {
      ghost var full, j0 := Loop(RecordBody(wrapKey), records), db.Snapshot();
      ghost var done := Begin(Apply, full, j0);
      var i := 0;
      while i < |records|
        invariant i <= |records| && done.stop.None? && db.Snapshot() == ApplyAll(Apply, j0, done.writes)
        invariant full == Then(done, Loop(RecordBody(wrapKey), records[i..]))
      {
        LoopStep(RecordBody(wrapKey), records, i);
        var body := ChainKeyBody(wrapKey, records[i].operatorAddress);
        ChainKeyBodyPlain(records[i].operatorAddress);
        ghost var mid := db.Snapshot();
        ghost var m;
        r, m := SendEach(body, records[i].chains);
        done, n := Advance(Apply, full, done, RecordBody(wrapKey)(records[i]), Loop(RecordBody(wrapKey), records[i + 1..]), r, m, j0, mid, db.Snapshot());
        if r.Fail? {
          return;
        }
        i := i + 1;
      }
      assert records[i..] == [];
      n := Finish(Apply, full, done, j0, db.Snapshot());
      r := Pass;
    }

    /** modules/operator/handle_genesis.go `HandleGenesis`; `decoded` is the module's
        genesis state, or `None` when it does not decode. */
    method HandleGenesis(decoded: Option<GenesisState>) returns (r: Outcome, ghost n: nat)
      modifies db
      ensures Performed(GenesisScript(db.parseTime, wrapKey, parseKey, decoded), r, n)
      ensures db.Snapshot() == ApplyAll(Apply, old(db.Snapshot()), GenesisScript(db.parseTime, wrapKey, parseKey, decoded).writes[..n])
    {
      if decoded.None? {
        return Fail(DecodeError), 0;
      }
      var g := decoded.value;
      var pt := db.parseTime;
      ghost var s0, s1 := Loop(OperatorBody(pt), g.operators), Loop(RecordBody(wrapKey), g.operatorRecords);
      ghost var s2, s3 := Loop(OptStateBody(parseKey), g.optStates), Loop(UsdStateBody(parseKey), g.operatorUSDValues);
      ghost var s4, s5 := Loop(AvsStateBody(), g.avsUSDValues), Loop(PrevKeyBody(parseKey, wrapKey), g.preConsKeys);
      ghost var s6 := Loop(RemovalBody(parseKey), g.operatorKeyRemovals);
      ghost var full, j0 := GenesisScript(pt, wrapKey, parseKey, decoded), db.Snapshot();
      GenesisBodiesPlain();
      ThenDone(s6);
      ghost var done := Begin(Apply, full, j0);
      ghost var mid, m;
      mid := db.Snapshot();
      r, m := SendEach(OperatorBody(pt), g.operators);
      done, n := Advance(Apply, full, done, s0, Then(s1, Then(s2, Then(s3, Then(s4, Then(s5, s6))))), r, m, j0, mid, db.Snapshot());
      if r.Fail? {
        return;
      }
      mid := db.Snapshot();
      r, m := SaveRecordKeys(g.operatorRecords);
      done, n := Advance(Apply, full, done, s1, Then(s2, Then(s3, Then(s4, Then(s5, s6)))), r, m, j0, mid, db.Snapshot());
      if r.Fail? {
        return;
      }
      mid := db.Snapshot();
      r, m := SendEach(OptStateBody(parseKey), g.optStates);
      done, n := Advance(Apply, full, done, s2, Then(s3, Then(s4, Then(s5, s6))), r, m, j0, mid, db.Snapshot());
      if r.Fail? {
        return;
      }
      mid := db.Snapshot();
      r, m := SendEach(UsdStateBody(parseKey), g.operatorUSDValues);
      done, n := Advance(Apply, full, done, s3, Then(s4, Then(s5, s6)), r, m, j0, mid, db.Snapshot());
      if r.Fail? {
        return;
      }
      mid := db.Snapshot();
      r, m := SendEach(AvsStateBody(), g.avsUSDValues);
      done, n := Advance(Apply, full, done, s4, Then(s5, s6), r, m, j0, mid, db.Snapshot());
      if r.Fail? {
        return;
      }
      mid := db.Snapshot();
      r, m := SendEach(PrevKeyBody(parseKey, wrapKey), g.preConsKeys);
      done, n := Advance(Apply, full, done, s5, s6, r, m, j0, mid, db.Snapshot());
      if r.Fail? {
        return;
      }
      mid := db.Snapshot();
      r, m := SendEach(RemovalBody(parseKey), g.operatorKeyRemovals);
      done, n := Advance(Apply, full, done, s6, Done(), r, m, j0, mid, db.Snapshot());
      if r.Fail? {
        return;
      }
      n := Finish(Apply, full, done, j0, db.Snapshot());
    }
  }
}
