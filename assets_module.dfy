// modules/assets: what transactions, blocks and the genesis state write about client
// chains, tokens, and the assets of stakers and operators.

module AssetsModule {
  import opened Wrappers
  import opened Events
  import opened Replay
  import opened Decimal
  import opened AssetsTypes
  import opened AssetsDb

  const EventTypeNewClientChain := "assetstypes.EventTypeNewClientChain"
  const EventTypeUpdatedClientChain := "assetstypes.EventTypeUpdatedClientChain"
  const EventTypeNewToken := "assetstypes.EventTypeNewToken"
  const EventTypeUpdatedToken := "assetstypes.EventTypeUpdatedToken"
  const EventTypeUpdatedStakingTotalAmount := "assetstypes.EventTypeUpdatedStakingTotalAmount"
  const EventTypeUpdatedStakerAsset := "assetstypes.EventTypeUpdatedStakerAsset"
  const EventTypeUpdatedOperatorAsset := "assetstypes.EventTypeUpdatedOperatorAsset"

  const AttributeKeyName := "assetstypes.AttributeKeyName"
  const AttributeKeyMetaInfo := "assetstypes.AttributeKeyMetaInfo"
  const AttributeKeyChainID := "assetstypes.AttributeKeyChainID"
  const AttributeKeyExocoreChainIdx := "assetstypes.AttributeKeyExocoreChainIdx"
  const AttributeKeyFinalizationBlocks := "assetstypes.AttributeKeyFinalizationBlocks"
  const AttributeKeyLZID := "assetstypes.AttributeKeyLZID"
  const AttributeKeySigType := "assetstypes.AttributeKeySigType"
  const AttributeKeyAddrLength := "assetstypes.AttributeKeyAddrLength"
  const AttributeKeyAssetID := "assetstypes.AttributeKeyAssetID"
  const AttributeKeySymbol := "assetstypes.AttributeKeySymbol"
  const AttributeKeyAddress := "assetstypes.AttributeKeyAddress"
  const AttributeKeyDecimals := "assetstypes.AttributeKeyDecimals"
  const AttributeKeyTotalAmount := "assetstypes.AttributeKeyTotalAmount"
  const AttributeKeyStakerID := "assetstypes.AttributeKeyStakerID"
  const AttributeKeyDepositAmount := "assetstypes.AttributeKeyDepositAmount"
  const AttributeKeyWithdrawableAmount := "assetstypes.AttributeKeyWithdrawableAmount"
  const AttributeKeyPendingUndelegationAmount := "assetstypes.AttributeKeyPendingUndelegationAmount"
  const AttributeKeyOperatorAddress := "assetstypes.AttributeKeyOperatorAddress"
  const AttributeKeyTotalShare := "assetstypes.AttributeKeyTotalShare"
  const AttributeKeyOperatorShare := "assetstypes.AttributeKeyOperatorShare"

  // ---------------------------------------------------------------------------------
  // Event handlers. Each loops over the events of one type, reads its attributes in a
  // fixed order (the first missing one is returned as the error) and calls one store
  // function.

  datatype Handler =
    | NewChains             // handleClientChainEventsByType(events, EventTypeNewClientChain)
    | UpdatedChains         // handleClientChainEventsByType(events, EventTypeUpdatedClientChain)
    | NewToken              // handleNewTokenEvents
    | UpdatedToken          // handleUpdateTokenEvents
    | StakingTotal          // handleUpdateStakingTotalAmount
    | StakerAssets          // handleStakerEvents
    | OperatorAssets        // handleOperatorEvents

  function EventType(h: Handler): string
  {
    match h
    case NewChains => EventTypeNewClientChain
    case UpdatedChains => EventTypeUpdatedClientChain
    case NewToken => EventTypeNewToken
    case UpdatedToken => EventTypeUpdatedToken
    case StakingTotal => EventTypeUpdatedStakingTotalAmount
    case StakerAssets => EventTypeUpdatedStakerAsset
    case OperatorAssets => EventTypeUpdatedOperatorAsset
  }

  const ClientChainKeys := [AttributeKeyName, AttributeKeyMetaInfo, AttributeKeyChainID, AttributeKeyExocoreChainIdx,
                            AttributeKeyFinalizationBlocks, AttributeKeyLZID, AttributeKeySigType, AttributeKeyAddrLength]

  /** The attributes each handler reads, in the order it reads them. */
  function Keys(h: Handler): seq<string>
  {
    match h
    case NewChains => ClientChainKeys
    case UpdatedChains => ClientChainKeys
    case NewToken => [AttributeKeyAssetID, AttributeKeyName, AttributeKeySymbol, AttributeKeyAddress, AttributeKeyDecimals,
                      AttributeKeyLZID, AttributeKeyMetaInfo, AttributeKeyExocoreChainIdx, AttributeKeyTotalAmount]
    case UpdatedToken => [AttributeKeyAssetID, AttributeKeyMetaInfo]
    case StakingTotal => [AttributeKeyTotalAmount, AttributeKeyAssetID]
    case StakerAssets => [AttributeKeyStakerID, AttributeKeyAssetID, AttributeKeyDepositAmount,
                          AttributeKeyWithdrawableAmount, AttributeKeyPendingUndelegationAmount]
    case OperatorAssets => [AttributeKeyOperatorAddress, AttributeKeyAssetID, AttributeKeyTotalAmount,
                            AttributeKeyPendingUndelegationAmount, AttributeKeyTotalShare, AttributeKeyOperatorShare]
  }

  /** The statement a handler sends for the attribute values `v` of one event. The
      new-token handler passes its values positionally as handle_tx.go:140-143 does,
      metadata into the exocore-index parameter and the exocore index into the
      metadata parameter. */
  function Body(h: Handler, v: seq<string>): Write
    requires |v| == |Keys(h)|
  {
    match h
    case NewChains => InsertClientChain(NewClientChainFromStr(v[0], v[1], v[2], v[3], v[4], v[5], v[6], v[7]))
    case UpdatedChains => InsertClientChain(NewClientChainFromStr(v[0], v[1], v[2], v[3], v[4], v[5], v[6], v[7]))
    case NewToken => External(SaveAssetsToken(NewAssetsTokenFromStr(v[0], v[1], v[2], v[3], v[4], v[5], v[6], v[7], v[8])))
    case UpdatedToken => External(UpdateAssetMetadataById(v[0], v[1]))
    case StakingTotal => External(UpdateStakingTotalAmount(v[1], v[0]))
    case StakerAssets => External(SaveStakerAssetOf(NewStakerAssetFromStr(v[0], v[1], v[2], v[3], v[4], "")))
    case OperatorAssets => External(SaveOperatorAssetOf(NewOperatorAssetFromStr(v[0], v[1], v[2], v[3], v[4], v[5])))
  }

  function EventBody(h: Handler): Event -> Script<Write>
  {
    (e: Event) =>
      match Lookup(e, Keys(h))
      case Err(err) => Stop(err)
      case Ok(v) => Single(Body(h, v))
  }

  /** The handler's `for _, event := range events` over the events already selected. */
  function HandlerLoop(h: Handler, evs: seq<Event>): Script<Write>
  {
    Loop(EventBody(h), evs)
  }

  /** A handler: select the events of its type, then loop over them. */
  function HandlerScript(h: Handler, events: seq<Event>): Script<Write>
  {
    HandlerLoop(h, FindEventsByType(events, EventType(h)))
  }

  /** `handleClientChainEvents`: new chains, then updated chains. */
  function ClientChainScript(events: seq<Event>): Script<Write>
  {
    Then(HandlerScript(NewChains, events), HandlerScript(UpdatedChains, events))
  }

  /** `handleStakerEvents` then `handleOperatorEvents`, on the same events. */
  function AssetStatesScript(events: seq<Event>): Script<Write>
  {
    Then(HandlerScript(StakerAssets, events), HandlerScript(OperatorAssets, events))
  }

  /** `HandleTx`: client chains, new tokens, token updates, staking totals, then the
      staker and operator assets. */
  function TxScript(events: seq<Event>): Script<Write>
  {
    Then(ClientChainScript(events),
    Then(HandlerScript(NewToken, events),
    Then(HandlerScript(UpdatedToken, events),
    Then(HandlerScript(StakingTotal, events),
         AssetStatesScript(events)))))
  }

  /** `HandleBlock`: the staker and operator assets of the EndBlock events. */
  function BlockScript(block: Block): Script<Write>
  {
    AssetStatesScript(block.endBlockEvents)
  }

  // ---------------------------------------------------------------------------------
  // Genesis

  datatype DepositByAsset = DepositByAsset(assetId: string, info: StakerAssetInfo)
  datatype DepositsByStaker = DepositsByStaker(stakerId: string, deposits: seq<DepositByAsset>)
  datatype AssetByOperator = AssetByOperator(assetId: string, info: OperatorAssetInfo)
  datatype AssetsByOperator = AssetsByOperator(operator: string, assetsState: seq<AssetByOperator>)

  /** The parts of x/assets `GenesisState` the handler reads; `params` is the JSON
      encoding of the parameters (`None` when they do not marshal). */
  datatype GenesisState = GenesisState(
    params: Option<string>,
    clientChains: seq<ClientChainInfo>,
    tokens: seq<StakingAssetInfo>,
    deposits: seq<DepositsByStaker>,
    operatorAssets: seq<AssetsByOperator>)

  /** `SaveAssetsParams`: parameters that do not marshal are an error before any
      statement. */
  function ParamsScript(p: AssetsParams): Script<Write>
  {
    if p.params.None? then Stop(EncodeError) else Single(UpsertParams(p.params.value, p.height))
  }

  function ChainBody(): ClientChainInfo -> Script<Write>
  {
    (c: ClientChainInfo) => Single(InsertClientChain(NewClientChain(c)))
  }

  function TokenBody(assetIdOf: AssetIdOf): StakingAssetInfo -> Script<Write>
  {
    (t: StakingAssetInfo) => Single(External(SaveAssetsToken(NewAssetsToken(assetIdOf, t))))
  }

  /** One deposit of a staker. `NewStakerAssetFromInfo` is called with three
      arguments at handle_genesis.go:64-66; the missing slashed amount is taken as "",
      no slashing. */
  function DepositBody(stakerId: string): DepositByAsset -> Script<Write>
  {
    (d: DepositByAsset) => Single(External(SaveStakerAssetOf(NewStakerAssetFromInfo(stakerId, d.assetId, d.info, ""))))
  }

  function StakerBody(): DepositsByStaker -> Script<Write>
  {
    (s: DepositsByStaker) => Loop(DepositBody(s.stakerId), s.deposits)
  }

  function OperatorAssetBody(operator: string): AssetByOperator -> Script<Write>
  {
    (a: AssetByOperator) => Single(External(SaveOperatorAssetOf(NewOperatorAssetFromInfo(operator, a.assetId, a.info))))
  }

  function OperatorBody(): AssetsByOperator -> Script<Write>
  {
    (o: AssetsByOperator) => Loop(OperatorAssetBody(o.operator), o.assetsState)
  }

  /** `HandleGenesis`: nothing is written when the state does not decode; otherwise the
      parameters at the initial height, client chains, tokens, deposits and operator
      assets, in that order, the first error ending the load. */
  function GenesisScript(assetIdOf: AssetIdOf, decoded: Option<GenesisState>, initialHeight: int): Script<Write>
  {
    match decoded
    case None => Stop(DecodeError)
    case Some(g) =>
      Then(ParamsScript(NewAssetsParams(g.params, initialHeight)),
      Then(Loop(ChainBody(), g.clientChains),
      Then(Loop(TokenBody(assetIdOf), g.tokens),
      Then(Loop(StakerBody(), g.deposits),
           Loop(OperatorBody(), g.operatorAssets)))))
  }

  // ---------------------------------------------------------------------------------
  // Properties of the event handlers

  /** The value of attribute `key` of the event ("" when the event lacks it; the
      lemmas below only read attributes the event carries). */
  function Attr(e: Event, key: string): string
  {
    match FindAttributeByKey(e, key)
    case Ok(v) => v
    case Err(_) => ""
  }

  /** The event carries every attribute handler `h` reads. */
  predicate Carries(e: Event, h: Handler)
  {
    forall k :: k in Keys(h) ==> HasKey(e.attributes, k)
  }

  /** An event carrying the attributes is handled by `Body` on their values. */
  lemma Decoded(h: Handler, e: Event) returns (v: seq<string>)
    requires Carries(e, h)
    ensures |v| == |Keys(h)| && forall i :: 0 <= i < |v| ==> HasKey(e.attributes, Keys(h)[i]) && v[i] == Attr(e, Keys(h)[i])
    ensures EventBody(h)(e) == Single(Body(h, v))
  {
    v := Lookup(e, Keys(h)).value;
  }

  /** Every handler body sends one statement or returns an error, and it sends its
      statement exactly when the event carries all the attributes. */
  lemma EventBodyOneOrStop(h: Handler)
    ensures forall e :: OneOrStop(EventBody(h)(e))
    ensures forall e :: EventBody(h)(e).stop.None? <==> Carries(e, h)
  {
    forall e
      ensures OneOrStop(EventBody(h)(e)) && (EventBody(h)(e).stop.None? <==> Carries(e, h))
    {
      var x := Lookup(e, Keys(h));
      if x.Ok? {
        assert EventBody(h)(e) == Single(Body(h, x.value));
      } else {
        assert EventBody(h)(e) == Stop(x.error);
      }
    }
  }

  /** An event missing an attribute stops its handler with the first missing key, in
      the order the handler reads them. */
  lemma MissingAttributeStops(h: Handler, e: Event)
    requires !Carries(e, h)
    ensures exists i :: 0 <= i < |Keys(h)| && !HasKey(e.attributes, Keys(h)[i])
                     && (forall j :: 0 <= j < i ==> HasKey(e.attributes, Keys(h)[j]))
                     && EventBody(h)(e) == Stop(MissingAttribute(Keys(h)[i]))
  {
    var x := Lookup(e, Keys(h));
    assert EventBody(h)(e) == Stop(x.error);
  }

  /** A handler's loop sends one statement per event, in order, up to the first event
      lacking an attribute; it returns that event's missing attribute, or nil when
      there is none: it fails exactly when one of its events lacks an attribute. */
  lemma HandlerLoopShape(h: Handler, evs: seq<Event>)
    ensures var s, k := HandlerLoop(h, evs), FirstStop(EventBody(h), evs);
      && |s.writes| == k
      && (forall i :: 0 <= i < k ==> Carries(evs[i], h) && EventBody(h)(evs[i]) == Single(s.writes[i]))
      && (k < |evs| ==> !Carries(evs[k], h) && s.stop == EventBody(h)(evs[k]).stop)
      && (k == |evs| ==> s.stop.None?)
    ensures HandlerLoop(h, evs).stop.None? <==> forall i :: 0 <= i < |evs| ==> Carries(evs[i], h)
  {
    EventBodyOneOrStop(h);
    LoopSingles(EventBody(h), evs);
  }

  /** Client-chain events: the eight attributes, in the order of `NewClientChainFromStr`,
      make the chain that is saved. New and updated chains are handled alike. */
  lemma ClientChainEventSaved(e: Event)
    requires Carries(e, NewChains)
    ensures EventBody(NewChains)(e) == EventBody(UpdatedChains)(e)
    ensures EventBody(NewChains)(e)
         == Single(InsertClientChain(ClientChain(Attr(e, AttributeKeyName), Attr(e, AttributeKeyMetaInfo), Attr(e, AttributeKeyChainID),
                                                 Attr(e, AttributeKeyExocoreChainIdx), Attr(e, AttributeKeyFinalizationBlocks),
                                                 Attr(e, AttributeKeyLZID), Attr(e, AttributeKeySigType), Attr(e, AttributeKeyAddrLength))))
  {
    var v := Decoded(NewChains, e);
  }

  /** New-token events: the token carries the metadata attribute as its exocore chain
      index and the exocore-index attribute as its metadata; the other fields are the
      attributes of the same name. */
  lemma NewTokenSwapsMetaAndIndex(e: Event)
    requires Carries(e, NewToken)
    ensures var s := EventBody(NewToken)(e);
      && s.stop.None? && |s.writes| == 1 && s.writes[0].External? && s.writes[0].call.SaveAssetsToken?
      && var t := s.writes[0].call.token;
      && t.exocoreChainIndex == Attr(e, AttributeKeyMetaInfo) && t.metaInfo == Attr(e, AttributeKeyExocoreChainIdx)
      && t.assetId == Attr(e, AttributeKeyAssetID) && t.name == Attr(e, AttributeKeyName) && t.symbol == Attr(e, AttributeKeySymbol)
      && t.address == Attr(e, AttributeKeyAddress) && t.decimals == Attr(e, AttributeKeyDecimals)
      && t.layerZeroChainId == Attr(e, AttributeKeyLZID) && t.amount == Attr(e, AttributeKeyTotalAmount)
  {
    var v := Decoded(NewToken, e);
  }

  /** Token-updated events change the metadata of the event's asset id and nothing
      else. */
  lemma UpdatedTokenMetadataOnly(e: Event)
    requires Carries(e, UpdatedToken)
    ensures EventBody(UpdatedToken)(e) == Single(External(UpdateAssetMetadataById(Attr(e, AttributeKeyAssetID), Attr(e, AttributeKeyMetaInfo))))
  {
    var v := Decoded(UpdatedToken, e);
  }

  /** Staking-total events read the amount before the asset id, so an event lacking
      both reports the amount; the call takes the asset id first. */
  lemma StakingTotalReadsAmountFirst(e: Event)
    ensures !HasKey(e.attributes, AttributeKeyTotalAmount) ==> EventBody(StakingTotal)(e) == Stop(MissingAttribute(AttributeKeyTotalAmount))
    ensures Carries(e, StakingTotal) ==>
      EventBody(StakingTotal)(e) == Single(External(UpdateStakingTotalAmount(Attr(e, AttributeKeyAssetID), Attr(e, AttributeKeyTotalAmount))))
  {
    if Carries(e, StakingTotal) {
      var v := Decoded(StakingTotal, e);
    }
  }

  /** Staker-asset events pass "" as the additional slashed amount: no slashing. */
  lemma StakerEventNoSlashing(e: Event)
    requires Carries(e, StakerAssets)
    ensures EventBody(StakerAssets)(e)
         == Single(External(SaveStakerAssetOf(StakerAsset(Attr(e, AttributeKeyStakerID), Attr(e, AttributeKeyAssetID),
                                                          Attr(e, AttributeKeyDepositAmount), Attr(e, AttributeKeyWithdrawableAmount),
                                                          Attr(e, AttributeKeyPendingUndelegationAmount), ""))))
  {
    var v := Decoded(StakerAssets, e);
  }

  /** Operator-asset events: the operator-share attribute becomes the self share and
      the total-share attribute the total share. */
  lemma OperatorEventSelfShare(e: Event)
    requires Carries(e, OperatorAssets)
    ensures EventBody(OperatorAssets)(e)
         == Single(External(SaveOperatorAssetOf(OperatorAsset(Attr(e, AttributeKeyOperatorAddress), Attr(e, AttributeKeyAssetID),
                                                              Attr(e, AttributeKeyTotalAmount), Attr(e, AttributeKeyPendingUndelegationAmount),
                                                              Attr(e, AttributeKeyTotalShare), Attr(e, AttributeKeyOperatorShare)))))
  {
    var v := Decoded(OperatorAssets, e);
  }

  /** The event types only the transaction path handles. */
  predicate TxOnlyType(ty: string)
  {
    || ty == EventTypeNewClientChain || ty == EventTypeUpdatedClientChain || ty == EventTypeNewToken
    || ty == EventTypeUpdatedToken || ty == EventTypeUpdatedStakingTotalAmount
  }

  /** A transaction-only handler sends nothing, and succeeds, on events of none of
      the transaction-only types. */
  lemma HandlerNone(h: Handler, events: seq<Event>)
    requires !h.StakerAssets? && !h.OperatorAssets?
    requires forall i :: 0 <= i < |events| ==> !TxOnlyType(events[i].ty)
    ensures HandlerScript(h, events) == Done()
  {
    forall i | 0 <= i < |events|
      ensures events[i].ty != EventType(h)
    {
      assert !TxOnlyType(events[i].ty);
    }
    FindEventsByTypeNone(events, EventType(h));
  }

  /** Nothing sent before a step leaves the step as it is. */
  lemma DoneThen(tail: Script<Write>)
    ensures Then(Done(), tail) == tail
  {
    assert [] + tail.writes == tail.writes;
  }

  /** The block path reads only the EndBlock events. */
  lemma BlockIgnoresBegin(block: Block)
    ensures BlockScript(block) == BlockScript(Block(block.height, [], block.endBlockEvents))
  {
  }

  /** The block path runs the staker and operator handlers of the transaction path on
      the EndBlock events: a transaction with the same events and none of the
      transaction-only types sends exactly what the block sends. */
  lemma BlockIsTxTail(events: seq<Event>, block: Block)
    requires block.endBlockEvents == events
    requires forall i :: 0 <= i < |events| ==> !TxOnlyType(events[i].ty)
    ensures TxScript(events) == BlockScript(block)
  {
    HandlerNone(NewChains, events);
    HandlerNone(UpdatedChains, events);
    HandlerNone(NewToken, events);
    HandlerNone(UpdatedToken, events);
    HandlerNone(StakingTotal, events);
    var tail := AssetStatesScript(events);
    DoneThen(tail);
    DoneThen(Then(Done(), tail));
    DoneThen(Then(Done(), Then(Done(), tail)));
    DoneThen(Done());
    DoneThen(Then(Done(), Then(Done(), Then(Done(), tail))));
  }

  /** Staker events that fail stop the block before any operator event: it then sent
      only staker-asset saves. */
  lemma StakerErrorSkipsOperators(block: Block)
    requires HandlerScript(StakerAssets, block.endBlockEvents).stop.Some?
    ensures BlockScript(block) == HandlerScript(StakerAssets, block.endBlockEvents)
    ensures AllWrites(BlockScript(block), IsStakerAssetCall)
  {
    forall e
      ensures AllWrites(EventBody(StakerAssets)(e), IsStakerAssetCall)
    {
      StakerEventSends(e);
    }
    LoopAllWrites(EventBody(StakerAssets), FindEventsByType(block.endBlockEvents, EventTypeUpdatedStakerAsset), IsStakerAssetCall);
  }

  /** A recorded `SaveStakerAsset` call. */
  predicate IsStakerAssetCall(w: Write)
  {
    w.External? && w.call.SaveStakerAssetOf?
  }

  /** A staker-asset event sends only a recorded `SaveStakerAsset` call. */
  lemma StakerEventSends(e: Event)
    ensures AllWrites(EventBody(StakerAssets)(e), IsStakerAssetCall)
  {
    var x := Lookup(e, Keys(StakerAssets));
    if x.Ok? {
      assert EventBody(StakerAssets)(e) == Single(Body(StakerAssets, x.value));
    }
  }

  /** What a handler sends: client chains for the chain handlers, recorded calls for
      all the others. */
  lemma BodySends(h: Handler, v: seq<string>)
    requires |v| == |Keys(h)|
    ensures ChainOrCall(Body(h, v)) && (!h.NewChains? && !h.UpdatedChains? ==> Body(h, v).External?)
  {
  }

  /** A recorded call to a store function. */
  predicate IsCall(w: Write)
  {
    w.External?
  }

  /** What one event's body sends: a client chain or a recorded call, and a recorded
      call for all but the chain handlers. */
  lemma EventSends(h: Handler, e: Event)
    ensures AllWrites(EventBody(h)(e), ChainOrCall)
    ensures !h.NewChains? && !h.UpdatedChains? ==> AllWrites(EventBody(h)(e), IsCall)
  {
    var x := Lookup(e, Keys(h));
    if x.Ok? {
      BodySends(h, x.value);
    }
  }

  /** What a handler sends over a whole batch: client chains or recorded calls, and
      recorded calls only for all but the chain handlers. */
  lemma HandlerSendsChainsOrCalls(h: Handler, events: seq<Event>)
    ensures AllWrites(HandlerScript(h, events), ChainOrCall)
    ensures !h.NewChains? && !h.UpdatedChains? ==> AllWrites(HandlerScript(h, events), IsCall)
  {
    var evs := FindEventsByType(events, EventType(h));
    forall e
      ensures AllWrites(EventBody(h)(e), ChainOrCall)
      ensures !h.NewChains? && !h.UpdatedChains? ==> AllWrites(EventBody(h)(e), IsCall)
    {
      EventSends(h, e);
    }
    LoopAllWrites(EventBody(h), evs, ChainOrCall);
    if !h.NewChains? && !h.UpdatedChains? {
      LoopAllWrites(EventBody(h), evs, IsCall);
    }
  }

  /** A transaction sends client chains and recorded calls only. */
  lemma TxSendsChainsOrCalls(events: seq<Event>)
    ensures AllWrites(TxScript(events), ChainOrCall)
  {
    var e := events;
    HandlerSendsChainsOrCalls(NewChains, e);
    HandlerSendsChainsOrCalls(UpdatedChains, e);
    HandlerSendsChainsOrCalls(NewToken, e);
    HandlerSendsChainsOrCalls(UpdatedToken, e);
    HandlerSendsChainsOrCalls(StakingTotal, e);
    HandlerSendsChainsOrCalls(StakerAssets, e);
    HandlerSendsChainsOrCalls(OperatorAssets, e);
    var tail := AssetStatesScript(e);
    ThenAllWrites(HandlerScript(StakerAssets, e), HandlerScript(OperatorAssets, e), ChainOrCall);
    var t1 := Then(HandlerScript(StakingTotal, e), tail);
    ThenAllWrites(HandlerScript(StakingTotal, e), tail, ChainOrCall);
    var t2 := Then(HandlerScript(UpdatedToken, e), t1);
    ThenAllWrites(HandlerScript(UpdatedToken, e), t1, ChainOrCall);
    var t3 := Then(HandlerScript(NewToken, e), t2);
    ThenAllWrites(HandlerScript(NewToken, e), t2, ChainOrCall);
    ThenAllWrites(HandlerScript(NewChains, e), HandlerScript(UpdatedChains, e), ChainOrCall);
    ThenAllWrites(ClientChainScript(e), t3, ChainOrCall);
  }

  /** A block sends recorded calls only. */
  lemma BlockSendsCalls(block: Block)
    ensures AllWrites(BlockScript(block), IsCall)
  {
    var b := block.endBlockEvents;
    HandlerSendsChainsOrCalls(StakerAssets, b);
    HandlerSendsChainsOrCalls(OperatorAssets, b);
    ThenAllWrites(HandlerScript(StakerAssets, b), HandlerScript(OperatorAssets, b), IsCall);
  }

  /** However far it gets, a transaction changes no table but the client chains (and
      the log of recorded calls): parameters, tokens, staker and operator assets and
      their histories stay as they were. */
  lemma TxTouchesOnlyChains(t: Tables, events: seq<Event>, n: nat)
    ensures var ws := TxScript(events).writes;
      n <= |ws| ==>
        var u := ApplyAll(Apply, t, ws[..n]);
        && u.params == t.params && u.tokens == t.tokens && u.stakerAssets == t.stakerAssets
        && u.stakerHistory == t.stakerHistory && u.operatorAssets == t.operatorAssets && u.operatorHistory == t.operatorHistory
  {
    TxSendsChainsOrCalls(events);
    var ws := TxScript(events).writes;
    if n <= |ws| {
      assert forall i :: 0 <= i < n ==> ws[..n][i] == ws[i];
      ChainsAndCallsOnly(t, ws[..n]);
    }
  }

  /** However far it gets, a block changes no table at all. */
  lemma BlockTouchesNoTable(t: Tables, block: Block, n: nat)
    ensures var ws := BlockScript(block).writes;
      n <= |ws| ==> var u := ApplyAll(Apply, t, ws[..n]);
        && u.clientChains == t.clientChains && u.params == t.params && u.tokens == t.tokens && u.stakerAssets == t.stakerAssets
        && u.stakerHistory == t.stakerHistory && u.operatorAssets == t.operatorAssets && u.operatorHistory == t.operatorHistory
  {
    BlockSendsCalls(block);
    var bs := BlockScript(block).writes;
    if n <= |bs| {
      assert forall i :: 0 <= i < n ==> bs[..n][i] == bs[i];
      ChainsAndCallsOnly(t, bs[..n]);
    }
  }

  // ---------------------------------------------------------------------------------
  // Properties of the genesis load

  /** The genesis load runs to the end exactly when the parameters marshal; it then
      saved the parameters at the initial height first, and the sections in order. */
  lemma GenesisLoadsAll(assetIdOf: AssetIdOf, g: GenesisState, initialHeight: int)
    ensures var s := GenesisScript(assetIdOf, Some(g), initialHeight);
      && (s.stop.None? <==> g.params.Some?)
      && (g.params.None? ==> s == Stop(EncodeError))
      && (g.params.Some? ==>
            s.writes == [UpsertParams(g.params.value, initialHeight)]
                        + (Loop(ChainBody(), g.clientChains).writes + (Loop(TokenBody(assetIdOf), g.tokens).writes
                        + (Loop(StakerBody(), g.deposits).writes + Loop(OperatorBody(), g.operatorAssets).writes))))
    ensures GenesisScript(assetIdOf, None, initialHeight) == Stop(DecodeError)
  {
    GenesisChainsSaved(g.clientChains);
    GenesisTokensSaved(assetIdOf, g.tokens);
    GenesisDepositsOnePerPair(g.deposits);
    GenesisOperatorAssetsOnePerPair(g.operatorAssets);
  }

  /** Client chains: one insert per chain, of its rendering, in order. */
  lemma GenesisChainsSaved(chains: seq<ClientChainInfo>)
    ensures var s := Loop(ChainBody(), chains);
      && s.stop.None? && |s.writes| == |chains|
      && forall i :: 0 <= i < |chains| ==> s.writes[i] == InsertClientChain(NewClientChain(chains[i]))
  {
    LoopOfSingles(ChainBody(), (c: ClientChainInfo) => InsertClientChain(NewClientChain(c)), chains);
  }

  /** Tokens: one `SaveAssetsToken` call per token, of its rendering, in order. */
  lemma GenesisTokensSaved(assetIdOf: AssetIdOf, tokens: seq<StakingAssetInfo>)
    ensures var s := Loop(TokenBody(assetIdOf), tokens);
      && s.stop.None? && |s.writes| == |tokens|
      && forall i :: 0 <= i < |tokens| ==> s.writes[i] == External(SaveAssetsToken(NewAssetsToken(assetIdOf, tokens[i])))
  {
    LoopOfSingles(TokenBody(assetIdOf), (t: StakingAssetInfo) => External(SaveAssetsToken(NewAssetsToken(assetIdOf, t))), tokens);
  }

  /** The (staker, deposit) pairs of the deposits, staker by staker. */
  function DepositPairs(ds: seq<DepositsByStaker>): seq<(string, DepositByAsset)>
  {
    Flatten(StakerPairs, ds)
  }

  function StakerPairs(s: DepositsByStaker): (r: seq<(string, DepositByAsset)>)
    ensures |r| == |s.deposits| && forall i :: 0 <= i < |r| ==> r[i] == (s.stakerId, s.deposits[i])
  {
    seq(|s.deposits|, i requires 0 <= i < |s.deposits| => (s.stakerId, s.deposits[i]))
  }

  function DepositWrite(p: (string, DepositByAsset)): Write
  {
    External(SaveStakerAssetOf(NewStakerAssetFromInfo(p.0, p.1.assetId, p.1.info, "")))
  }

  /** Deposits: one staker-asset save per (staker, asset) pair, in order, and every
      deposit of every staker is among the pairs. */
  lemma GenesisDepositsOnePerPair(ds: seq<DepositsByStaker>)
    ensures var s, ps := Loop(StakerBody(), ds), DepositPairs(ds);
      && s.stop.None? && |s.writes| == |ps|
      && forall i :: 0 <= i < |ps| ==> s.writes[i] == DepositWrite(ps[i])
    ensures forall j, k :: 0 <= j < |ds| && 0 <= k < |ds[j].deposits| ==> (ds[j].stakerId, ds[j].deposits[k]) in DepositPairs(ds)
  {
    var body := (p: (string, DepositByAsset)) => Single(DepositWrite(p));
    forall s: DepositsByStaker
      ensures StakerBody()(s) == Loop(body, StakerPairs(s))
    {
      LoopOfSingles(DepositBody(s.stakerId), (d: DepositByAsset) => DepositWrite((s.stakerId, d)), s.deposits);
      LoopOfSingles(body, DepositWrite, StakerPairs(s));
    }
    LoopFlatten(StakerBody(), StakerPairs, body, ds);
    LoopOfSingles(body, DepositWrite, DepositPairs(ds));
    FlattenCover(StakerPairs, ds);
    forall j, k | 0 <= j < |ds| && 0 <= k < |ds[j].deposits|
      ensures (ds[j].stakerId, ds[j].deposits[k]) in DepositPairs(ds)
    {
      assert StakerPairs(ds[j])[k] == (ds[j].stakerId, ds[j].deposits[k]);
    }
  }

  /** The (operator, asset state) pairs, operator by operator. */
  function OperatorPairs(os: seq<AssetsByOperator>): seq<(string, AssetByOperator)>
  {
    Flatten(OperatorAssetPairs, os)
  }

  function OperatorAssetPairs(o: AssetsByOperator): (r: seq<(string, AssetByOperator)>)
    ensures |r| == |o.assetsState| && forall i :: 0 <= i < |r| ==> r[i] == (o.operator, o.assetsState[i])
  {
    seq(|o.assetsState|, i requires 0 <= i < |o.assetsState| => (o.operator, o.assetsState[i]))
  }

  function OperatorAssetWrite(p: (string, AssetByOperator)): Write
  {
    External(SaveOperatorAssetOf(NewOperatorAssetFromInfo(p.0, p.1.assetId, p.1.info)))
  }

  /** Operator assets: one operator-asset save per (operator, asset) pair, in order,
      and every asset state of every operator is among the pairs. */
  lemma GenesisOperatorAssetsOnePerPair(os: seq<AssetsByOperator>)
    ensures var s, ps := Loop(OperatorBody(), os), OperatorPairs(os);
      && s.stop.None? && |s.writes| == |ps|
      && forall i :: 0 <= i < |ps| ==> s.writes[i] == OperatorAssetWrite(ps[i])
    ensures forall j, k :: 0 <= j < |os| && 0 <= k < |os[j].assetsState| ==> (os[j].operator, os[j].assetsState[k]) in OperatorPairs(os)
  {
    var body := (p: (string, AssetByOperator)) => Single(OperatorAssetWrite(p));
    forall o: AssetsByOperator
      ensures OperatorBody()(o) == Loop(body, OperatorAssetPairs(o))
    {
      LoopOfSingles(OperatorAssetBody(o.operator), (a: AssetByOperator) => OperatorAssetWrite((o.operator, a)), o.assetsState);
      LoopOfSingles(body, OperatorAssetWrite, OperatorAssetPairs(o));
    }
    LoopFlatten(OperatorBody(), OperatorAssetPairs, body, os);
    LoopOfSingles(body, OperatorAssetWrite, OperatorPairs(os));
    FlattenCover(OperatorAssetPairs, os);
    forall j, k | 0 <= j < |os| && 0 <= k < |os[j].assetsState|
      ensures (os[j].operator, os[j].assetsState[k]) in OperatorPairs(os)
    {
      assert OperatorAssetPairs(os[j])[k] == (os[j].operator, os[j].assetsState[k]);
    }
  }

  /** Client chains listed under the same exocore index: the first one listed is the
      one the store keeps, unless the store already held that index. */
  lemma GenesisFirstChainWins(t: Tables, chains: seq<ClientChainInfo>, i: nat)
    requires i < |chains|
    requires forall k :: 0 <= k < i ==> chains[k].exocoreChainIndex != chains[i].exocoreChainIndex
    requires NewClientChain(chains[i]).exocoreChainIndex !in t.clientChains
    ensures var m := ApplyAll(Apply, t, Loop(ChainBody(), chains).writes).clientChains;
      NewClientChain(chains[i]).exocoreChainIndex in m && m[NewClientChain(chains[i]).exocoreChainIndex] == NewClientChain(chains[i])
  {
    var ws := Loop(ChainBody(), chains).writes;
    GenesisChainsSaved(chains);
    var key := NewClientChain(chains[i]).exocoreChainIndex;
    forall k | 0 <= k < i && ws[k].InsertClientChain?
      ensures ws[k].chain.exocoreChainIndex != key
    {
      assert ws[k].chain == NewClientChain(chains[k]);
    }
    FirstChainAt(ws, key, i);
    ClientChainFirstWins(t, ws);
  }

  /** `FirstChain` of a batch whose first statement under `key` is at `i`. */
  lemma {:induction false} FirstChainAt(ws: seq<Write>, key: string, i: nat)
    requires i < |ws| && ws[i].InsertClientChain? && ws[i].chain.exocoreChainIndex == key
    requires forall k :: 0 <= k < i && ws[k].InsertClientChain? ==> ws[k].chain.exocoreChainIndex != key
    ensures FirstChain(ws, key) == Some(ws[i].chain)
    decreases |ws|
  {
    if i < |ws| - 1 {
      var ws' := ws[..|ws| - 1];
      assert forall k :: 0 <= k < |ws'| ==> ws'[k] == ws[k];
      FirstChainAt(ws', key, i);
    } else {
      var ws' := ws[..|ws| - 1];
      assert forall k :: 0 <= k < |ws'| ==> ws'[k] == ws[k];
    }
  }

  // ---------------------------------------------------------------------------------
  // The module and its handlers

  class Module {
    const db: Store

    constructor(db: Store)
      ensures this.db == db
    {
      this.db := db;
    }

    /** The statements the handlers send. */
    predicate Sendable(w: Write)
    {
      w.UpsertParams? || w.InsertClientChain? || w.External?
    }

    /** A loop body that returns an error or sends one such statement. */
    predicate Plain(s: Script<Write>)
    {
      OneOrStop(s) && (s.stop.None? ==> Sendable(s.writes[0]))
    }

    /** The store function that sends `w`. */
    method Send(w: Write) returns (r: Outcome)
      requires Sendable(w)
      modifies db
      ensures (r == Pass && db.Snapshot() == Apply(old(db.Snapshot()), w)) || (r == Fail(DbError) && db.Snapshot() == old(db.Snapshot()))
    {
      match w
      case UpsertParams(p, h) => r := db.SaveAssetsParams(AssetsParams(Some(p), h));
      case InsertClientChain(c) => r := db.SaveOrUpdateClientChain(c);
      case External(c) => r := db.Call(c);
    }

    /** `for _, x := range xs { … }` where the body returns an error or calls one store
        function. */
    method SendEach<T>(body: T -> Script<Write>, xs: seq<T>) returns (r: Outcome, ghost n: nat)
      requires forall x :: Plain(body(x))
      modifies db
      ensures Performed(Loop(body, xs), r, n)
      ensures db.Snapshot() == ApplyAll(Apply, old(db.Snapshot()), Loop(body, xs).writes[..n])
    {
      ghost var full, j0 := Loop(body, xs), db.Snapshot();
      ghost var done := Begin(Apply, full, j0);
      var i := 0;
      while i < |xs|
        invariant i <= |xs| && done.stop.None? && db.Snapshot() == ApplyAll(Apply, j0, done.writes)
        invariant full == Then(done, Loop(body, xs[i..]))
      {
        LoopStep(body, xs, i);
        var s := body(xs[i]);
        assert Plain(s);
        if s.stop.Some? {
          assert s == Stop(s.stop.value);
          n := Halt(Apply, full, done, s.stop.value, j0, db.Snapshot());
          return Fail(s.stop.value), n;
        }
        assert s == Single(s.writes[0]);
        ghost var mid := db.Snapshot();
        r := Send(s.writes[0]);
        ghost var m := Ran(Apply, s.writes[0], r, mid, db.Snapshot());
        done, n := Advance(Apply, full, done, s, Loop(body, xs[i + 1..]), r, m, j0, mid, db.Snapshot());
        if r.Fail? {
          return;
        }
        i := i + 1;
      }
      assert xs[i..] == [];
      n := Finish(Apply, full, done, j0, db.Snapshot());
      r := Pass;
    }

    lemma EventBodyPlain(h: Handler)
      ensures forall e :: Plain(EventBody(h)(e))
    {
      forall e
        ensures Plain(EventBody(h)(e))
      {
        EventPlain(h, e);
      }
    }

    lemma EventPlain(h: Handler, e: Event)
      ensures Plain(EventBody(h)(e))
    {
      var x := Lookup(e, Keys(h));
      if x.Ok? {
        BodySends(h, x.value);
        assert EventBody(h)(e) == Single(Body(h, x.value));
      }
    }

    /** One of the event handlers (the `handle…` functions of handle_tx.go). */
    method HandleEvents(h: Handler, events: seq<Event>) returns (r: Outcome, ghost n: nat)
      modifies db
      ensures Performed(HandlerScript(h, events), r, n)
      ensures db.Snapshot() == ApplyAll(Apply, old(db.Snapshot()), HandlerScript(h, events).writes[..n])
    {
      EventBodyPlain(h);
      r, n := SendEach(EventBody(h), FindEventsByType(events, EventType(h)));
    }

    /** `handleClientChainEvents`. */
    method HandleClientChainEvents(events: seq<Event>) returns (r: Outcome, ghost n: nat)
      modifies db
      ensures Performed(ClientChainScript(events), r, n)
      ensures db.Snapshot() == ApplyAll(Apply, old(db.Snapshot()), ClientChainScript(events).writes[..n])
    {
      ghost var s0, s1 := HandlerScript(NewChains, events), HandlerScript(UpdatedChains, events);
      ghost var full, j0 := ClientChainScript(events), db.Snapshot();
      ThenDone(s1);
      ghost var done := Begin(Apply, full, j0);
      ghost var mid, m;
      mid := db.Snapshot();
      r, m := HandleEvents(NewChains, events);
      done, n := Advance(Apply, full, done, s0, s1, r, m, j0, mid, db.Snapshot());
      if r.Fail? {
        return;
      }
      mid := db.Snapshot();
      r, m := HandleEvents(UpdatedChains, events);
      done, n := Advance(Apply, full, done, s1, Done(), r, m, j0, mid, db.Snapshot());
      if r.Fail? {
        return;
      }
      n := Finish(Apply, full, done, j0, db.Snapshot());
    }

    /** `handleStakerEvents` then `handleOperatorEvents`, as both `HandleTx` and
        `HandleBlock` run them. */
    method HandleAssetStates(events: seq<Event>) returns (r: Outcome, ghost n: nat)
      modifies db
      ensures Performed(AssetStatesScript(events), r, n)
      ensures db.Snapshot() == ApplyAll(Apply, old(db.Snapshot()), AssetStatesScript(events).writes[..n])
    {
      ghost var s0, s1 := HandlerScript(StakerAssets, events), HandlerScript(OperatorAssets, events);
      ghost var full, j0 := AssetStatesScript(events), db.Snapshot();
      ThenDone(s1);
      ghost var done := Begin(Apply, full, j0);
      ghost var mid, m;
      mid := db.Snapshot();
      r, m := HandleEvents(StakerAssets, events);
      done, n := Advance(Apply, full, done, s0, s1, r, m, j0, mid, db.Snapshot());
      if r.Fail? {
        return;
      }
      mid := db.Snapshot();
      r, m := HandleEvents(OperatorAssets, events);
      done, n := Advance(Apply, full, done, s1, Done(), r, m, j0, mid, db.Snapshot());
      if r.Fail? {
        return;
      }
      n := Finish(Apply, full, done, j0, db.Snapshot());
    }

    /** modules/assets/handle_tx.go `HandleTx`. */
    method HandleTx(events: seq<Event>) returns (r: Outcome, ghost n: nat)
      modifies db
      ensures Performed(TxScript(events), r, n)
      ensures db.Snapshot() == ApplyAll(Apply, old(db.Snapshot()), TxScript(events).writes[..n])
    {
      ghost var s0, s1, s2 := ClientChainScript(events), HandlerScript(NewToken, events), HandlerScript(UpdatedToken, events);
      ghost var s3, s4 := HandlerScript(StakingTotal, events), AssetStatesScript(events);
      ghost var full, j0 := TxScript(events), db.Snapshot();
      ThenDone(s4);
      ghost var done := Begin(Apply, full, j0);
      ghost var mid, m;
      mid := db.Snapshot();
      r, m := HandleClientChainEvents(events);
      done, n := Advance(Apply, full, done, s0, Then(s1, Then(s2, Then(s3, s4))), r, m, j0, mid, db.Snapshot());
      if r.Fail? {
        return;
      }
      mid := db.Snapshot();
      r, m := HandleEvents(NewToken, events);
      done, n := Advance(Apply, full, done, s1, Then(s2, Then(s3, s4)), r, m, j0, mid, db.Snapshot());
      if r.Fail? {
        return;
      }
      mid := db.Snapshot();
      r, m := HandleEvents(UpdatedToken, events);
      done, n := Advance(Apply, full, done, s2, Then(s3, s4), r, m, j0, mid, db.Snapshot());
      if r.Fail? {
        return;
      }
      mid := db.Snapshot();
      r, m := HandleEvents(StakingTotal, events);
      done, n := Advance(Apply, full, done, s3, s4, r, m, j0, mid, db.Snapshot());
      if r.Fail? {
        return;
      }
      mid := db.Snapshot();
      r, m := HandleAssetStates(events);
      done, n := Advance(Apply, full, done, s4, Done(), r, m, j0, mid, db.Snapshot());
      if r.Fail? {
        return;
      }
      n := Finish(Apply, full, done, j0, db.Snapshot());
    }

    /** modules/assets/handle_block.go `HandleBlock`. */
    method HandleBlock(block: Block) returns (r: Outcome, ghost n: nat)
      modifies db
      ensures Performed(BlockScript(block), r, n)
      ensures db.Snapshot() == ApplyAll(Apply, old(db.Snapshot()), BlockScript(block).writes[..n])
    {
      r, n := HandleAssetStates(block.endBlockEvents);
    }

    /** `SaveAssetsParams` on the genesis parameters. */
    method SaveParams(p: AssetsParams) returns (r: Outcome, ghost n: nat)
      modifies db
      ensures Performed(ParamsScript(p), r, n)
      ensures db.Snapshot() == ApplyAll(Apply, old(db.Snapshot()), ParamsScript(p).writes[..n])
    {
      ghost var j0 := db.Snapshot();
      r := db.SaveAssetsParams(p);
      if p.params.None? {
        n := 0;
      } else {
        n := Ran(Apply, UpsertParams(p.params.value, p.height), r, j0, db.Snapshot());
      }
    }

    lemma GenesisBodiesPlain()
      ensures forall x :: Plain(ChainBody()(x))
      ensures forall x :: Plain(TokenBody(db.assetIdOf)(x))
      ensures forall staker, x :: Plain(DepositBody(staker)(x))
      ensures forall operator, x :: Plain(OperatorAssetBody(operator)(x))
    {
    }

    /** The genesis deposits: a loop over the stakers around a loop over each staker's
        deposits. */
    method SaveDeposits(ds: seq<DepositsByStaker>) returns (r: Outcome, ghost n: nat)
      modifies db
      ensures Performed(Loop(StakerBody(), ds), r, n)
      ensures db.Snapshot() == ApplyAll(Apply, old(db.Snapshot()), Loop(StakerBody(), ds).writes[..n])
    {
      ghost var full, j0 := Loop(StakerBody(), ds), db.Snapshot();
      ghost var done := Begin(Apply, full, j0);
      GenesisBodiesPlain();
      var i := 0;
      while i < |ds|
        invariant i <= |ds| && done.stop.None? && db.Snapshot() == ApplyAll(Apply, j0, done.writes)
        invariant full == Then(done, Loop(StakerBody(), ds[i..]))
      {
        LoopStep(StakerBody(), ds, i);
        ghost var mid := db.Snapshot();
        ghost var m;
        r, m := SendEach(DepositBody(ds[i].stakerId), ds[i].deposits);
        done, n := Advance(Apply, full, done, StakerBody()(ds[i]), Loop(StakerBody(), ds[i + 1..]), r, m, j0, mid, db.Snapshot());
        if r.Fail? {
          return;
        }
        i := i + 1;
      }
      assert ds[i..] == [];
      n := Finish(Apply, full, done, j0, db.Snapshot());
      r := Pass;
    }

    /** The genesis operator states: a loop over the operators around a loop over each
        operator's asset states. */
    method SaveOperatorStates(os: seq<AssetsByOperator>) returns (r: Outcome, ghost n: nat)
      modifies db
      ensures Performed(Loop(OperatorBody(), os), r, n)
      ensures db.Snapshot() == ApplyAll(Apply, old(db.Snapshot()), Loop(OperatorBody(), os).writes[..n])
    {
      ghost var full, j0 := Loop(OperatorBody(), os), db.Snapshot();
      ghost var done := Begin(Apply, full, j0);
      GenesisBodiesPlain();
      var i := 0;
      while i < |os|
        invariant i <= |os| && done.stop.None? && db.Snapshot() == ApplyAll(Apply, j0, done.writes)
        invariant full == Then(done, Loop(OperatorBody(), os[i..]))
      {
        LoopStep(OperatorBody(), os, i);
        ghost var mid := db.Snapshot();
        ghost var m;
        r, m := SendEach(OperatorAssetBody(os[i].operator), os[i].assetsState);
        done, n := Advance(Apply, full, done, OperatorBody()(os[i]), Loop(OperatorBody(), os[i + 1..]), r, m, j0, mid, db.Snapshot());
        if r.Fail? {
          return;
        }
        i := i + 1;
      }
      assert os[i..] == [];
      n := Finish(Apply, full, done, j0, db.Snapshot());
      r := Pass;
    }

    /** modules/assets/handle_genesis.go `HandleGenesis`; `decoded` is the module's
        genesis state, or `None` when it does not decode. */
    method HandleGenesis(decoded: Option<GenesisState>, initialHeight: int) returns (r: Outcome, ghost n: nat)
      modifies db
      ensures Performed(GenesisScript(db.assetIdOf, decoded, initialHeight), r, n)
      ensures db.Snapshot() == ApplyAll(Apply, old(db.Snapshot()), GenesisScript(db.assetIdOf, decoded, initialHeight).writes[..n])
    {
      if decoded.None? {
        return Fail(DecodeError), 0;
      }
      var g := decoded.value;
      var id := db.assetIdOf;
      ghost var s0, s1 := ParamsScript(NewAssetsParams(g.params, initialHeight)), Loop(ChainBody(), g.clientChains);
      ghost var s2, s3 := Loop(TokenBody(id), g.tokens), Loop(StakerBody(), g.deposits);
      ghost var s4 := Loop(OperatorBody(), g.operatorAssets);
      ghost var full, j0 := GenesisScript(id, decoded, initialHeight), db.Snapshot();
      GenesisBodiesPlain();
      ThenDone(s4);
      ghost var done := Begin(Apply, full, j0);
      ghost var mid, m;
      mid := db.Snapshot();
      r, m := SaveParams(NewAssetsParams(g.params, initialHeight));
      done, n := Advance(Apply, full, done, s0, Then(s1, Then(s2, Then(s3, s4))), r, m, j0, mid, db.Snapshot());
      if r.Fail? {
        return;
      }
      mid := db.Snapshot();
      r, m := SendEach(ChainBody(), g.clientChains);
      done, n := Advance(Apply, full, done, s1, Then(s2, Then(s3, s4)), r, m, j0, mid, db.Snapshot());
      if r.Fail? {
        return;
      }
      mid := db.Snapshot();
      r, m := SendEach(TokenBody(id), g.tokens);
      done, n := Advance(Apply, full, done, s2, Then(s3, s4), r, m, j0, mid, db.Snapshot());
      if r.Fail? {
        return;
      }
      mid := db.Snapshot();
      r, m := SaveDeposits(g.deposits);
      done, n := Advance(Apply, full, done, s3, s4, r, m, j0, mid, db.Snapshot());
      if r.Fail? {
        return;
      }
      mid := db.Snapshot();
      r, m := SaveOperatorStates(g.operatorAssets);
      done, n := Advance(Apply, full, done, s4, Done(), r, m, j0, mid, db.Snapshot());
      if r.Fail? {
        return;
      }
      n := Finish(Apply, full, done, j0, db.Snapshot());
    }
  }
}
