// modules/delegation: what transactions, blocks and the genesis state write about
// associations, delegation states, the stakers of each operator and asset,
// undelegation records and native-asset delegations.

module DelegationModule {
  import opened Wrappers
  import opened Events
  import opened Replay
  import opened Decimal
  import opened DelegationTypes
  import opened DelegationDb

  const EventTypeDelegationStateUpdated := "delegationtypes.EventTypeDelegationStateUpdated"
  const EventTypeOperatorAssociated := "delegationtypes.EventTypeOperatorAssociated"
  const EventTypeOperatorDisassociated := "delegationtypes.EventTypeOperatorDisassociated"
  const EventTypeStakerAppended := "delegationtypes.EventTypeStakerAppended"
  const EventTypeStakerRemoved := "delegationtypes.EventTypeStakerRemoved"
  const EventTypeAllStakersRemoved := "delegationtypes.EventTypeAllStakersRemoved"
  const EventTypeExoAssetDelegation := "delegationtypes.EventTypeExoAssetDelegation"
  const EventTypeUndelegationStarted := "delegationtypes.EventTypeUndelegationStarted"
  const EventTypeUndelegationHoldCountChanged := "delegationtypes.EventTypeUndelegationHoldCountChanged"
  const EventTypeUndelegationMatured := "delegationtypes.EventTypeUndelegationMatured"
  const EventTypeUndelegationSlashed := "operatortypes.EventTypeUndelegationSlashed"
  const EventTypeOperatorAssetSlashed := "operatortypes.EventTypeOperatorAssetSlashed"

  const AttributeKeyStakerID := "delegationtypes.AttributeKeyStakerID"
  const AttributeKeyOperatorAddr := "delegationtypes.AttributeKeyOperatorAddr"
  const AttributeKeyAssetID := "delegationtypes.AttributeKeyAssetID"
  const AttributeKeyWaitUndelegationAmount := "delegationtypes.AttributeKeyWaitUndelegationAmount"
  const AttributeKeyUndelegatableShare := "delegationtypes.AttributeKeyUndelegatableShare"
  const AttributeKeyAmount := "delegationtypes.AttributeKeyAmount"
  const AttributeKeyRecordID := "delegationtypes.AttributeKeyRecordID"
  const AttributeKeyCompletedEpochID := "delegationtypes.AttributeKeyCompletedEpochID"
  const AttributeKeyCompletedEpochNumber := "delegationtypes.AttributeKeyCompletedEpochNumber"
  const AttributeKeyUndelegationID := "delegationtypes.AttributeKeyUndelegationID"
  const AttributeKeyTxHash := "delegationtypes.AttributeKeyTxHash"
  const AttributeKeyBlockNumber := "delegationtypes.AttributeKeyBlockNumber"
  const AttributeKeyHoldCount := "delegationtypes.AttributeKeyHoldCount"

  const OperatorKeyRecordID := "operatortypes.AttributeKeyRecordID"
  const OperatorKeyAmount := "operatortypes.AttributeKeyAmount"
  const OperatorKeySlashAmount := "operatortypes.AttributeKeySlashAmount"
  const OperatorKeyAssetID := "operatortypes.AttributeKeyAssetID"
  const OperatorKeyOperator := "operatortypes.AttributeKeyOperator"

  /** `assetstypes.ExocoreAssetID`, the asset id of the chain's native token. */
  const ExocoreAssetID := "assetstypes.ExocoreAssetID"

  /** `source.GetDelegatedAmount(height, staker, asset, operator)`: the amount the
      chain reports as delegated at a height, or `None` when the query fails. */
  type Source = (int, string, string, string) -> Option<int>

  // ---------------------------------------------------------------------------------
  // Event handlers that read their attributes in a fixed order (the first missing one
  // is returned as the error) and then call the store.

  datatype Handler =
    | StateUpdated          // handleDelegationStateUpdates
    | Associated            // handleStakerOperatorAssociations
    | Disassociated         // handleStakerOperatorDisassociations
    | Appended              // handleStakerAppendedToOperatorAsset
    | Removed               // handleStakerRemovedFromOperatorAsset
    | AllRemoved            // handleAllStakersRemovedFromOperatorAsset
    | ExoDelegation         // handleExoAssetDelegations
    | UndelegationStarted   // handleUndelegationStarts
    | HoldCountChanged      // handleUndelegationHoldCountChanges
    | UndelegationSlashed   // handleUndelegationSlashings

  function EventType(h: Handler): string
  {
    match h
    case StateUpdated => EventTypeDelegationStateUpdated
    case Associated => EventTypeOperatorAssociated
    case Disassociated => EventTypeOperatorDisassociated
    case Appended => EventTypeStakerAppended
    case Removed => EventTypeStakerRemoved
    case AllRemoved => EventTypeAllStakersRemoved
    case ExoDelegation => EventTypeExoAssetDelegation
    case UndelegationStarted => EventTypeUndelegationStarted
    case HoldCountChanged => EventTypeUndelegationHoldCountChanged
    case UndelegationSlashed => EventTypeUndelegationSlashed
  }

  /** The attributes each handler reads, in the order it reads them. */
  function Keys(h: Handler): seq<string>
  {
    match h
    case StateUpdated => [AttributeKeyStakerID, AttributeKeyOperatorAddr, AttributeKeyAssetID,
                          AttributeKeyWaitUndelegationAmount, AttributeKeyUndelegatableShare]
    case Associated => [AttributeKeyStakerID, AttributeKeyOperatorAddr]
    case Disassociated => [AttributeKeyStakerID]
    case Appended => [AttributeKeyStakerID, AttributeKeyOperatorAddr, AttributeKeyAssetID]
    case Removed => [AttributeKeyStakerID, AttributeKeyOperatorAddr, AttributeKeyAssetID]
    case AllRemoved => [AttributeKeyOperatorAddr, AttributeKeyAssetID]
    case ExoDelegation => [AttributeKeyStakerID, AttributeKeyOperatorAddr, AttributeKeyAmount]
    case UndelegationStarted => [AttributeKeyStakerID, AttributeKeyAssetID, AttributeKeyOperatorAddr, AttributeKeyRecordID,
                                 AttributeKeyAmount, AttributeKeyCompletedEpochID, AttributeKeyCompletedEpochNumber,
                                 AttributeKeyUndelegationID, AttributeKeyTxHash, AttributeKeyBlockNumber]
    case HoldCountChanged => [AttributeKeyRecordID, AttributeKeyHoldCount]
    case UndelegationSlashed => [OperatorKeyRecordID, OperatorKeyAmount, OperatorKeySlashAmount]
  }

  /** The record an undelegation start saves: handle_tx.go:273-276 passes the event
      amount as both the amount and the actual completed amount, and hold count "0",
      to the constructor as written, which drops the last two. */
  function StartedRecord(v: seq<string>): UndelegationRecord
    requires |v| == |Keys(UndelegationStarted)|
  {
    NewUndelegationRecordFromStrAsWritten(v[3], v[0], v[1], v[2], v[8], v[9], v[5], v[6], v[7], v[4], v[4], "0")
  }

  /** What a handler does with the attribute values `v` of one event. An undelegation
      start of the native asset also moves the amount to pending undelegation; an
      undelegation slash passes its three values to the two-parameter
      `SlashUndelegationRecord` as handle_block.go:107 does. */
  function Body(h: Handler, v: seq<string>): Script<Write>
    requires |v| == |Keys(h)|
  {
    match h
    case StateUpdated => Single(UpsertState(NewDelegationStateFromStr(v[0], v[2], v[1], v[4], v[3])))
    case Associated => Single(SetAssociation(v[0], v[1]))
    case Disassociated => Single(DeleteAssociation(v[0]))
    case Appended => Single(AppendMember(v[0], v[1], v[2]))
    case Removed => Single(RemoveMember(v[0], v[1], v[2]))
    case AllRemoved => Single(RemoveAllMembers(v[0], v[1]))
    case ExoDelegation => Single(AccumulateExo(ExoDelegationArgs(v[0], v[1], v[2], "0", "0")))
    case UndelegationStarted =>
      Then(Single(SaveRecord(StartedRecord(v))), if v[1] == ExocoreAssetID then Single(UndelegateExo(v[0], v[2], v[4])) else Done())
    case HoldCountChanged => Single(SetHoldCount(v[0], v[1]))
    case UndelegationSlashed => Single(External(SlashUndelegationRecordOf(v[0], v[1], v[2])))
  }

  function EventBody(h: Handler): Event -> Script<Write>
  {
    (e: Event) =>
      match Lookup(e, Keys(h))
      case Err(err) => Stop(err)
      case Ok(v) => Body(h, v)
  }

  /** The handler's `for _, event := range events` over the events already selected. */
  function HandlerLoop(h: Handler, evs: seq<Event>): Script<Write>
  {
    Loop(EventBody(h), evs)
  }

  /** A handler: select the events of its type, then loop over them. */
  function HandlerScript(h: Handler, events: seq<Event>): Script<Write>
  {
    HandlerLoop(h, FindEventsByType(events, EventType(h)))
  }

  /** `HandleTx`: state updates, associations, disassociations, stakers appended,
      stakers removed, all stakers removed, native-asset delegations, undelegation
      starts, hold counts and undelegation slashes, returning at the first error. */
  function TxScript(events: seq<Event>): Script<Write>
  {
    Then(HandlerScript(StateUpdated, events),
    Then(HandlerScript(Associated, events),
    Then(HandlerScript(Disassociated, events),
    Then(HandlerScript(Appended, events),
    Then(HandlerScript(Removed, events),
    Then(HandlerScript(AllRemoved, events),
    Then(HandlerScript(ExoDelegation, events),
    Then(HandlerScript(UndelegationStarted, events),
    Then(HandlerScript(HoldCountChanged, events),
         HandlerScript(UndelegationSlashed, events))))))))))
  }

  // ---------------------------------------------------------------------------------
  // Block handlers that read the store

  const MaturedKeys := [AttributeKeyRecordID, AttributeKeyAmount]
  const SlashedKeys := [OperatorKeyAssetID, OperatorKeyOperator]

  /** After maturing a record, `handleUndelegationCompletions` reads the record's staker
      and asset (no row: the error `NoRows`) and, for the native asset, its operator,
      and matures the native-asset pending undelegation. `recs` are the undelegation
      records as the block found them. */
  function MaturedExo(recs: map<string, RecordRow>, recordId: string, amount: string): Script<Write>
  {
    if recordId !in recs then Stop(NoRows)
    else if recs[recordId].assetId == ExocoreAssetID
    then Single(External(MatureExoAssetUndelegation(recs[recordId].stakerId, recs[recordId].operatorAddr, amount)))
    else Done()
  }

  function MaturedBody(recs: map<string, RecordRow>, height: int): Event -> Script<Write>
  {
    (e: Event) =>
      match Lookup(e, MaturedKeys)
      case Err(err) => Stop(err)
      case Ok(v) => Then(Single(MatureRecord(v[0], v[1], height)), MaturedExo(recs, v[0], v[1]))
  }

  /** `handleUndelegationCompletions(height, events)`. */
  function CompletionsScript(recs: map<string, RecordRow>, height: int, events: seq<Event>): Script<Write>
  {
    Loop(MaturedBody(recs, height), FindEventsByType(events, EventTypeUndelegationMatured))
  }

  /** The store call a delegation slash makes: the staker's delegation of an asset, or
      for the native asset the staker's delegation to the operator. */
  function SlashCall(stakerId: string, assetId: string, operatorAddr: string, slashed: int): ExternalCall
  {
    if assetId != ExocoreAssetID then SlashStakerDelegation(stakerId, assetId, FormatInt(slashed))
    else SlashExoAssetDelegation(stakerId, operatorAddr, FormatInt(slashed))
  }

  /** One staker of a slashed operator and asset: the slashed amount is what the store
      last recorded as delegated minus what the chain now reports. */
  function StakerSlashBody(prevOf: (string, string) -> Option<int>, source: Source, height: int,
                           assetId: string, operatorAddr: string): string -> Script<Write>
  {
    (stakerId: string) =>
      match source(height, stakerId, assetId, operatorAddr)
      case None => Stop(SourceError)
      case Some(current) =>
        match prevOf(stakerId, assetId)
        case None => Stop(DbError)
        case Some(prev) => Single(External(SlashCall(stakerId, assetId, operatorAddr, prev - current)))
  }

  /** One operator-asset-slashed event: the stakers the store lists for the operator
      and asset (`order` gives their row order), one after the other; a failed query
      ends the handler. */
  function SlashedBody(order: RowOrder, prevOf: (string, string) -> Option<int>, source: Source,
                       members: set<(string, string, string)>, height: int): Event -> Script<Write>
  {
    (e: Event) =>
      match Lookup(e, SlashedKeys)
      case Err(err) => Stop(err)
      case Ok(v) =>
        match order(StakersOf(members, v[1], v[0]))
        case None => Stop(DbError)
        case Some(stakerIds) => Loop(StakerSlashBody(prevOf, source, height, v[0], v[1]), stakerIds)
  }

  /** `handleDelegationSlashings(height, events)`, on the stakers `members` lists. */
  function SlashingsScript(order: RowOrder, prevOf: (string, string) -> Option<int>, source: Source,
                           members: set<(string, string, string)>, height: int, events: seq<Event>): Script<Write>
  {
    Loop(SlashedBody(order, prevOf, source, members, height), FindEventsByType(events, EventTypeOperatorAssetSlashed))
  }

  /** `HandleBlock` up to the delegation slashings: BeginBlock state updates, EndBlock
      state updates, BeginBlock all-stakers removals, EndBlock hold counts, EndBlock
      completions, BeginBlock undelegation slashings. */
  function BlockPrefix(recs: map<string, RecordRow>, block: Block): Script<Write>
  {
    var b, e := block.beginBlockEvents, block.endBlockEvents;
    Then(HandlerScript(StateUpdated, b),
    Then(HandlerScript(StateUpdated, e),
    Then(HandlerScript(AllRemoved, b),
    Then(HandlerScript(HoldCountChanged, e),
    Then(CompletionsScript(recs, block.height, e),
         HandlerScript(UndelegationSlashed, b))))))
  }

  /** `HandleBlock` on the tables `t0` the block found: the prefix, then the delegation
      slashings over the stakers the store holds once the prefix has run. */
  function BlockScript(order: RowOrder, prevOf: (string, string) -> Option<int>, source: Source,
                       t0: Tables, block: Block): Script<Write>
  {
    var prefix := BlockPrefix(t0.records, block);
    Then(prefix, SlashingsScript(order, prevOf, source, ApplyAll(Apply, t0, prefix.writes).members, block.height, block.beginBlockEvents))
  }

  // ---------------------------------------------------------------------------------
  // Genesis

  datatype Association = Association(stakerId: string, operator: string)
  datatype StateEntry = StateEntry(key: string, states: DelegationAmounts)
  datatype StakersByOperator = StakersByOperator(key: string, stakers: seq<string>)

  /** The parts of x/delegation's `GenesisState` the indexer reads. */
  datatype GenesisState = GenesisState(
    associations: seq<Association>,
    delegationStates: seq<StateEntry>,
    stakersByOperator: seq<StakersByOperator>,
    undelegations: seq<UndelegationInfo>)

  /** `ParseStakerAssetIDAndOperator`: (staker, asset, operator), or `None` when the key
      does not parse; it is not part of this model. */
  type StateKeyParser = string -> Option<(string, string, string)>

  /** `ParseJoinedStoreKey(key, 2)`: (operator, asset), or `None`; it is not part of
      this model. */
  type JoinedKeyParser = string -> Option<(string, string)>

  function AssociationBody(): Association -> Script<Write>
  {
    (a: Association) => Single(SetAssociation(a.stakerId, a.operator))
  }

  /** A delegation state is saved under its parsed key; a native-asset state also
      accumulates the delegated amount the chain reports at the initial height and the
      waiting amount, through an `ExoAssetDelegation`. */
  function StateBody(parseKey: StateKeyParser, source: Source, initialHeight: int): StateEntry -> Script<Write>
  {
    (x: StateEntry) =>
      match parseKey(x.key)
      case None => Stop(ParseError(x.key))
      case Some(k) =>
        Then(Single(UpsertState(NewDelegationState(k.0, k.1, k.2, x.states))),
             if k.1 != ExocoreAssetID then Done()
             else
               match source(initialHeight, k.0, k.1, k.2)
               case None => Stop(SourceError)
               case Some(delegated) =>
                 Single(External(AccumulateExoAssetDelegationOf(
                   NewExoAssetDelegationFromStr(k.0, FormatInt(delegated), FormatInt(x.states.waitUndelegationAmount))))))
  }

  function AppendBody(operatorAddr: string, assetId: string): string -> Script<Write>
  {
    (s: string) => Single(AppendMember(s, operatorAddr, assetId))
  }

  function MembersBody(parseKey: JoinedKeyParser): StakersByOperator -> Script<Write>
  {
    (x: StakersByOperator) =>
      match parseKey(x.key)
      case None => Stop(ParseError(x.key))
      case Some(p) => Loop(AppendBody(p.0, p.1), x.stakers)
  }

  /** Undelegation records are built with hold count 0, which the constructor drops. */
  function RecordBody(recordKey: RecordKeyOf): UndelegationInfo -> Script<Write>
  {
    (u: UndelegationInfo) => Single(SaveRecord(NewUndelegationRecord(recordKey, u, 0)))
  }

  /** `HandleGenesis`; `decoded` is the module's genesis state, or `None` when it does
      not decode. */
  function GenesisScript(parseStateKey: StateKeyParser, parseJoinedKey: JoinedKeyParser, recordKey: RecordKeyOf,
                         source: Source, initialHeight: int, decoded: Option<GenesisState>): Script<Write>
  {
    match decoded
    case None => Stop(DecodeError)
    case Some(g) =>
      Then(Loop(AssociationBody(), g.associations),
      Then(Loop(StateBody(parseStateKey, source, initialHeight), g.delegationStates),
      Then(Loop(MembersBody(parseJoinedKey), g.stakersByOperator),
           Loop(RecordBody(recordKey), g.undelegations))))
  }

  // ---------------------------------------------------------------------------------
  // The module

  class Module {
    const db: Store
    const source: Source
    const parseStateKey: StateKeyParser
    const parseJoinedKey: JoinedKeyParser
    const recordKey: RecordKeyOf

    constructor(db: Store, source: Source, parseStateKey: StateKeyParser, parseJoinedKey: JoinedKeyParser, recordKey: RecordKeyOf)
      ensures this.db == db && this.source == source && this.parseStateKey == parseStateKey
      ensures this.parseJoinedKey == parseJoinedKey && this.recordKey == recordKey
    {
      this.db, this.source, this.parseStateKey, this.parseJoinedKey, this.recordKey := db, source, parseStateKey, parseJoinedKey, recordKey;
    }

    /** The store function that sends `w`. */
    method Send(w: Write) returns (r: Outcome)
      modifies db
      ensures (r == Pass && db.Snapshot() == Apply(old(db.Snapshot()), w)) || (r == Fail(DbError) && db.Snapshot() == old(db.Snapshot()))
    {
      match w
      case SetAssociation(s, o) => r := db.SaveStakerOperatorAssociation(s, o);
      case DeleteAssociation(s) => r := db.DeleteStakerOperatorAssociation(s);
      case UpsertState(st) => r := db.SaveDelegationState(st);
      case AppendMember(s, o, a) => r := db.AppendStakerToOperatorAsset(s, o, a);
      case RemoveMember(s, o, a) => r := db.RemoveStakerFromOperatorAsset(s, o, a);
      case RemoveAllMembers(o, a) => r := db.DeleteAllStakersFromOperatorAsset(o, a);
      case SaveRecord(rec) => r := db.SaveUndelegationRecord(rec);
      case SetHoldCount(id, h) => r := db.UpdateUndelegationRecordHoldCount(id, h);
      case MatureRecord(id, amount, height) => r := db.MatureUndelegationRecord(id, amount, height);
      case SlashRecord(id, amount) => r := db.SlashUndelegationRecord(id, amount);
      case AccumulateExo(d) => r := db.AccumulateExoAssetDelegation(d);
      case UndelegateExo(s, o, amount) => r := db.UndelegateExoAsset(s, o, amount);
      case External(c) => r := db.Call(c);
    }

    /** The store calls of one loop body, one after the other, returning at the first
        error. */
    method Run(s: Script<Write>) returns (r: Outcome, ghost n: nat)
      modifies db
      ensures Performed(s, r, n)
      ensures db.Snapshot() == ApplyAll(Apply, old(db.Snapshot()), s.writes[..n])
    {
      ghost var j0 := db.Snapshot();
      var i := 0;
      while i < |s.writes|
        invariant i <= |s.writes| && db.Snapshot() == ApplyAll(Apply, j0, s.writes[..i])
      {
        r := Send(s.writes[i]);
        if r.Fail? {
          return r, i;
        }
        assert s.writes[..i + 1] == s.writes[..i] + [s.writes[i]];
        ApplyAllSnoc(Apply, j0, s.writes[..i], s.writes[i]);
        i := i + 1;
      }
      r, n := Planned(s), i;
    }

    /** `for _, x := range xs { … }` where the body calls the store and returns at the
        first error. */
    method RunEach<T>(body: T -> Script<Write>, xs: seq<T>) returns (r: Outcome, ghost n: nat)
      modifies db
      ensures Performed(Loop(body, xs), r, n)
      ensures db.Snapshot() == ApplyAll(Apply, old(db.Snapshot()), Loop(body, xs).writes[..n])
    {
      ghost var full, j0 := Loop(body, xs), db.Snapshot();
      ghost var done := Begin(Apply, full, j0);
      var i := 0;
      while i < |xs|
        invariant i <= |xs| && done.stop.None? && db.Snapshot() == ApplyAll(Apply, j0, done.writes)
        invariant full == Then(done, Loop(body, xs[i..]))
      {
        LoopStep(body, xs, i);
        ghost var mid := db.Snapshot();
        ghost var m;
        r, m := Run(body(xs[i]));
        done, n := Advance(Apply, full, done, body(xs[i]), Loop(body, xs[i + 1..]), r, m, j0, mid, db.Snapshot());
        if r.Fail? {
          return;
        }
        i := i + 1;
      }
      assert xs[i..] == [];
      n := Finish(Apply, full, done, j0, db.Snapshot());
      r := Pass;
    }

    /** One of the event handlers of handle_tx.go and handle_block.go that only write. */
    method HandleEvents(h: Handler, events: seq<Event>) returns (r: Outcome, ghost n: nat)
      modifies db
      ensures Performed(HandlerScript(h, events), r, n)
      ensures db.Snapshot() == ApplyAll(Apply, old(db.Snapshot()), HandlerScript(h, events).writes[..n])
    {
      r, n := RunEach(EventBody(h), FindEventsByType(events, EventType(h)));
    }

    /** modules/delegation/handle_tx.go `HandleTx`. */
    method HandleTx(events: seq<Event>) returns (r: Outcome, ghost n: nat)
      modifies db
      ensures Performed(TxScript(events), r, n)
      ensures db.Snapshot() == ApplyAll(Apply, old(db.Snapshot()), TxScript(events).writes[..n])
    {
      ghost var s0, s1, s2 := HandlerScript(StateUpdated, events), HandlerScript(Associated, events), HandlerScript(Disassociated, events);
      ghost var s3, s4, s5 := HandlerScript(Appended, events), HandlerScript(Removed, events), HandlerScript(AllRemoved, events);
      ghost var s6, s7 := HandlerScript(ExoDelegation, events), HandlerScript(UndelegationStarted, events);
      ghost var s8, s9 := HandlerScript(HoldCountChanged, events), HandlerScript(UndelegationSlashed, events);
      ghost var full, j0 := TxScript(events), db.Snapshot();
      ThenDone(s9);
      ghost var done := Begin(Apply, full, j0);
      ghost var mid, m;
      mid := db.Snapshot();
      r, m := HandleEvents(StateUpdated, events);
      done, n := Advance(Apply, full, done, s0, Then(s1, Then(s2, Then(s3, Then(s4, Then(s5, Then(s6, Then(s7, Then(s8, s9)))))))), r, m, j0, mid, db.Snapshot());
      if r.Fail? {
        return;
      }
      mid := db.Snapshot();
      r, m := HandleEvents(Associated, events);
      done, n := Advance(Apply, full, done, s1, Then(s2, Then(s3, Then(s4, Then(s5, Then(s6, Then(s7, Then(s8, s9))))))), r, m, j0, mid, db.Snapshot());
      if r.Fail? {
        return;
      }
      mid := db.Snapshot();
      r, m := HandleEvents(Disassociated, events);
      done, n := Advance(Apply, full, done, s2, Then(s3, Then(s4, Then(s5, Then(s6, Then(s7, Then(s8, s9)))))), r, m, j0, mid, db.Snapshot());
      if r.Fail? {
        return;
      }
      mid := db.Snapshot();
      r, m := HandleEvents(Appended, events);
      done, n := Advance(Apply, full, done, s3, Then(s4, Then(s5, Then(s6, Then(s7, Then(s8, s9))))), r, m, j0, mid, db.Snapshot());
      if r.Fail? {
        return;
      }
      mid := db.Snapshot();
      r, m := HandleEvents(Removed, events);
      done, n := Advance(Apply, full, done, s4, Then(s5, Then(s6, Then(s7, Then(s8, s9)))), r, m, j0, mid, db.Snapshot());
      if r.Fail? {
        return;
      }
      mid := db.Snapshot();
      r, m := HandleEvents(AllRemoved, events);
      done, n := Advance(Apply, full, done, s5, Then(s6, Then(s7, Then(s8, s9))), r, m, j0, mid, db.Snapshot());
      if r.Fail? {
        return;
      }
      mid := db.Snapshot();
      r, m := HandleEvents(ExoDelegation, events);
      done, n := Advance(Apply, full, done, s6, Then(s7, Then(s8, s9)), r, m, j0, mid, db.Snapshot());
      if r.Fail? {
        return;
      }
      mid := db.Snapshot();
      r, m := HandleEvents(UndelegationStarted, events);
      done, n := Advance(Apply, full, done, s7, Then(s8, s9), r, m, j0, mid, db.Snapshot());
      if r.Fail? {
        return;
      }
      mid := db.Snapshot();
      r, m := HandleEvents(HoldCountChanged, events);
      done, n := Advance(Apply, full, done, s8, s9, r, m, j0, mid, db.Snapshot());
      if r.Fail? {
        return;
      }
      mid := db.Snapshot();
      r, m := HandleEvents(UndelegationSlashed, events);
      done, n := Advance(Apply, full, done, s9, Done(), r, m, j0, mid, db.Snapshot());
      if r.Fail? {
        return;
      }
      n := Finish(Apply, full, done, j0, db.Snapshot());
    }

    /** One statement the completions send: it leaves the record identities as they were. */
    method SendKeeping(w: Write, ghost recs: map<string, RecordRow>) returns (r: Outcome, ghost m: nat)
      requires !w.SaveRecord? && SameIdentities(db.records, recs)
      modifies db
      ensures Performed(Single(w), r, m) && db.Snapshot() == ApplyAll(Apply, old(db.Snapshot()), Single(w).writes[..m])
      ensures SameIdentities(db.records, recs)
    {
      ghost var mid := db.Snapshot();
      r := Send(w);
      IdentityStep(mid, w);
      SameIdentitiesTrans(db.records, mid.records, recs);
      m := Ran(Apply, w, r, mid, db.Snapshot());
    }

    /** The rest of one matured undelegation: the record's staker and asset are read,
        and for the native asset its operator too, before the exo-asset delegation
        is matured. */
    method MatureExo(recordId: string, amount: string, ghost recs: map<string, RecordRow>) returns (r: Outcome, ghost m: nat)
      requires SameIdentities(db.records, recs)
      modifies db
      ensures Performed(MaturedExo(recs, recordId, amount), r, m)
      ensures db.Snapshot() == ApplyAll(Apply, old(db.Snapshot()), MaturedExo(recs, recordId, amount).writes[..m])
      ensures SameIdentities(db.records, recs)
    {
      // GetStakerIDAssetIDFromUndelegationRecord
      if recordId !in db.records {
        return Fail(NoRows), 0;
      }
      var stakerId, assetId := db.records[recordId].stakerId, db.records[recordId].assetId;
      if assetId == ExocoreAssetID {
        // GetOperatorAddrFromUndelegationRecord
        var operatorAddr := db.records[recordId].operatorAddr;
        r, m := SendKeeping(External(MatureExoAssetUndelegation(stakerId, operatorAddr, amount)), recs);
      } else {
        r, m := Pass, 0;
      }
    }

    /** modules/delegation/handle_block.go `handleUndelegationCompletions`: the record
        reads see the records `recs` as far as their staker, asset and operator go. */
    method HandleUndelegationCompletions(height: int, events: seq<Event>, ghost recs: map<string, RecordRow>)
      returns (r: Outcome, ghost n: nat)
      requires SameIdentities(db.records, recs)
      modifies db
      ensures Performed(CompletionsScript(recs, height, events), r, n)
      ensures db.Snapshot() == ApplyAll(Apply, old(db.Snapshot()), CompletionsScript(recs, height, events).writes[..n])
      ensures SameIdentities(db.records, recs)
    {
      var evs := FindEventsByType(events, EventTypeUndelegationMatured);
      ghost var body := MaturedBody(recs, height);
      ghost var full, j0 := Loop(body, evs), db.Snapshot();
      ghost var done := Begin(Apply, full, j0);
      var i := 0;
      while i < |evs|
        invariant i <= |evs| && done.stop.None? && db.Snapshot() == ApplyAll(Apply, j0, done.writes)
        invariant full == Then(done, Loop(body, evs[i..]))
        invariant SameIdentities(db.records, recs)
      {
        LoopStep(body, evs, i);
        var x := Lookup(evs[i], MaturedKeys);
        if x.Err? {
          assert body(evs[i]) == Stop(x.error);
          n := Halt(Apply, full, done, x.error, j0, db.Snapshot());
          return Fail(x.error), n;
        }
        var recordId, amount := x.value[0], x.value[1];
        ghost var tail, rest := MaturedExo(recs, recordId, amount), Loop(body, evs[i + 1..]);
        assert body(evs[i]) == Then(Single(MatureRecord(recordId, amount, height)), tail);
        ThenAssociative(Single(MatureRecord(recordId, amount, height)), tail, rest);
        ghost var mid := db.Snapshot();
        ghost var m;
        r, m := SendKeeping(MatureRecord(recordId, amount, height), recs);
        done, n := Advance(Apply, full, done, Single(MatureRecord(recordId, amount, height)), Then(tail, rest), r, m, j0, mid, db.Snapshot());
        if r.Fail? {
          return;
        }
        mid := db.Snapshot();
        r, m := MatureExo(recordId, amount, recs);
        done, n := Advance(Apply, full, done, tail, rest, r, m, j0, mid, db.Snapshot());
        if r.Fail? {
          return;
        }
        i := i + 1;
      }
      assert evs[i..] == [];
      n := Finish(Apply, full, done, j0, db.Snapshot());
      r := Pass;
    }

    /** modules/delegation/handle_block.go `handleDelegationSlashings`. */
    method HandleDelegationSlashings(height: int, events: seq<Event>) returns (r: Outcome, ghost n: nat)
      modifies db
      ensures Performed(SlashingsScript(db.rowOrder, db.delegatedAmountOf, source, old(db.members), height, events), r, n)
      ensures db.Snapshot() == ApplyAll(Apply, old(db.Snapshot()),
                                        SlashingsScript(db.rowOrder, db.delegatedAmountOf, source, old(db.members), height, events).writes[..n])
    {
      var evs := FindEventsByType(events, EventTypeOperatorAssetSlashed);
      ghost var members0 := db.members;
      ghost var body := SlashedBody(db.rowOrder, db.delegatedAmountOf, source, members0, height);
      ghost var full, j0 := Loop(body, evs), db.Snapshot();
      ghost var done := Begin(Apply, full, j0);
      var i := 0;
      while i < |evs|
        invariant i <= |evs| && done.stop.None? && db.Snapshot() == ApplyAll(Apply, j0, done.writes)
        invariant full == Then(done, Loop(body, evs[i..]))
        invariant db.members == members0
      {
        LoopStep(body, evs, i);
        var x := Lookup(evs[i], SlashedKeys);
        if x.Err? {
          assert body(evs[i]) == Stop(x.error);
          n := Halt(Apply, full, done, x.error, j0, db.Snapshot());
          return Fail(x.error), n;
        }
        var assetId, operatorAddr := x.value[0], x.value[1];
        var rows := db.GetStakersByOperatorAsset(operatorAddr, assetId);
        if rows.None? {
          assert body(evs[i]) == Stop(DbError);
          n := Halt(Apply, full, done, DbError, j0, db.Snapshot());
          return Fail(DbError), n;
        }
        var stakerIds := rows.value;
        var inner := StakerSlashBody(db.delegatedAmountOf, source, height, assetId, operatorAddr);
        assert body(evs[i]) == Loop(inner, stakerIds);
        ghost var mid := db.Snapshot();
        ghost var m;
        r, m := RunEach(inner, stakerIds);
        StakerSlashesCall(db.delegatedAmountOf, source, height, assetId, operatorAddr, stakerIds, mid, m);
        done, n := Advance(Apply, full, done, Loop(inner, stakerIds), Loop(body, evs[i + 1..]), r, m, j0, mid, db.Snapshot());
        if r.Fail? {
          return;
        }
        i := i + 1;
      }
      assert evs[i..] == [];
      n := Finish(Apply, full, done, j0, db.Snapshot());
      r := Pass;
    }

    /** `HandleBlock` up to the delegation slashings. */
    method HandleBlockPrefix(block: Block) returns (r: Outcome, ghost n: nat)
      modifies db
      ensures Performed(BlockPrefix(old(db.records), block), r, n)
      ensures db.Snapshot() == ApplyAll(Apply, old(db.Snapshot()), BlockPrefix(old(db.records), block).writes[..n])
    {
      var b, e := block.beginBlockEvents, block.endBlockEvents;
      ghost var recs := db.records;
      ghost var s0, s1, s2 := HandlerScript(StateUpdated, b), HandlerScript(StateUpdated, e), HandlerScript(AllRemoved, b);
      ghost var s3, s4, s5 := HandlerScript(HoldCountChanged, e), CompletionsScript(recs, block.height, e), HandlerScript(UndelegationSlashed, b);
      ghost var full, j0 := BlockPrefix(recs, block), db.Snapshot();
      ThenDone(s5);
      ghost var done := Begin(Apply, full, j0);
      ghost var mid, m;
      mid := db.Snapshot();
      r, m := HandleEvents(StateUpdated, b);
      HandlerKeepsIdentities(StateUpdated, b, mid, m);
      done, n := Advance(Apply, full, done, s0, Then(s1, Then(s2, Then(s3, Then(s4, s5)))), r, m, j0, mid, db.Snapshot());
      if r.Fail? {
        return;
      }
      mid := db.Snapshot();
      r, m := HandleEvents(StateUpdated, e);
      HandlerKeepsIdentities(StateUpdated, e, mid, m);
      SameIdentitiesTrans(db.records, mid.records, recs);
      done, n := Advance(Apply, full, done, s1, Then(s2, Then(s3, Then(s4, s5))), r, m, j0, mid, db.Snapshot());
      if r.Fail? {
        return;
      }
      mid := db.Snapshot();
      r, m := HandleEvents(AllRemoved, b);
      HandlerKeepsIdentities(AllRemoved, b, mid, m);
      SameIdentitiesTrans(db.records, mid.records, recs);
      done, n := Advance(Apply, full, done, s2, Then(s3, Then(s4, s5)), r, m, j0, mid, db.Snapshot());
      if r.Fail? {
        return;
      }
      mid := db.Snapshot();
      r, m := HandleEvents(HoldCountChanged, e);
      HandlerKeepsIdentities(HoldCountChanged, e, mid, m);
      SameIdentitiesTrans(db.records, mid.records, recs);
      done, n := Advance(Apply, full, done, s3, Then(s4, s5), r, m, j0, mid, db.Snapshot());
      if r.Fail? {
        return;
      }
      mid := db.Snapshot();
      r, m := HandleUndelegationCompletions(block.height, e, recs);
      done, n := Advance(Apply, full, done, s4, s5, r, m, j0, mid, db.Snapshot());
      if r.Fail? {
        return;
      }
      mid := db.Snapshot();
      r, m := HandleEvents(UndelegationSlashed, b);
      done, n := Advance(Apply, full, done, s5, Done(), r, m, j0, mid, db.Snapshot());
      if r.Fail? {
        return;
      }
      n := Finish(Apply, full, done, j0, db.Snapshot());
    }

    /** modules/delegation/handle_block.go `HandleBlock`. */
    method HandleBlock(block: Block) returns (r: Outcome, ghost n: nat)
      modifies db
      ensures Performed(BlockScript(db.rowOrder, db.delegatedAmountOf, source, old(db.Snapshot()), block), r, n)
      ensures db.Snapshot() == ApplyAll(Apply, old(db.Snapshot()), BlockScript(db.rowOrder, db.delegatedAmountOf, source, old(db.Snapshot()), block).writes[..n])
    {
      ghost var j0 := db.Snapshot();
      ghost var prefix := BlockPrefix(j0.records, block);
      ghost var slash := SlashingsScript(db.rowOrder, db.delegatedAmountOf, source, ApplyAll(Apply, j0, prefix.writes).members,
                                         block.height, block.beginBlockEvents);
      ghost var full := BlockScript(db.rowOrder, db.delegatedAmountOf, source, j0, block);
      ThenDone(slash);
      ghost var done := Begin(Apply, full, j0);
      ghost var mid, m;
      mid := db.Snapshot();
      r, m := HandleBlockPrefix(block);
      done, n := Advance(Apply, full, done, prefix, Then(slash, Done()), r, m, j0, mid, db.Snapshot());
      if r.Fail? {
        return;
      }
      NothingFirst(prefix);
      mid := db.Snapshot();
      r, m := HandleDelegationSlashings(block.height, block.beginBlockEvents);
      done, n := Advance(Apply, full, done, slash, Done(), r, m, j0, mid, db.Snapshot());
      if r.Fail? {
        return;
      }
      n := Finish(Apply, full, done, j0, db.Snapshot());
    }

    /** The stakers of each operator and asset: a loop over the entries around a loop
        over each entry's stakers. */
    method SaveStakersByOperator(xs: seq<StakersByOperator>) returns (r: Outcome, ghost n: nat)
      modifies db
      ensures Performed(Loop(MembersBody(parseJoinedKey), xs), r, n)
      ensures db.Snapshot() == ApplyAll(Apply, old(db.Snapshot()), Loop(MembersBody(parseJoinedKey), xs).writes[..n])
    {
      ghost var body := MembersBody(parseJoinedKey);
      ghost var full, j0 := Loop(body, xs), db.Snapshot();
      ghost var done := Begin(Apply, full, j0);
      var i := 0;
      while i < |xs|
        invariant i <= |xs| && done.stop.None? && db.Snapshot() == ApplyAll(Apply, j0, done.writes)
        invariant full == Then(done, Loop(body, xs[i..]))
      {
        LoopStep(body, xs, i);
        var parsed := parseJoinedKey(xs[i].key);
        if parsed.None? {
          assert body(xs[i]) == Stop(ParseError(xs[i].key));
          n := Halt(Apply, full, done, ParseError(xs[i].key), j0, db.Snapshot());
          return Fail(ParseError(xs[i].key)), n;
        }
        var operatorAddr, assetId := parsed.value.0, parsed.value.1;
        assert body(xs[i]) == Loop(AppendBody(operatorAddr, assetId), xs[i].stakers);
        ghost var mid := db.Snapshot();
        ghost var m;
        r, m := RunEach(AppendBody(operatorAddr, assetId), xs[i].stakers);
        done, n := Advance(Apply, full, done, body(xs[i]), Loop(body, xs[i + 1..]), r, m, j0, mid, db.Snapshot());
        if r.Fail? {
          return;
        }
        i := i + 1;
      }
      assert xs[i..] == [];
      n := Finish(Apply, full, done, j0, db.Snapshot());
      r := Pass;
    }

    /** modules/delegation/handle_genesis.go `HandleGenesis`. */
    method HandleGenesis(decoded: Option<GenesisState>, initialHeight: int) returns (r: Outcome, ghost n: nat)
      modifies db
      ensures Performed(GenesisScript(parseStateKey, parseJoinedKey, recordKey, source, initialHeight, decoded), r, n)
      ensures db.Snapshot() == ApplyAll(Apply, old(db.Snapshot()),
                                        GenesisScript(parseStateKey, parseJoinedKey, recordKey, source, initialHeight, decoded).writes[..n])
    {
      if decoded.None? {
        return Fail(DecodeError), 0;
      }
      var g := decoded.value;
      ghost var s0, s1 := Loop(AssociationBody(), g.associations), Loop(StateBody(parseStateKey, source, initialHeight), g.delegationStates);
      ghost var s2, s3 := Loop(MembersBody(parseJoinedKey), g.stakersByOperator), Loop(RecordBody(recordKey), g.undelegations);
      ghost var full, j0 := GenesisScript(parseStateKey, parseJoinedKey, recordKey, source, initialHeight, decoded), db.Snapshot();
      ThenDone(s3);
      ghost var done := Begin(Apply, full, j0);
      ghost var mid, m;
      mid := db.Snapshot();
      r, m := RunEach(AssociationBody(), g.associations);
      done, n := Advance(Apply, full, done, s0, Then(s1, Then(s2, s3)), r, m, j0, mid, db.Snapshot());
      if r.Fail? {
        return;
      }
      mid := db.Snapshot();
      r, m := RunEach(StateBody(parseStateKey, source, initialHeight), g.delegationStates);
      done, n := Advance(Apply, full, done, s1, Then(s2, s3), r, m, j0, mid, db.Snapshot());
      if r.Fail? {
        return;
      }
      mid := db.Snapshot();
      r, m := SaveStakersByOperator(g.stakersByOperator);
      done, n := Advance(Apply, full, done, s2, s3, r, m, j0, mid, db.Snapshot());
      if r.Fail? {
        return;
      }
      mid := db.Snapshot();
      r, m := RunEach(RecordBody(recordKey), g.undelegations);
      done, n := Advance(Apply, full, done, s3, Done(), r, m, j0, mid, db.Snapshot());
      if r.Fail? {
        return;
      }
      n := Finish(Apply, full, done, j0, db.Snapshot());
    }
  }

  // ---------------------------------------------------------------------------------
  // Frame lemmas the block handler needs

  /** The handlers other than the undelegation start never save a record. */
  lemma HandlerKeepsIdentities(h: Handler, events: seq<Event>, t: Tables, m: nat)
    requires !h.UndelegationStarted?
    requires m <= |HandlerScript(h, events).writes|
    ensures SameIdentities(ApplyAll(Apply, t, HandlerScript(h, events).writes[..m]).records, t.records)
  {
    HandlerNeverSaves(h, events);
    var ws := HandlerScript(h, events).writes;
    assert forall i :: 0 <= i < m ==> ws[..m][i] == ws[i];
    IdentitiesKept(t, ws[..m]);
  }

  predicate SavesNoRecord(w: Write)
  {
    !w.SaveRecord?
  }

  lemma HandlerNeverSaves(h: Handler, events: seq<Event>)
    requires !h.UndelegationStarted?
    ensures AllWrites(HandlerScript(h, events), SavesNoRecord)
  {
    forall e
      ensures AllWrites(EventBody(h)(e), SavesNoRecord)
    {
      var x := Lookup(e, Keys(h));
      if x.Ok? {
        assert EventBody(h)(e) == Body(h, x.value);
        BodyNeverSaves(h, x.value);
      }
    }
    LoopAllWrites(EventBody(h), FindEventsByType(events, EventType(h)), SavesNoRecord);
  }

  lemma BodyNeverSaves(h: Handler, v: seq<string>)
    requires !h.UndelegationStarted? && |v| == |Keys(h)|
    ensures AllWrites(Body(h, v), SavesNoRecord)
  {
    match h
    case StateUpdated =>
    case Associated =>
    case Disassociated =>
    case Appended =>
    case Removed =>
    case AllRemoved =>
    case ExoDelegation =>
    case HoldCountChanged =>
    case UndelegationSlashed =>
  }

  /** The delegation slashes of one event only record calls: the stakers and every
      other table stay as they were. */
  lemma StakerSlashesCall(prevOf: (string, string) -> Option<int>, source: Source, height: int, assetId: string, operatorAddr: string,
                          stakerIds: seq<string>, t: Tables, m: nat)
    ensures var ws := Loop(StakerSlashBody(prevOf, source, height, assetId, operatorAddr), stakerIds).writes;
      m <= |ws| ==> ApplyAll(Apply, t, ws[..m]) == t.(external := ApplyAll(Apply, t, ws[..m]).external)
  {
    var body := StakerSlashBody(prevOf, source, height, assetId, operatorAddr);
    var p := (w: Write) => w.External?;
    forall x
      ensures AllWrites(body(x), p)
    {
      match source(height, x, assetId, operatorAddr)
      case None =>
      case Some(current) =>
        match prevOf(x, assetId)
        case None =>
        case Some(prev) =>
          assert body(x).writes == [External(SlashCall(x, assetId, operatorAddr, prev - current))];
    }
    LoopAllWrites(body, stakerIds, p);
    var ws := Loop(body, stakerIds).writes;
    if m <= |ws| {
      assert forall i :: 0 <= i < m ==> ws[..m][i] == ws[i];
      CallsOnly(t, ws[..m]);
    }
  }

  // ---------------------------------------------------------------------------------
  // Properties of the transaction handlers

  /** The value of attribute `key` of the event ("" when the event lacks it; the
      lemmas below only read attributes the event carries). */
  function Attr(e: Event, key: string): string
  {
    match FindAttributeByKey(e, key)
    case Ok(v) => v
    case Err(_) => ""
  }

  /** The event carries every attribute handler `h` reads. */
  predicate Carries(e: Event, h: Handler)
  {
    forall k :: k in Keys(h) ==> HasKey(e.attributes, k)
  }

  /** An event carrying the attributes is handled by `Body` on their values. */
  lemma Decoded(h: Handler, e: Event) returns (v: seq<string>)
    requires Carries(e, h)
    ensures |v| == |Keys(h)| && forall i :: 0 <= i < |v| ==> HasKey(e.attributes, Keys(h)[i]) && v[i] == Attr(e, Keys(h)[i])
    ensures EventBody(h)(e) == Body(h, v)
  {
    v := Lookup(e, Keys(h)).value;
  }

  /** An event missing an attribute stops its handler with the first missing key, in
      the order the handler reads them, before any statement. */
  lemma MissingAttributeStops(h: Handler, e: Event)
    requires !Carries(e, h)
    ensures exists i :: 0 <= i < |Keys(h)| && !HasKey(e.attributes, Keys(h)[i])
                     && (forall j :: 0 <= j < i ==> HasKey(e.attributes, Keys(h)[j]))
                     && EventBody(h)(e) == Stop(MissingAttribute(Keys(h)[i]))
  {
    var x := Lookup(e, Keys(h));
    assert EventBody(h)(e) == Stop(x.error);
    var i :| 0 <= i < |Keys(h)| && x.error == MissingAttribute(Keys(h)[i]) && !HasKey(e.attributes, Keys(h)[i])
             && forall j :: 0 <= j < i ==> HasKey(e.attributes, Keys(h)[j]);
  }

  /** Once its attributes are read, an event only calls the store: its body stops
      exactly when the event lacks one of them. */
  lemma BodyStopsIffMissing(h: Handler, e: Event)
    ensures EventBody(h)(e).stop.None? <==> Carries(e, h)
  {
    var x := Lookup(e, Keys(h));
    if x.Ok? {
      assert EventBody(h)(e) == Body(h, x.value);
      if h.UndelegationStarted? {
        assert Body(h, x.value).stop.None?;
      }
    }
  }

  /** A handler saves the events of its batch one after the other: every event before
      the first one lacking an attribute was handled to the end, and the handler then
      returns that event's missing attribute, its statements being those of the
      earlier events; when no event lacks one, it runs to the end. */
  lemma HandlerStopsAtFirstMissing(h: Handler, evs: seq<Event>)
    ensures var k := FirstStop(EventBody(h), evs);
      && (forall i :: 0 <= i < k ==> Carries(evs[i], h))
      && (k < |evs| ==>
            && !Carries(evs[k], h)
            && HandlerLoop(h, evs) == Script(HandlerLoop(h, evs[..k]).writes, Some(Lookup(evs[k], Keys(h)).error)))
      && (k == |evs| ==> HandlerLoop(h, evs).stop.None?)
      && HandlerLoop(h, evs[..k]).stop.None?
  {
    var body, k := EventBody(h), FirstStop(EventBody(h), evs);
    LoopStopsAtFirst(body, evs);
    forall i | 0 <= i < k
      ensures Carries(evs[i], h)
    {
      BodyStopsIffMissing(h, evs[i]);
    }
    if k < |evs| {
      FirstMissingStops(h, evs[..k], evs[k]);
    }
  }

  lemma FirstMissingStops(h: Handler, pre: seq<Event>, e: Event)
    requires Loop(EventBody(h), pre).stop.None? && EventBody(h)(e).stop.Some?
    ensures !Carries(e, h)
    ensures Then(Loop(EventBody(h), pre), EventBody(h)(e)) == Script(Loop(EventBody(h), pre).writes, Some(Lookup(e, Keys(h)).error))
  {
    BodyStopsIffMissing(h, e);
    assert EventBody(h)(e) == Stop(Lookup(e, Keys(h)).error);
    assert Loop(EventBody(h), pre).writes + [] == Loop(EventBody(h), pre).writes;
  }

  /** A handler fails exactly when one of its events lacks an attribute it reads. */
  lemma HandlerFailsIffMissing(h: Handler, evs: seq<Event>)
    ensures HandlerLoop(h, evs).stop.None? <==> forall i :: 0 <= i < |evs| ==> Carries(evs[i], h)
  {
    HandlerStopsAtFirstMissing(h, evs);
  }

  /** The handlers `HandleTx` runs, in order, on the transaction's events. */
  const TxHandlers: seq<Handler> := [StateUpdated, Associated, Disassociated, Appended, Removed, AllRemoved,
                                     ExoDelegation, UndelegationStarted, HoldCountChanged, UndelegationSlashed]

  function TxStep(events: seq<Event>): Handler -> Script<Write>
  {
    (h: Handler) => HandlerScript(h, events)
  }

  /** `HandleTx` is a loop over its handlers in the order of `TxHandlers`. */
  lemma TxIsHandlerLoop(events: seq<Event>)
    ensures TxScript(events) == Loop(TxStep(events), TxHandlers)
  {
    var f, hs := TxStep(events), TxHandlers;
    assert hs[0..] == hs;
    LoopStep(f, hs, 0);
    LoopStep(f, hs, 1);
    LoopStep(f, hs, 2);
    LoopStep(f, hs, 3);
    LoopStep(f, hs, 4);
    LoopStep(f, hs, 5);
    LoopStep(f, hs, 6);
    LoopStep(f, hs, 7);
    LoopStep(f, hs, 8);
    LoopStep(f, hs, 9);
    assert hs[10..] == [];
    ThenDone(f(hs[9]));
  }

  /** `HandleTx` runs its handlers in the listed order and returns the first error:
      every handler before the `k`-th ran to the end, the `k`-th returned an error,
      and no later handler ran. */
  lemma TxRunsInOrder(events: seq<Event>)
    ensures var f, k := TxStep(events), FirstStop(TxStep(events), TxHandlers);
      && Loop(f, TxHandlers[..k]).stop.None?
      && (k < |TxHandlers| ==> HandlerScript(TxHandlers[k], events).stop.Some?)
      && TxScript(events) == if k < |TxHandlers| then Then(Loop(f, TxHandlers[..k]), HandlerScript(TxHandlers[k], events))
                             else Loop(f, TxHandlers[..k])
  {
    TxIsHandlerLoop(events);
    LoopStopsAtFirst(TxStep(events), TxHandlers);
  }

  /** handleDelegationStateUpdates: the five attributes land in the state's fields of
      the same name, although the constructor takes them in another order. */
  lemma StateEventSaved(e: Event)
    requires Carries(e, StateUpdated)
    ensures EventBody(StateUpdated)(e) == Single(UpsertState(DelegationState(
      Attr(e, AttributeKeyStakerID), Attr(e, AttributeKeyAssetID), Attr(e, AttributeKeyOperatorAddr),
      Attr(e, AttributeKeyUndelegatableShare), Attr(e, AttributeKeyWaitUndelegationAmount))))
  {
    var v := Decoded(StateUpdated, e);
  }

  /** An association names the staker's operator; a disassociation deletes by staker. */
  lemma AssociationEvents(e: Event)
    ensures Carries(e, Associated) ==>
      EventBody(Associated)(e) == Single(SetAssociation(Attr(e, AttributeKeyStakerID), Attr(e, AttributeKeyOperatorAddr)))
    ensures Carries(e, Disassociated) ==>
      EventBody(Disassociated)(e) == Single(DeleteAssociation(Attr(e, AttributeKeyStakerID)))
  {
    if Carries(e, Associated) {
      var v := Decoded(Associated, e);
    }
    if Carries(e, Disassociated) {
      var v := Decoded(Disassociated, e);
    }
  }

  /** Stakers appended, removed and all removed map one to one to the insertion into,
      the removal from and the bulk deletion of the (operator, asset) stakers. */
  lemma MembershipEvents(e: Event)
    ensures Carries(e, Appended) ==> EventBody(Appended)(e) == Single(AppendMember(
      Attr(e, AttributeKeyStakerID), Attr(e, AttributeKeyOperatorAddr), Attr(e, AttributeKeyAssetID)))
    ensures Carries(e, Removed) ==> EventBody(Removed)(e) == Single(RemoveMember(
      Attr(e, AttributeKeyStakerID), Attr(e, AttributeKeyOperatorAddr), Attr(e, AttributeKeyAssetID)))
    ensures Carries(e, AllRemoved) ==> EventBody(AllRemoved)(e) == Single(RemoveAllMembers(
      Attr(e, AttributeKeyOperatorAddr), Attr(e, AttributeKeyAssetID)))
  {
    AppendedEvent(e);
    RemovedEvent(e);
    AllRemovedEvent(e);
  }

  lemma AppendedEvent(e: Event)
    ensures Carries(e, Appended) ==> EventBody(Appended)(e) == Single(AppendMember(
      Attr(e, AttributeKeyStakerID), Attr(e, AttributeKeyOperatorAddr), Attr(e, AttributeKeyAssetID)))
  {
    if Carries(e, Appended) {
      var v := Decoded(Appended, e);
      assert Body(Appended, v) == Single(AppendMember(v[0], v[1], v[2]));
    }
  }

  lemma RemovedEvent(e: Event)
    ensures Carries(e, Removed) ==> EventBody(Removed)(e) == Single(RemoveMember(
      Attr(e, AttributeKeyStakerID), Attr(e, AttributeKeyOperatorAddr), Attr(e, AttributeKeyAssetID)))
  {
    if Carries(e, Removed) {
      var v := Decoded(Removed, e);
      assert Body(Removed, v) == Single(RemoveMember(v[0], v[1], v[2]));
    }
  }

  lemma AllRemovedEvent(e: Event)
    ensures Carries(e, AllRemoved) ==> EventBody(AllRemoved)(e) == Single(RemoveAllMembers(
      Attr(e, AttributeKeyOperatorAddr), Attr(e, AttributeKeyAssetID)))
  {
    if Carries(e, AllRemoved) {
      var v := Decoded(AllRemoved, e);
      assert Body(AllRemoved, v) == Single(RemoveAllMembers(v[0], v[1]));
    }
  }

  /** handleExoAssetDelegations, over the attribute values `v` (staker, operator,
      amount) of an event: the amount is accumulated into the delegated column of
      the (staker, operator) row and nothing into the other two. */
  lemma ExoDelegationAccumulates(t: Tables, e: Event, v: seq<string>)
    requires Lookup(e, Keys(ExoDelegation)) == Ok(v)
    requires ParseInteger(v[2]).Some?
    ensures EventBody(ExoDelegation)(e) == Single(AccumulateExo(ExoDelegationArgs(v[0], v[1], v[2], "0", "0")))
    ensures var u, key, a := Apply(t, AccumulateExo(ExoDelegationArgs(v[0], v[1], v[2], "0", "0"))).exo, (v[0], v[1]), ParseInteger(v[2]).value;
      && key in u
      && (key in t.exo ==> u[key] == t.exo[key].(delegated := t.exo[key].delegated + a))
      && (key !in t.exo ==> u[key] == ExoRow(a, 0, 0))
  {
    var d := ExoDelegationArgs(v[0], v[1], v[2], "0", "0");
    assert ParseInteger("0") == Some(0) by {
      ParseFormatInt(0);
    }
    AccumulateAdds(t, d);
  }

  /** handleUndelegationStarts, over the attribute values `v` of an event (staker,
      asset, operator, record id, amount, epoch identifier, epoch number, undelegation
      id, transaction hash, block number): the record saved holds the event's values,
      the amount among them, but an empty actual completed amount and hold count;
      the corrected constructor would have kept the amount and "0" there. */
  lemma StartRecordsAmountTwice(e: Event, v: seq<string>)
    requires Lookup(e, Keys(UndelegationStarted)) == Ok(v)
    ensures var s := EventBody(UndelegationStarted)(e);
      && s.stop.None? && 1 <= |s.writes| && s.writes[0].SaveRecord?
      && var r := s.writes[0].record;
      && r.recordId == v[3] && r.stakerId == v[0] && r.assetId == v[1] && r.operatorAddr == v[2]
      && r.txHash == v[8] && r.blockNumber == v[9] && r.completedEpochIdentifier == v[5]
      && r.completedEpochNumber == v[6] && r.undelegationId == v[7]
      && r.amount == v[4] && r.actualCompletedAmount == "" && r.holdCount == ""
    ensures var r := EventBody(UndelegationStarted)(e).writes[0].record;
      && var c := NewUndelegationRecordFromStr(v[3], v[0], v[1], v[2], v[8], v[9], v[5], v[6], v[7], v[4], v[4], "0");
      && c.actualCompletedAmount == v[4] && c.holdCount == "0"
      && r == c.(actualCompletedAmount := "", holdCount := "")
  {
    assert EventBody(UndelegationStarted)(e) == Body(UndelegationStarted, v);
    StartedBody(v);
  }

  /** Only an undelegation of the native asset also moves the amount from delegated
      to pending in the (staker, operator) row, after the record is saved. */
  lemma StartUndelegatesOnlyExo(e: Event, v: seq<string>)
    requires Lookup(e, Keys(UndelegationStarted)) == Ok(v)
    ensures var s := EventBody(UndelegationStarted)(e);
      && |s.writes| == (if v[1] == ExocoreAssetID then 2 else 1)
      && (v[1] == ExocoreAssetID ==> s.writes[1] == UndelegateExo(v[0], v[2], v[4]))
  {
    assert EventBody(UndelegationStarted)(e) == Body(UndelegationStarted, v);
    StartedBody(v);
  }

  /** The undelegation-start body on read attribute values: the record, then, for the
      native asset only, the move to pending undelegation. */
  lemma StartedBody(v: seq<string>)
    requires |v| == |Keys(UndelegationStarted)|
    ensures Body(UndelegationStarted, v)
         == Script([SaveRecord(StartedRecord(v))] + (if v[1] == ExocoreAssetID then [UndelegateExo(v[0], v[2], v[4])] else []), None)
  {
    ThenDone(Single(SaveRecord(StartedRecord(v))));
  }

  /** The hold-count body on read attribute values sends one hold-count update. */
  lemma HoldCountBody(v: seq<string>)
    requires |v| == |Keys(HoldCountChanged)|
    ensures Body(HoldCountChanged, v) == Single(SetHoldCount(v[0], v[1]))
  {
  }

  /** handleUndelegationHoldCountChanges, over the attribute values `v` (record id,
      hold count): the record's hold count becomes the event's value whatever it was
      (so of two changes the later one wins, by `HoldCountLastWins`). */
  lemma HoldCountAbsolute(t: Tables, e: Event, v: seq<string>)
    requires Lookup(e, Keys(HoldCountChanged)) == Ok(v)
    ensures EventBody(HoldCountChanged)(e) == Single(SetHoldCount(v[0], v[1]))
    ensures var u := ApplyAll(Apply, t, EventBody(HoldCountChanged)(e).writes);
      v[0] in t.records ==> v[0] in u.records && u.records[v[0]].holdCount == v[1]
  {
    var w := SetHoldCount(v[0], v[1]);
    assert EventBody(HoldCountChanged)(e) == Body(HoldCountChanged, v);
    HoldCountBody(v);
    ApplyAllSnoc(Apply, t, [], w);
    assert [] + [w] == [w];
    HoldCountSets(t, v[0], v[1]);
  }

  // ---------------------------------------------------------------------------------
  // Properties of the block handlers

  /** A matured undelegation, over the attribute values `v` (record id, amount): the
      record's maturity height becomes the block height and its actual completed
      amount the event amount; no other column and no other record changes. */
  lemma MaturedSetsHeight(recs: map<string, RecordRow>, height: int, t: Tables, e: Event, v: seq<string>)
    requires Lookup(e, MaturedKeys) == Ok(v)
    ensures var s := MaturedBody(recs, height)(e);
      && 1 <= |s.writes| && s.writes[0] == MatureRecord(v[0], v[1], height)
      && var u := Apply(t, s.writes[0]).records;
      && u.Keys == t.records.Keys
      && (v[0] in t.records ==> u[v[0]] == t.records[v[0]].(maturityHeight := Some(height), actualCompletedAmount := v[1]))
      && forall id :: id in t.records && id != v[0] ==> u[id] == t.records[id]
  {
    assert MaturedBody(recs, height)(e) == Then(Single(MatureRecord(v[0], v[1], height)), MaturedExo(recs, v[0], v[1]));
  }

  /** After maturing the record, the completion matures a native-asset pending
      undelegation with the record's staker and operator, and does nothing more for
      other assets; a record that is not there returns `NoRows`. */
  lemma MaturedExoOnly(recs: map<string, RecordRow>, height: int, e: Event, v: seq<string>)
    requires Lookup(e, MaturedKeys) == Ok(v)
    ensures var s := MaturedBody(recs, height)(e);
      && (s.stop.None? <==> v[0] in recs)
      && (v[0] !in recs ==> s.stop == Some(NoRows) && |s.writes| == 1)
      && (|s.writes| == 2 <==> v[0] in recs && recs[v[0]].assetId == ExocoreAssetID)
      && (|s.writes| == 2 ==>
            s.writes[1] == External(MatureExoAssetUndelegation(recs[v[0]].stakerId, recs[v[0]].operatorAddr, v[1])))
  {
    assert MaturedBody(recs, height)(e) == Then(Single(MatureRecord(v[0], v[1], height)), MaturedExo(recs, v[0], v[1]));
  }

  /** handleUndelegationSlashings passes the record id, the amount and the slash
      amount of the event on, in that order. */
  lemma UndelegationSlashForwardsAll(e: Event)
    requires Carries(e, UndelegationSlashed)
    ensures EventBody(UndelegationSlashed)(e) == Single(External(SlashUndelegationRecordOf(
      Attr(e, OperatorKeyRecordID), Attr(e, OperatorKeyAmount), Attr(e, OperatorKeySlashAmount))))
  {
    var v := Decoded(UndelegationSlashed, e);
  }

  /** The amount slashed from a staker: what the store recorded minus what the chain
      reports (0 when either is missing; the lemmas only use it when both are there). */
  function SlashedAmount(prevOf: (string, string) -> Option<int>, source: Source, height: int,
                         stakerId: string, assetId: string, operatorAddr: string): int
  {
    match (prevOf(stakerId, assetId), source(height, stakerId, assetId, operatorAddr))
    case (Some(prev), Some(current)) => prev - current
    case _ => 0
  }

  /** One staker of a slashed operator and asset: a failed query of the chain is a
      source error, a failed read of the stored amount a database error; otherwise the
      difference is slashed, from the staker's delegation of the asset, or for the
      native asset from the staker's delegation to the operator. */
  lemma StakerSlashRouting(prevOf: (string, string) -> Option<int>, source: Source, height: int,
                           assetId: string, operatorAddr: string, stakerId: string)
    ensures var s := StakerSlashBody(prevOf, source, height, assetId, operatorAddr)(stakerId);
      var d := SlashedAmount(prevOf, source, height, stakerId, assetId, operatorAddr);
      && OneOrStop(s)
      && (source(height, stakerId, assetId, operatorAddr).None? ==> s == Stop(SourceError))
      && (source(height, stakerId, assetId, operatorAddr).Some? && prevOf(stakerId, assetId).None? ==> s == Stop(DbError))
      && (s.stop.None? <==> source(height, stakerId, assetId, operatorAddr).Some? && prevOf(stakerId, assetId).Some?)
      && (s.stop.None? && assetId != ExocoreAssetID ==> s.writes == [External(SlashStakerDelegation(stakerId, assetId, FormatInt(d)))])
      && (s.stop.None? && assetId == ExocoreAssetID ==> s.writes == [External(SlashExoAssetDelegation(stakerId, operatorAddr, FormatInt(d)))])
      && (s.stop.None? ==> ParseInteger(FormatInt(d)) == Some(prevOf(stakerId, assetId).value - source(height, stakerId, assetId, operatorAddr).value))
  {
    ParseFormatInt(SlashedAmount(prevOf, source, height, stakerId, assetId, operatorAddr));
  }

  /** The fan-out over the stakers of one slashed operator and asset: one slash per
      staker, in the order given, up to the first staker whose amounts cannot be read;
      that error ends the handler and no later staker is slashed. */
  lemma SlashFanOut(prevOf: (string, string) -> Option<int>, source: Source, height: int,
                    assetId: string, operatorAddr: string, stakerIds: seq<string>)
    ensures var body := StakerSlashBody(prevOf, source, height, assetId, operatorAddr);
      var s, k := Loop(body, stakerIds), FirstStop(body, stakerIds);
      && |s.writes| == k
      && (forall i :: 0 <= i < k ==> s.writes[i] == External(SlashCall(stakerIds[i], assetId, operatorAddr,
                                        SlashedAmount(prevOf, source, height, stakerIds[i], assetId, operatorAddr))))
      && (k < |stakerIds| ==> s.stop == Some(SourceError) || s.stop == Some(DbError))
      && (k == |stakerIds| ==> s.stop.None?)
  {
    var body := StakerSlashBody(prevOf, source, height, assetId, operatorAddr);
    forall x
      ensures OneOrStop(body(x))
    {
      StakerSlashRouting(prevOf, source, height, assetId, operatorAddr, x);
    }
    LoopSingles(body, stakerIds);
    var k := FirstStop(body, stakerIds);
    forall i | 0 <= i < k
      ensures body(stakerIds[i]).writes == [External(SlashCall(stakerIds[i], assetId, operatorAddr,
                                             SlashedAmount(prevOf, source, height, stakerIds[i], assetId, operatorAddr)))]
    {
      StakerSlashRouting(prevOf, source, height, assetId, operatorAddr, stakerIds[i]);
    }
    if k < |stakerIds| {
      StakerSlashRouting(prevOf, source, height, assetId, operatorAddr, stakerIds[k]);
    }
  }

  /** handleDelegationSlashings, over the attribute values `v` (asset, operator) of an
      operator-asset-slashed event: when the staker query fails the handler returns
      its error and slashes nobody. */
  lemma SlashQueryFailureStops(order: RowOrder, prevOf: (string, string) -> Option<int>, source: Source,
                               members: set<(string, string, string)>, height: int, e: Event, v: seq<string>)
    requires Lookup(e, SlashedKeys) == Ok(v)
    requires order(StakersOf(members, v[1], v[0])).None?
    ensures Loop(SlashedBody(order, prevOf, source, members, height), [e]) == Stop(DbError)
  {
    LoopOne(SlashedBody(order, prevOf, source, members, height), e);
  }

  /** handleDelegationSlashings, over the attribute values `v` (asset, operator) of an
      operator-asset-slashed event: when the store lists each staker of the operator
      and asset (and no other), a slash that runs to the end slashes exactly those
      stakers, each by its own difference. */
  lemma SlashVisitsMembers(order: RowOrder, prevOf: (string, string) -> Option<int>, source: Source,
                           members: set<(string, string, string)>, height: int, e: Event, v: seq<string>)
    requires Lookup(e, SlashedKeys) == Ok(v)
    requires order(StakersOf(members, v[1], v[0])).Some?
    requires forall x :: x in order(StakersOf(members, v[1], v[0])).value <==> x in StakersOf(members, v[1], v[0])
    requires SlashedBody(order, prevOf, source, members, height)(e).stop.None?
    ensures var ws := SlashedBody(order, prevOf, source, members, height)(e).writes;
      forall stakerId :: stakerId in StakersOf(members, v[1], v[0]) <==>
        exists i :: 0 <= i < |ws| && ws[i] == External(SlashCall(stakerId, v[0], v[1], SlashedAmount(prevOf, source, height, stakerId, v[0], v[1])))
  {
    var xs := order(StakersOf(members, v[1], v[0])).value;
    var body := StakerSlashBody(prevOf, source, height, v[0], v[1]);
    assert SlashedBody(order, prevOf, source, members, height)(e) == Loop(body, xs);
    SlashFanOut(prevOf, source, height, v[0], v[1], xs);
    var ws := Loop(body, xs).writes;
    assert |ws| == |xs|;
    forall stakerId | stakerId in StakersOf(members, v[1], v[0])
      ensures exists i :: 0 <= i < |ws| && ws[i] == External(SlashCall(stakerId, v[0], v[1], SlashedAmount(prevOf, source, height, stakerId, v[0], v[1])))
    {
      var i :| 0 <= i < |xs| && xs[i] == stakerId;
      assert ws[i] == External(SlashCall(stakerId, v[0], v[1], SlashedAmount(prevOf, source, height, stakerId, v[0], v[1])));
    }
    forall stakerId, i | 0 <= i < |ws| && ws[i] == External(SlashCall(stakerId, v[0], v[1], SlashedAmount(prevOf, source, height, stakerId, v[0], v[1])))
      ensures stakerId in StakersOf(members, v[1], v[0])
    {
      assert xs[i] == stakerId;
    }
  }

  // ---------------------------------------------------------------------------------
  // Removals of all stakers come before the delegation slashings of the same block

  /** A statement that adds no staker. */
  predicate AddsNoStaker(w: Write)
  {
    !w.AppendMember?
  }

  lemma BodyNeverAppends(h: Handler, v: seq<string>)
    requires !h.Appended? && |v| == |Keys(h)|
    ensures AllWrites(Body(h, v), AddsNoStaker)
  {
    if h.UndelegationStarted? {
      var tail := if v[1] == ExocoreAssetID then Single(UndelegateExo(v[0], v[2], v[4])) else Done();
      assert Body(h, v) == Then(Single(SaveRecord(StartedRecord(v))), tail);
      ThenAllWrites(Single(SaveRecord(StartedRecord(v))), tail, AddsNoStaker);
    }
  }

  /** Only the staker-appended handler ever adds a staker. */
  lemma HandlerNeverAppends(h: Handler, events: seq<Event>)
    requires !h.Appended?
    ensures AllWrites(HandlerScript(h, events), AddsNoStaker)
  {
    forall e
      ensures AllWrites(EventBody(h)(e), AddsNoStaker)
    {
      var x := Lookup(e, Keys(h));
      if x.Ok? {
        assert EventBody(h)(e) == Body(h, x.value);
        BodyNeverAppends(h, x.value);
      }
    }
    LoopAllWrites(EventBody(h), FindEventsByType(events, EventType(h)), AddsNoStaker);
  }

  /** Completions never add a staker. */
  lemma CompletionsNeverAppend(recs: map<string, RecordRow>, height: int, events: seq<Event>)
    ensures AllWrites(CompletionsScript(recs, height, events), AddsNoStaker)
  {
    forall e
      ensures AllWrites(MaturedBody(recs, height)(e), AddsNoStaker)
    {
      var x := Lookup(e, MaturedKeys);
      if x.Ok? {
        var tail := MaturedExo(recs, x.value[0], x.value[1]);
        assert MaturedBody(recs, height)(e) == Then(Single(MatureRecord(x.value[0], x.value[1], height)), tail);
        ThenAllWrites(Single(MatureRecord(x.value[0], x.value[1], height)), tail, AddsNoStaker);
      }
    }
    LoopAllWrites(MaturedBody(recs, height), FindEventsByType(events, EventTypeUndelegationMatured), AddsNoStaker);
  }

  /** The block handlers after the removals of all stakers add no staker. */
  lemma AfterRemovalsNoAppend(recs: map<string, RecordRow>, block: Block)
    ensures var s3, s4 := HandlerScript(HoldCountChanged, block.endBlockEvents), CompletionsScript(recs, block.height, block.endBlockEvents);
      var s5 := HandlerScript(UndelegationSlashed, block.beginBlockEvents);
      forall i :: 0 <= i < |s3.writes + (s4.writes + s5.writes)| ==> AddsNoStaker((s3.writes + (s4.writes + s5.writes))[i])
  {
    var s3, s4 := HandlerScript(HoldCountChanged, block.endBlockEvents), CompletionsScript(recs, block.height, block.endBlockEvents);
    var s5 := HandlerScript(UndelegationSlashed, block.beginBlockEvents);
    HandlerNeverAppends(HoldCountChanged, block.endBlockEvents);
    CompletionsNeverAppend(recs, block.height, block.endBlockEvents);
    HandlerNeverAppends(UndelegationSlashed, block.beginBlockEvents);
    var tail := s3.writes + (s4.writes + s5.writes);
    forall i | 0 <= i < |tail|
      ensures AddsNoStaker(tail[i])
    {
      if i < |s3.writes| {
        assert tail[i] == s3.writes[i];
      } else if i < |s3.writes| + |s4.writes| {
        assert tail[i] == s4.writes[i - |s3.writes|];
      } else {
        assert tail[i] == s5.writes[i - |s3.writes| - |s4.writes|];
      }
    }
  }

  /** Statements that add no staker leave at most the stakers there were. */
  lemma {:induction false} NoAppendShrinks(t: Tables, ws: seq<Write>)
    requires forall i :: 0 <= i < |ws| ==> AddsNoStaker(ws[i])
    ensures ApplyAll(Apply, t, ws).members <= t.members
    decreases |ws|
  {
    if ws != [] {
      var init := ws[..|ws| - 1];
      assert forall i :: 0 <= i < |init| ==> init[i] == ws[i];
      NoAppendShrinks(t, init);
      NoAppendStep(ApplyAll(Apply, t, init), ws[|ws| - 1]);
    }
  }

  lemma NoAppendStep(t: Tables, w: Write)
    requires AddsNoStaker(w)
    ensures Apply(t, w).members <= t.members
  {
    match w
    case RemoveMember(s, o, a) =>
    case RemoveAllMembers(o, a) =>
    case _ =>
  }

  /** The all-stakers-removed body on read attribute values sends one deletion. */
  lemma AllRemovedBody(v: seq<string>)
    requires |v| == |Keys(AllRemoved)|
    ensures Body(AllRemoved, v) == Single(RemoveAllMembers(v[0], v[1]))
  {
  }

  /** The all-stakers-removed handler sends one statement per event or stops. */
  lemma AllRemovedOneOrStop(e: Event)
    ensures OneOrStop(EventBody(AllRemoved)(e))
  {
    var x := Lookup(e, Keys(AllRemoved));
    if x.Ok? {
      assert EventBody(AllRemoved)(e) == Body(AllRemoved, x.value);
      AllRemovedBody(x.value);
    }
  }

  /** A completed all-stakers-removed handler deletes, event by event, the stakers of
      the event's operator and asset; every event it selected carried both attributes. */
  lemma AllRemovedWrites(events: seq<Event>)
    requires HandlerScript(AllRemoved, events).stop.None?
    ensures var evs, ws := FindEventsByType(events, EventType(AllRemoved)), HandlerScript(AllRemoved, events).writes;
      && |ws| == |evs|
      && (forall i :: 0 <= i < |evs| ==> Carries(evs[i], AllRemoved))
      && forall i :: 0 <= i < |evs| ==> ws[i] == RemoveAllMembers(Attr(evs[i], AttributeKeyOperatorAddr), Attr(evs[i], AttributeKeyAssetID))
  {
    var evs := FindEventsByType(events, EventType(AllRemoved));
    forall e
      ensures OneOrStop(EventBody(AllRemoved)(e))
    {
      AllRemovedOneOrStop(e);
    }
    LoopCompleted(EventBody(AllRemoved), evs);
    forall i | 0 <= i < |evs|
      ensures Carries(evs[i], AllRemoved)
      ensures HandlerScript(AllRemoved, events).writes[i]
           == RemoveAllMembers(Attr(evs[i], AttributeKeyOperatorAddr), Attr(evs[i], AttributeKeyAssetID))
    {
      BodyStopsIffMissing(AllRemoved, evs[i]);
      AllRemovedEvent(evs[i]);
    }
  }

  /** Statements that add no staker, one of which removes all stakers of (o, a),
      leave (o, a) with no staker. */
  lemma RemovedStaysEmpty(t: Tables, ws: seq<Write>, j: nat, rest: seq<Write>, o: string, a: string)
    requires j < |ws| && ws[j] == RemoveAllMembers(o, a)
    requires forall i :: 0 <= i < |ws| ==> AddsNoStaker(ws[i])
    requires forall i :: 0 <= i < |rest| ==> AddsNoStaker(rest[i])
    ensures StakersOf(ApplyAll(Apply, t, ws + rest).members, o, a) == {}
  {
    var before, after := ws[..j], ws[j + 1..] + rest;
    assert ws + rest == (before + [ws[j]]) + after;
    ApplyAllConcat(Apply, t, before + [ws[j]], after);
    ApplyAllSnoc(Apply, t, before, ws[j]);
    var u := ApplyAll(Apply, t, before + [ws[j]]);
    RemovalsExact(ApplyAll(Apply, t, before), "", o, a);
    assert forall i :: 0 <= i < |after| ==> AddsNoStaker(after[i]) by {
      forall i | 0 <= i < |after|
        ensures AddsNoStaker(after[i])
      {
        if i < |ws| - j - 1 {
          assert after[i] == ws[j + 1 + i];
        } else {
          assert after[i] == rest[i - (|ws| - j - 1)];
        }
      }
    }
    NoAppendShrinks(u, after);
    var m := ApplyAll(Apply, u, after).members;
    assert forall s :: s in StakersOf(m, o, a) ==> s in StakersOf(u.members, o, a);
  }

  /** A block prefix that runs to the end ran each of its six handlers to the end. */
  lemma PrefixCompleted(recs: map<string, RecordRow>, block: Block)
    requires BlockPrefix(recs, block).stop.None?
    ensures var b, en := block.beginBlockEvents, block.endBlockEvents;
      var s0, s1, s2 := HandlerScript(StateUpdated, b), HandlerScript(StateUpdated, en), HandlerScript(AllRemoved, b);
      var s3, s4, s5 := HandlerScript(HoldCountChanged, en), CompletionsScript(recs, block.height, en), HandlerScript(UndelegationSlashed, b);
      && s2.stop.None?
      && BlockPrefix(recs, block).writes == s0.writes + (s1.writes + (s2.writes + (s3.writes + (s4.writes + s5.writes))))
  {
  }

  /** `HandleBlock`: the BeginBlock removals of all stakers of an operator and asset
      run before the delegation slashings of the same block, and nothing in between
      adds a staker; so a slash of that operator and asset in the block slashes no
      staker. */
  lemma RemovalsBeforeSlashings(t0: Tables, block: Block, e: Event)
    requires BlockPrefix(t0.records, block).stop.None?
    requires e in FindEventsByType(block.beginBlockEvents, EventType(AllRemoved))
    ensures Carries(e, AllRemoved)
    ensures StakersOf(ApplyAll(Apply, t0, BlockPrefix(t0.records, block).writes).members,
                      Attr(e, AttributeKeyOperatorAddr), Attr(e, AttributeKeyAssetID)) == {}
  {
    var b, en := block.beginBlockEvents, block.endBlockEvents;
    var w0, w1 := HandlerScript(StateUpdated, b).writes, HandlerScript(StateUpdated, en).writes;
    var w2 := HandlerScript(AllRemoved, b).writes;
    var tail := HandlerScript(HoldCountChanged, en).writes + (CompletionsScript(t0.records, block.height, en).writes
                + HandlerScript(UndelegationSlashed, b).writes);
    PrefixCompleted(t0.records, block);
    AfterRemovalsNoAppend(t0.records, block);
    var evs := FindEventsByType(b, EventType(AllRemoved));
    var j :| 0 <= j < |evs| && evs[j] == e;
    AllRemovedWrites(b);
    HandlerNeverAppends(AllRemoved, b);
    ApplyAllConcat(Apply, t0, w0, w1 + (w2 + tail));
    var t1 := ApplyAll(Apply, t0, w0);
    ApplyAllConcat(Apply, t1, w1, w2 + tail);
    RemovedStaysEmpty(ApplyAll(Apply, t1, w1), w2, j, tail, Attr(e, AttributeKeyOperatorAddr), Attr(e, AttributeKeyAssetID));
  }

  /** So the delegation slashing of such an operator and asset in the same block runs
      over no staker. */
  lemma RemovedPairNotSlashed(order: RowOrder, prevOf: (string, string) -> Option<int>, source: Source,
                              t0: Tables, block: Block, e: Event, slashed: Event)
    requires BlockPrefix(t0.records, block).stop.None?
    requires e in FindEventsByType(block.beginBlockEvents, EventType(AllRemoved))
    requires Lookup(slashed, SlashedKeys) == Ok([Attr(e, AttributeKeyAssetID), Attr(e, AttributeKeyOperatorAddr)])
    ensures var members := ApplyAll(Apply, t0, BlockPrefix(t0.records, block).writes).members;
      SlashedBody(order, prevOf, source, members, block.height)(slashed)
      == match order({})
         case None => Stop(DbError)
         case Some(stakerIds) => Loop(StakerSlashBody(prevOf, source, block.height, Attr(e, AttributeKeyAssetID), Attr(e, AttributeKeyOperatorAddr)), stakerIds)
  {
    RemovalsBeforeSlashings(t0, block, e);
  }

  // ---------------------------------------------------------------------------------
  // Properties of the genesis load

  /** Associations: one staker-to-operator statement per association, in order. */
  lemma GenesisAssociationsSaved(xs: seq<Association>)
    ensures var s := Loop(AssociationBody(), xs);
      && s.stop.None? && |s.writes| == |xs|
      && forall i :: 0 <= i < |xs| ==> s.writes[i] == SetAssociation(xs[i].stakerId, xs[i].operator)
  {
    LoopOfSingles(AssociationBody(), (a: Association) => SetAssociation(a.stakerId, a.operator), xs);
  }

  /** Delegation states: a key that does not parse is an error; otherwise the state
      is saved under the parsed (staker, asset, operator) with strings that read back
      as the amounts; a native-asset state then also accumulates the amount the chain
      reports at the initial height as delegated and the waiting amount as pending,
      and a failed query of the chain is an error. */
  lemma GenesisStateSaved(parseKey: StateKeyParser, source: Source, initialHeight: int, x: StateEntry)
    ensures var s, k := StateBody(parseKey, source, initialHeight)(x), parseKey(x.key);
      && (k.None? ==> s == Stop(ParseError(x.key)))
      && (k.Some? ==>
            && 1 <= |s.writes| && s.writes[0].UpsertState?
            && var st := s.writes[0].state;
            && st.stakerId == k.value.0 && st.assetId == k.value.1 && st.operatorAddr == k.value.2
            && ParseDec(st.undelegatableShare) == Some(x.states.undelegatableShare)
            && ParseInteger(st.waitUndelegationAmount) == Some(x.states.waitUndelegationAmount)
            && (k.value.1 != ExocoreAssetID ==> s.stop.None? && |s.writes| == 1)
            && (k.value.1 == ExocoreAssetID && source(initialHeight, k.value.0, k.value.1, k.value.2).None? ==>
                  s.stop == Some(SourceError) && |s.writes| == 1)
            && (k.value.1 == ExocoreAssetID && source(initialHeight, k.value.0, k.value.1, k.value.2).Some? ==>
                  && s.stop.None? && |s.writes| == 2 && s.writes[1].External? && s.writes[1].call.AccumulateExoAssetDelegationOf?
                  && var d := s.writes[1].call.delegation;
                  && d.stakerId == k.value.0
                  && ParseInteger(d.delegated) == Some(source(initialHeight, k.value.0, k.value.1, k.value.2).value)
                  && ParseInteger(d.pendingUndelegation) == Some(x.states.waitUndelegationAmount)))
  {
    var k := parseKey(x.key);
    if k.Some? {
      var delegated := source(initialHeight, k.value.0, k.value.1, k.value.2);
      if delegated.Some? {
        ParseFormatInt(delegated.value);
      }
      ParseFormatInt(x.states.waitUndelegationAmount);
    }
  }

  function AppendsOf(operatorAddr: string, assetId: string, stakerIds: seq<string>): (r: seq<Write>)
    ensures |r| == |stakerIds| && forall j :: 0 <= j < |r| ==> r[j] == AppendMember(stakerIds[j], operatorAddr, assetId)
  {
    seq(|stakerIds|, j requires 0 <= j < |stakerIds| => AppendMember(stakerIds[j], operatorAddr, assetId))
  }

  /** The append statements of one stakers-by-operator entry whose key parses. */
  function MemberAppends(parseKey: JoinedKeyParser): StakersByOperator -> seq<Write>
  {
    (x: StakersByOperator) =>
      match parseKey(x.key)
      case None => []
      case Some(p) => AppendsOf(p.0, p.1, x.stakers)
  }

  /** Stakers by operator: a key that does not parse ends the load with an error;
      otherwise one append per (operator, asset, staker), entry by entry and staker by
      staker. */
  lemma {:induction false} GenesisMembersOnePerPair(parseKey: JoinedKeyParser, xs: seq<StakersByOperator>)
    ensures var s := Loop(MembersBody(parseKey), xs);
      && (s.stop.None? <==> forall i :: 0 <= i < |xs| ==> parseKey(xs[i].key).Some?)
      && (s.stop.None? ==> s.writes == Flatten(MemberAppends(parseKey), xs))
      && (s.stop.Some? ==> exists k :: 0 <= k < |xs| && parseKey(xs[k].key).None? && s.stop == Some(ParseError(xs[k].key)))
    decreases |xs|
  {
    if xs != [] {
      var rest := xs[1..];
      GenesisMembersOnePerPair(parseKey, rest);
      assert forall i :: 1 <= i < |xs| ==> xs[i] == rest[i - 1];
      var p := parseKey(xs[0].key);
      if p.Some? {
        var f := (st: string) => AppendMember(st, p.value.0, p.value.1);
        LoopOfSingles(AppendBody(p.value.0, p.value.1), f, xs[0].stakers);
        assert Loop(AppendBody(p.value.0, p.value.1), xs[0].stakers).writes == MemberAppends(parseKey)(xs[0]);
        assert MembersBody(parseKey)(xs[0]) == Loop(AppendBody(p.value.0, p.value.1), xs[0].stakers);
        var s := Loop(MembersBody(parseKey), rest);
        if s.stop.Some? {
          var k :| 0 <= k < |rest| && parseKey(rest[k].key).None? && s.stop == Some(ParseError(rest[k].key));
          assert xs[k + 1] == rest[k];
        }
      }
    }
  }

  /** The appends of an entry whose key parses are its stakers' appends under the
      parsed operator and asset. */
  lemma MemberAppendsOf(parseKey: JoinedKeyParser, x: StakersByOperator)
    requires parseKey(x.key).Some?
    ensures MemberAppends(parseKey)(x) == AppendsOf(parseKey(x.key).value.0, parseKey(x.key).value.1, x.stakers)
  {
  }

  /** So a loaded genesis appends every staker of every entry under the entry's
      operator and asset, ... */
  lemma GenesisMembersCover(parseKey: JoinedKeyParser, xs: seq<StakersByOperator>)
    requires forall i :: 0 <= i < |xs| ==> parseKey(xs[i].key).Some?
    ensures forall i, j :: 0 <= i < |xs| && 0 <= j < |xs[i].stakers| ==>
              AppendMember(xs[i].stakers[j], parseKey(xs[i].key).value.0, parseKey(xs[i].key).value.1) in Loop(MembersBody(parseKey), xs).writes
  {
    GenesisMembersOnePerPair(parseKey, xs);
    FlattenCover(MemberAppends(parseKey), xs);
    forall i, j | 0 <= i < |xs| && 0 <= j < |xs[i].stakers|
      ensures AppendMember(xs[i].stakers[j], parseKey(xs[i].key).value.0, parseKey(xs[i].key).value.1) in Loop(MembersBody(parseKey), xs).writes
    {
      MemberAppendsOf(parseKey, xs[i]);
      assert MemberAppends(parseKey)(xs[i])[j] == AppendMember(xs[i].stakers[j], parseKey(xs[i].key).value.0, parseKey(xs[i].key).value.1);
    }
  }

  /** Every append of the entries is that of a listed staker under its entry's parsed
      operator and asset. */
  lemma MemberAppendListed(parseKey: JoinedKeyParser, xs: seq<StakersByOperator>, w: Write)
    requires w in Flatten(MemberAppends(parseKey), xs)
    ensures exists i :: 0 <= i < |xs| && parseKey(xs[i].key).Some? && w.AppendMember?
              && w.stakerId in xs[i].stakers && w.operatorAddr == parseKey(xs[i].key).value.0 && w.assetId == parseKey(xs[i].key).value.1
  {
    FlattenCover(MemberAppends(parseKey), xs);
    var i :| 0 <= i < |xs| && w in MemberAppends(parseKey)(xs[i]);
    var q := parseKey(xs[i].key).value;
    MemberAppendsOf(parseKey, xs[i]);
    var ws := AppendsOf(q.0, q.1, xs[i].stakers);
    var j :| 0 <= j < |ws| && ws[j] == w;
    assert xs[i].stakers[j] in xs[i].stakers;
  }

  /** ... and appends nothing else. */
  lemma GenesisMembersOnly(parseKey: JoinedKeyParser, xs: seq<StakersByOperator>)
    requires forall i :: 0 <= i < |xs| ==> parseKey(xs[i].key).Some?
    ensures var ws := Loop(MembersBody(parseKey), xs).writes;
      forall k :: 0 <= k < |ws| ==>
        exists i :: 0 <= i < |xs| && parseKey(xs[i].key).Some? && ws[k].AppendMember?
          && ws[k].stakerId in xs[i].stakers && ws[k].operatorAddr == parseKey(xs[i].key).value.0 && ws[k].assetId == parseKey(xs[i].key).value.1
  {
    GenesisMembersOnePerPair(parseKey, xs);
    var ws := Flatten(MemberAppends(parseKey), xs);
    forall k | 0 <= k < |ws|
      ensures exists i :: 0 <= i < |xs| && parseKey(xs[i].key).Some? && ws[k].AppendMember?
                && ws[k].stakerId in xs[i].stakers && ws[k].operatorAddr == parseKey(xs[i].key).value.0 && ws[k].assetId == parseKey(xs[i].key).value.1
    {
      MemberAppendListed(parseKey, xs, ws[k]);
    }
  }

  /** Undelegation records: one record per undelegation, in order, under the record's
      key and with an amount that reads back; the actual completed amount and the hold
      count are empty, where the corrected constructor would store the actual amount
      and hold count 0. */
  lemma GenesisRecordsDropCompletion(recordKey: RecordKeyOf, us: seq<UndelegationInfo>)
    ensures var s := Loop(RecordBody(recordKey), us);
      && s.stop.None? && |s.writes| == |us|
      && forall i :: 0 <= i < |us| ==>
           && s.writes[i].SaveRecord?
           && var r := s.writes[i].record;
           && r.recordId == recordKey(us[i]) && r.stakerId == us[i].stakerId && r.assetId == us[i].assetId
           && r.operatorAddr == us[i].operatorAddr
           && ParseInteger(r.amount) == Some(us[i].amount)
           && r.actualCompletedAmount == "" && r.holdCount == ""
           && var c := NewUndelegationRecordCorrected(recordKey, us[i], 0);
           && ParseInteger(c.holdCount) == Some(0)
           && ParseInteger(c.actualCompletedAmount) == Some(us[i].actualCompletedAmount)
           && r == c.(actualCompletedAmount := "", holdCount := "")
  {
    LoopOfSingles(RecordBody(recordKey), (u: UndelegationInfo) => SaveRecord(NewUndelegationRecord(recordKey, u, 0)), us);
  }
}
