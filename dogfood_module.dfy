// modules/dogfood: the schedules a transaction sets up, what BeginBlock and EndBlock
// complete or replace, and the genesis state.

module DogfoodModule {
  import opened Wrappers
  import opened Events
  import opened Replay
  import opened Decimal
  import opened DogfoodDb

  const EventTypeOptOutBegan := "dogfoodtypes.EventTypeOptOutBegan"
  const EventTypeConsAddrPruningScheduled := "dogfoodtypes.EventTypeConsAddrPruningScheduled"
  const EventTypeUndelegationMaturityScheduled := "dogfoodtypes.EventTypeUndelegationMaturityScheduled"
  const EventTypeLastTotalPowerUpdated := "dogfoodtypes.EventTypeLastTotalPowerUpdated"
  const EventTypeOptOutsFinished := "dogfoodtypes.EventTypeOptOutsFinished"
  const EventTypeConsAddrsPruned := "dogfoodtypes.EventTypeConsAddrsPruned"
  const EventTypeUndelegationsMatured := "dogfoodtypes.EventTypeUndelegationsMatured"
  const AttributeKeyOperator := "dogfoodtypes.AttributeKeyOperator"
  const AttributeKeyConsAddr := "dogfoodtypes.AttributeKeyConsAddr"
  const AttributeKeyRecordID := "dogfoodtypes.AttributeKeyRecordID"
  const AttributeKeyEpoch := "dogfoodtypes.AttributeKeyEpoch"

  /** A scheduled entry: the epoch (as a decimal string) and the row's key. */
  datatype Entry = Entry(epochNumber: string, key: string)

  // ---------------------------------------------------------------------------------
  // Transactions: the three scheduling handlers share one shape.

  function ScheduledEventType(kind: ScheduleKind): string
  {
    match kind
    case OptOutExpiries => EventTypeOptOutBegan
    case ConsAddrsToPrune => EventTypeConsAddrPruningScheduled
    case UndelegationMaturities => EventTypeUndelegationMaturityScheduled
  }

  function KeyAttribute(kind: ScheduleKind): string
  {
    match kind
    case OptOutExpiries => AttributeKeyOperator
    case ConsAddrsToPrune => AttributeKeyConsAddr
    case UndelegationMaturities => AttributeKeyRecordID
  }

  /** The key attribute is read before the epoch. */
  function DecodeScheduled(kind: ScheduleKind, e: Event): Result<Entry>
  {
    var v :- Lookup(e, [KeyAttribute(kind), AttributeKeyEpoch]);
    Ok(Entry(v[1], v[0]))
  }

  function ScheduledDecoder(kind: ScheduleKind): Event -> Result<Entry>
  {
    e => DecodeScheduled(kind, e)
  }

  function ScheduleWriter(kind: ScheduleKind): Entry -> Write
  {
    (x: Entry) => ScheduleEntry(kind, x.epochNumber, x.key)
  }

  function EmitScheduled(kind: ScheduleKind): Entry -> Script<Write>
  {
    (x: Entry) => Single(ScheduleWriter(kind)(x))
  }

  function ScheduledScript(kind: ScheduleKind, events: seq<Event>): Script<Write>
  {
    ForEach(ScheduledDecoder(kind), EmitScheduled(kind), FindEventsByType(events, ScheduledEventType(kind)))
  }

  /** `HandleTx`: opt-outs began, then pruning scheduled, then maturities scheduled. */
  function TxScript(events: seq<Event>): Script<Write>
  {
    Then(ScheduledScript(OptOutExpiries, events), Then(ScheduledScript(ConsAddrsToPrune, events), ScheduledScript(UndelegationMaturities, events)))
  }

  // ---------------------------------------------------------------------------------
  // Blocks.

  function CompletedEventType(kind: ScheduleKind): string
  {
    match kind
    case OptOutExpiries => EventTypeOptOutsFinished
    case ConsAddrsToPrune => EventTypeConsAddrsPruned
    case UndelegationMaturities => EventTypeUndelegationsMatured
  }

  function DecodeEpoch(e: Event): Result<string>
  {
    FindAttributeByKey(e, AttributeKeyEpoch)
  }

  function CompletionWriter(kind: ScheduleKind, height: int): string -> Write
  {
    (epoch: string) => CompleteEpoch(kind, epoch, height)
  }

  function EmitCompletion(kind: ScheduleKind, height: int): string -> Script<Write>
  {
    (epoch: string) => Single(CompletionWriter(kind, height)(epoch))
  }

  /** `handleOptOutsFinished`, `handleConsAddrsPruned`, `handleUndelegationsMatured`. */
  function CompletionScript(kind: ScheduleKind, height: int, events: seq<Event>): Script<Write>
  {
    ForEach(DecodeEpoch, EmitCompletion(kind, height), FindEventsByType(events, CompletedEventType(kind)))
  }

  /** Index of the first event without attributes, or |events|. */
  function FirstBare(events: seq<Event>): (k: nat)
    ensures k <= |events|
    ensures forall i :: 0 <= i < k ==> events[i].attributes != []
    ensures k < |events| ==> events[k].attributes == []
  {
    if events == [] || events[0].attributes == [] then 0
    else
      var k := FirstBare(events[1..]);
      assert forall i :: 1 <= i < k + 1 ==> events[i] == events[1..][i - 1];
      1 + k
  }

  /** The value `handleLastTotalPowerUpdated` reads from an event: its first attribute's
      (only ever asked of events that have one). */
  function PowerOf(e: Event): string
  {
    if e.attributes == [] then "" else e.attributes[0].value
  }

  /** The saves of `handleLastTotalPowerUpdated`: each event's first attribute value. */
  function PowerWrites(events: seq<Event>): (ws: seq<Write>)
    ensures |ws| == |events|
    ensures forall i :: 0 <= i < |ws| ==> ws[i] == UpsertLastTotalPower(PowerOf(events[i]))
    decreases |events|
  {
    if events == [] then []
    else
      var init := events[..|events| - 1];
      assert forall i :: 0 <= i < |init| ==> init[i] == events[i];
      PowerWrites(init) + [UpsertLastTotalPower(PowerOf(events[|events| - 1]))]
  }

  lemma PowerWritesNext(events: seq<Event>, i: nat)
    requires i < |events| && events[i].attributes != []
    ensures PowerWrites(events[..i + 1]) == PowerWrites(events[..i]) + [UpsertLastTotalPower(events[i].attributes[0].value)]
  {
    assert events[..i + 1][..i] == events[..i];
  }

  /** `handleLastTotalPowerUpdated`: saves each event's first attribute value and ignores
      the store's answer; `kept[i]` says whether the i-th save took effect. An event
      without attributes makes `event.Attributes[0]` panic. */
  function LastTotalPowerScript(events: seq<Event>, kept: seq<bool>): Script<Write>
    requires |kept| == FirstBare(FindEventsByType(events, EventTypeLastTotalPowerUpdated))
  {
    PowerScript(FindEventsByType(events, EventTypeLastTotalPowerUpdated), kept)
  }

  /** The saves of `handleLastTotalPowerUpdated` over the selected events `evs`. */
  function PowerScript(evs: seq<Event>, kept: seq<bool>): Script<Write>
    requires |kept| == FirstBare(evs)
  {
    var k := FirstBare(evs);
    Script(Kept(PowerWrites(evs[..k]), kept), if k < |evs| then Some(Panic("index out of range")) else None)
  }

  /** An `ExocoreValidator` as the chain's query returns it. */
  datatype ChainValidator = ChainValidator(address: string, power: int)

  /** `source.GetValidators(height)`. */
  type ValidatorSource = int -> Result<seq<ChainValidator>>

  /** One voting power per validator, all at `height`. */
  function VotingPowersOf(consAddress: string -> string, validators: seq<ChainValidator>, height: int): (r: seq<VotingPower>)
    ensures |r| == |validators|
    ensures forall i :: 0 <= i < |r| ==>
      r[i].height == height && r[i].power == validators[i].power && r[i].consAddr == consAddress(validators[i].address)
  {
    seq(|validators|, i requires 0 <= i < |validators| => VotingPower(consAddress(validators[i].address), validators[i].power, height))
  }

  /** `handleValidatorSetChange`: only when a last-total-power event is present, the
      validators at `height` are queried and their voting powers saved at once. */
  function ValidatorSetScript(source: ValidatorSource, consAddress: string -> string, height: int, events: seq<Event>): Script<Write>
  {
    if FindEventsByType(events, EventTypeLastTotalPowerUpdated) == [] then Done()
    else
      match source(height)
      case Err(e) => Stop(e)
      case Ok(vals) => Single(External(SaveValidatorsVotingPowers(VotingPowersOf(consAddress, vals, height))))
  }

  /** `HandleBlock`: EndBlock's last total power and validator set, then BeginBlock's
      opt-outs finished, addresses pruned and undelegations matured. */
  function BlockScript(source: ValidatorSource, consAddress: string -> string, block: Block, kept: seq<bool>): Script<Write>
    requires |kept| == FirstBare(FindEventsByType(block.endBlockEvents, EventTypeLastTotalPowerUpdated))
  {
    Then(LastTotalPowerScript(block.endBlockEvents, kept),
    Then(ValidatorSetScript(source, consAddress, block.height, block.endBlockEvents),
    Then(CompletionScript(OptOutExpiries, block.height, block.beginBlockEvents),
    Then(CompletionScript(ConsAddrsToPrune, block.height, block.beginBlockEvents),
         CompletionScript(UndelegationMaturities, block.height, block.beginBlockEvents)))))
  }

  // ---------------------------------------------------------------------------------
  // Genesis.

  /** A genesis validator: its public key in hex and its consensus power. */
  datatype GenesisValidator = GenesisValidator(publicKey: string, power: int)

  /** The result of `NewWrappedConsKeyFromHex` (nil is `None`): the consensus address
      and the outcome of converting the key to its bech32 form. */
  datatype ConsKey = ConsKey(consAddr: string, consPubKey: Result<string>)

  /** One epoch of a nested genesis schedule and the keys scheduled for it. */
  datatype EpochList = EpochList(epoch: int, keys: seq<string>)

  datatype GenesisState = GenesisState(
    params: DogfoodParams,
    valSet: seq<GenesisValidator>,
    optOutExpiries: seq<EpochList>,
    consensusAddrsToPrune: seq<EpochList>,
    undelegationMaturities: seq<EpochList>,
    lastTotalPower: int)

  /** `math.Int.Int64()` panics with this message on a value outside the int64 range. */
  const Int64OutOfBound := "Int64() out of bound"

  /** The validator and voting-power rows of the genesis validators, or the error of the
      first one whose key cannot be read or whose power in tokens does not fit an
      int64 (`TokensFromConsensusPower(...).Int64()` then panics). */
  function GenesisValidatorRows(wrapKey: string -> Option<ConsKey>, tokens: int -> int, vals: seq<GenesisValidator>, height: int)
    : Result<(seq<Validator>, seq<VotingPower>)>
    decreases |vals|
  {
    if vals == [] then Ok(([], []))
    else
      var rest :- GenesisValidatorRows(wrapKey, tokens, vals[..|vals| - 1], height);
      var v := vals[|vals| - 1];
      match wrapKey(v.publicKey)
      case None => Err(ParseError(v.publicKey))
      case Some(key) =>
        var pub :- key.consPubKey;
        if !(MinInt64 <= tokens(v.power) <= MaxInt64) then Err(Panic(Int64OutOfBound))
        else Ok((rest.0 + [Validator(key.consAddr, pub)], rest.1 + [VotingPower(key.consAddr, tokens(v.power), height)]))
  }

  /** The nested schedule flattened to one entry per (epoch, key) pair, in order; the
      epoch is rendered by `%d`. */
  function AllEntries(levels: seq<EpochList>): seq<Entry>
    decreases |levels|
  {
    if levels == [] then []
    else AllEntries(levels[..|levels| - 1]) + EntriesOf(levels[|levels| - 1])
  }

  function EntriesOf(l: EpochList): seq<Entry>
  {
    seq(|l.keys|, j requires 0 <= j < |l.keys| => Entry(FormatInt(l.epoch), l.keys[j]))
  }

  function GenesisValidatorsScript(wrapKey: string -> Option<ConsKey>, tokens: int -> int, g: GenesisState, height: int): Script<Write>
  {
    match GenesisValidatorRows(wrapKey, tokens, g.valSet, height)
    case Err(e) => Stop(e)
    case Ok(rows) => Then(Single(External(SaveValidators(rows.0))), Single(External(SaveValidatorsVotingPowers(rows.1))))
  }

  /** `HandleGenesis`: a section that does not decode is an error before any statement;
      then the parameters, the validators, the three schedules and the last total power. */
  function GenesisScript(wrapKey: string -> Option<ConsKey>, tokens: int -> int, decoded: Option<GenesisState>, height: int): Script<Write>
  {
    if decoded.None? then Stop(DecodeError)
    else
      var g := decoded.value;
      Then(Single(UpsertParams(g.params, height)),
      Then(GenesisValidatorsScript(wrapKey, tokens, g, height),
      Then(Each(ScheduleWriter(OptOutExpiries), AllEntries(g.optOutExpiries)),
      Then(Each(ScheduleWriter(ConsAddrsToPrune), AllEntries(g.consensusAddrsToPrune)),
      Then(Each(ScheduleWriter(UndelegationMaturities), AllEntries(g.undelegationMaturities)),
           Single(UpsertLastTotalPower(FormatInt(g.lastTotalPower))))))))
  }

  lemma {:induction false} AllEntriesConcat(a: seq<EpochList>, b: seq<EpochList>)
    ensures AllEntries(a + b) == AllEntries(a) + AllEntries(b)
    decreases |b|
  {
    if b == [] {
      assert a + b == a;
    } else {
      var b' := b[..|b| - 1];
      AllEntriesConcat(a, b');
      var last := b[|b| - 1];
      assert (a + b)[..|a + b| - 1] == a + b' && (a + b)[|a + b| - 1] == last;
      assert AllEntries(a + b) == AllEntries(a + b') + EntriesOf(last);
      assert AllEntries(b) == AllEntries(b') + EntriesOf(last);
    }
  }

  /** The entries of the first `i + 1` levels are those of the first `i`, then level `i`'s. */
  lemma AllEntriesNext(levels: seq<EpochList>, i: nat)
    requires i < |levels|
    ensures AllEntries(levels[..i + 1]) == AllEntries(levels[..i]) + EntriesOf(levels[i])
  {
    assert levels[..i + 1][..i] == levels[..i];
  }

  /** Key `j` of level `i` is the entry that follows the `j` keys of level `i` before it
      and all the entries of the levels before level `i`. */
  lemma AllEntriesAt(levels: seq<EpochList>, i: nat, j: nat)
    requires i < |levels| && j < |levels[i].keys|
    ensures |AllEntries(levels[..i])| + j < |AllEntries(levels)|
    ensures AllEntries(levels)[|AllEntries(levels[..i])| + j] == Entry(FormatInt(levels[i].epoch), levels[i].keys[j])
  {
    var pre, blk := AllEntries(levels[..i]), EntriesOf(levels[i]);
    AllEntriesNext(levels, i);
    AllEntriesPrefix(levels, i + 1);
    assert AllEntries(levels)[|pre| + j] == AllEntries(levels)[..|pre| + |blk|][|pre| + j];
    assert (pre + blk)[|pre| + j] == blk[j];
  }

  /** The save sent for entry `k`, key `j` of level `i`, is that key's save under the
      level's epoch number. */
  lemma ScheduleWriterAt(kind: ScheduleKind, levels: seq<EpochList>, i: nat, j: nat, k: nat)
    requires i < |levels| && j < |levels[i].keys| && k == |AllEntries(levels[..i])| + j
    ensures k < |AllEntries(levels)|
    ensures ScheduleWriter(kind)(AllEntries(levels)[k]) == ScheduleEntry(kind, FormatInt(levels[i].epoch), levels[i].keys[j])
  {
    AllEntriesAt(levels, i, j);
  }

  /** One save of the schedule loops: key `j` of level `i`, the `k`-th entry overall,
      was sent after the first `k` entries' saves were accepted. */
  lemma ScheduleSaved(kind: ScheduleKind, levels: seq<EpochList>, i: nat, j: nat, k: nat, r: Outcome, s0: Tables, mid: Tables, fin: Tables)
    requires i < |levels| && j < |levels[i].keys| && k == |AllEntries(levels[..i])| + j && k <= |AllEntries(levels)|
    requires mid == ApplyAll(Apply, s0, Each(ScheduleWriter(kind), AllEntries(levels)).writes[..k])
    requires (r == Pass && fin == Apply(mid, ScheduleEntry(kind, FormatInt(levels[i].epoch), levels[i].keys[j])))
          || (r == Fail(DbError) && fin == mid)
    ensures k < |AllEntries(levels)|
    ensures r.Pass? ==> fin == ApplyAll(Apply, s0, Each(ScheduleWriter(kind), AllEntries(levels)).writes[..k + 1])
    ensures r.Fail? ==> Performed(Each(ScheduleWriter(kind), AllEntries(levels)), r, k)
    ensures r.Fail? ==> fin == ApplyAll(Apply, s0, Each(ScheduleWriter(kind), AllEntries(levels)).writes[..k])
  {
    ScheduleWriterAt(kind, levels, i, j, k);
    EachRan(Apply, ScheduleWriter(kind), AllEntries(levels), k, r, s0, mid, fin);
  }

  /** The entries of a prefix of the levels are a prefix of the entries. */
  lemma AllEntriesPrefix(levels: seq<EpochList>, m: nat)
    requires m <= |levels|
    ensures |AllEntries(levels[..m])| <= |AllEntries(levels)|
    ensures AllEntries(levels[..m]) == AllEntries(levels)[..|AllEntries(levels[..m])|]
  {
    assert levels == levels[..m] + levels[m..];
    AllEntriesConcat(levels[..m], levels[m..]);
  }

  /** After the last key of level `i`, the entries sent so far are those of the first
      `i + 1` levels. */
  lemma LevelSaved(levels: seq<EpochList>, i: nat, k: nat)
    requires i < |levels| && k == |AllEntries(levels[..i])| + |levels[i].keys|
    ensures k == |AllEntries(levels[..i + 1])| && k <= |AllEntries(levels)|
  {
    AllEntriesNext(levels, i);
    AllEntriesPrefix(levels, i + 1);
  }

  class Module {
    const db: Store
    const source: ValidatorSource
    /** `sdk.ConsAddress(address).String()`. */
    const consAddress: string -> string
    /** `keytypes.NewWrappedConsKeyFromHex` and the conversions of the wrapped key. */
    const wrapKey: string -> Option<ConsKey>
    /** `sdk.TokensFromConsensusPower(power, sdk.DefaultPowerReduction).Int64()`. */
    const tokens: int -> int

    constructor(db: Store, source: ValidatorSource, consAddress: string -> string, wrapKey: string -> Option<ConsKey>, tokens: int -> int)
      ensures this.db == db && this.source == source && this.consAddress == consAddress
      ensures this.wrapKey == wrapKey && this.tokens == tokens
    {
      this.db, this.source, this.consAddress, this.wrapKey, this.tokens := db, source, consAddress, wrapKey, tokens;
    }

    /** The store's save for a schedule of kind `kind`. */
    method SaveScheduled(kind: ScheduleKind, epochNumber: string, key: string) returns (r: Outcome)
      modifies db
      ensures (r == Pass && db.Snapshot() == Apply(old(db.Snapshot()), ScheduleEntry(kind, epochNumber, key)))
           || (r == Fail(DbError) && db.Snapshot() == old(db.Snapshot()))
    {
      match kind
      case OptOutExpiries => r := db.SaveOptOutExpiry(epochNumber, key);
      case ConsAddrsToPrune => r := db.SaveConsensusAddrToPrune(epochNumber, key);
      case UndelegationMaturities => r := db.SaveUndelegationMaturity(epochNumber, key);
    }

    /** The store's completion of an epoch for a schedule of kind `kind`. */
    method CompleteScheduled(kind: ScheduleKind, epochNumber: string, height: int) returns (r: Outcome)
      modifies db
      ensures (r == Pass && db.Snapshot() == Apply(old(db.Snapshot()), CompleteEpoch(kind, epochNumber, height)))
           || (r == Fail(DbError) && db.Snapshot() == old(db.Snapshot()))
    {
      match kind
      case OptOutExpiries => r := db.CompleteOptOuts(epochNumber, height);
      case ConsAddrsToPrune => r := db.CompleteConsensusAddrsPruning(epochNumber, height);
      case UndelegationMaturities => r := db.MatureUndelegations(epochNumber, height);
    }

    /** modules/dogfood/handle_tx.go handleOptOutBeganEvents,
        handleConsAddrPruningScheduledEvents and handleUndelegationMaturityScheduledEvents. */
    method HandleScheduledEvents(kind: ScheduleKind, events: seq<Event>) returns (r: Outcome, ghost n: nat)
      modifies db
      ensures Performed(ScheduledScript(kind, events), r, n)
      ensures db.Snapshot() == ApplyAll(Apply, old(db.Snapshot()), ScheduledScript(kind, events).writes[..n])
    {
      var evs := FindEventsByType(events, ScheduledEventType(kind));
      ghost var full, j0 := ScheduledScript(kind, events), db.Snapshot();
      ghost var done := Begin(Apply, full, j0);
      var i := 0;
      while i < |evs|
        invariant i <= |evs| && done.stop.None? && db.Snapshot() == ApplyAll(Apply, j0, done.writes)
        invariant full == Then(done, ForEach(ScheduledDecoder(kind), EmitScheduled(kind), evs[i..]))
      {
        ForEachStep(ScheduledDecoder(kind), EmitScheduled(kind), evs, i);
        var x := DecodeScheduled(kind, evs[i]);
        if x.Err? {
          n := Halt(Apply, full, done, x.error, j0, db.Snapshot());
          return Fail(x.error), n;
        }
        ghost var mid := db.Snapshot();
        r := SaveScheduled(kind, x.value.epochNumber, x.value.key);
        ghost var m := Ran(Apply, ScheduleWriter(kind)(x.value), r, mid, db.Snapshot());
        done, n := Advance(Apply, full, done, EmitScheduled(kind)(x.value), ForEach(ScheduledDecoder(kind), EmitScheduled(kind), evs[i + 1..]), r, m, j0, mid, db.Snapshot());
        if r.Fail? {
          return;
        }
        i := i + 1;
      }
      assert evs[i..] == [];
      n := Finish(Apply, full, done, j0, db.Snapshot());
      r := Pass;
    }

    /** modules/dogfood/handle_tx.go HandleTx. */
    method HandleTx(events: seq<Event>) returns (r: Outcome, ghost n: nat)
      modifies db
      ensures Performed(TxScript(events), r, n)
      ensures db.Snapshot() == ApplyAll(Apply, old(db.Snapshot()), TxScript(events).writes[..n])
    {
      ghost var s0, s1, s2 := ScheduledScript(OptOutExpiries, events), ScheduledScript(ConsAddrsToPrune, events), ScheduledScript(UndelegationMaturities, events);
      ghost var full, j0 := TxScript(events), db.Snapshot();
      ThenDone(s2);
      ghost var done := Begin(Apply, full, j0);
      ghost var mid, m;
      mid := db.Snapshot();
      r, m := HandleScheduledEvents(OptOutExpiries, events);
      done, n := Advance(Apply, full, done, s0, Then(s1, s2), r, m, j0, mid, db.Snapshot());
      if r.Fail? {
        return;
      }
      mid := db.Snapshot();
      r, m := HandleScheduledEvents(ConsAddrsToPrune, events);
      done, n := Advance(Apply, full, done, s1, s2, r, m, j0, mid, db.Snapshot());
      if r.Fail? {
        return;
      }
      mid := db.Snapshot();
      r, m := HandleScheduledEvents(UndelegationMaturities, events);
      done, n := Advance(Apply, full, done, s2, Done(), r, m, j0, mid, db.Snapshot());
      if r.Fail? {
        return;
      }
      n := Finish(Apply, full, done, j0, db.Snapshot());
    }

    /** modules/dogfood/handle_block.go handleLastTotalPowerUpdated. */
    method HandleLastTotalPowerUpdated(events: seq<Event>) returns (r: Outcome, ghost kept: seq<bool>)
      modifies db
      ensures |kept| == FirstBare(FindEventsByType(events, EventTypeLastTotalPowerUpdated))
      ensures r == Planned(LastTotalPowerScript(events, kept))
      ensures db.Snapshot() == ApplyAll(Apply, old(db.Snapshot()), LastTotalPowerScript(events, kept).writes)
    {
      var evs := FindEventsByType(events, EventTypeLastTotalPowerUpdated);
      ghost var k := FirstBare(evs);
      kept := [];
      var i := 0;
      while i < |evs|
        invariant i <= k && |kept| == i
        invariant db.Snapshot() == ApplyAll(Apply, old(db.Snapshot()), Kept(PowerWrites(evs[..i]), kept))
      {
        if evs[i].attributes == [] {
          return Fail(Panic("index out of range")), kept;
        }
        var value := evs[i].attributes[0].value;
        ghost var mid := db.Snapshot();
        var ignored := db.SaveLastTotalPower(value);
        Keep(Apply, old(db.Snapshot()), PowerWrites(evs[..i]), kept, UpsertLastTotalPower(value), ignored, mid, db.Snapshot());
        PowerWritesNext(evs, i);
        kept := kept + [ignored.Pass?];
        i := i + 1;
      }
      r := Pass;
    }

    /** The voting powers of `handleValidatorSetChange`, one per validator. */
    method VotingPowers(validators: seq<ChainValidator>, height: int) returns (powers: seq<VotingPower>)
      ensures powers == VotingPowersOf(consAddress, validators, height)
    {
      powers := [];
      var i := 0;
      while i < |validators|
        invariant i <= |validators| && powers == VotingPowersOf(consAddress, validators[..i], height)
      {
        powers := powers + [VotingPower(consAddress(validators[i].address), validators[i].power, height)];
        i := i + 1;
      }
      assert validators[..i] == validators;
    }

    /** modules/dogfood/handle_block.go handleValidatorSetChange. */
    method HandleValidatorSetChange(height: int, events: seq<Event>) returns (r: Outcome, ghost n: nat)
      modifies db
      ensures Performed(ValidatorSetScript(source, consAddress, height, events), r, n)
      ensures db.Snapshot() == ApplyAll(Apply, old(db.Snapshot()), ValidatorSetScript(source, consAddress, height, events).writes[..n])
    {
      var evs := FindEventsByType(events, EventTypeLastTotalPowerUpdated);
      if |evs| == 0 {
        return Pass, 0;
      }
      var validators := source(height);
      if validators.Err? {
        return Fail(validators.error), 0;
      }
      var powers := VotingPowers(validators.value, height);
      ghost var mid := db.Snapshot();
      r := db.Call(SaveValidatorsVotingPowers(powers));
      n := Ran(Apply, External(SaveValidatorsVotingPowers(powers)), r, mid, db.Snapshot());
    }

    /** modules/dogfood/handle_block.go handleOptOutsFinished, handleConsAddrsPruned and
        handleUndelegationsMatured. */
    method HandleCompletionEvents(kind: ScheduleKind, height: int, events: seq<Event>) returns (r: Outcome, ghost n: nat)
      modifies db
      ensures Performed(CompletionScript(kind, height, events), r, n)
      ensures db.Snapshot() == ApplyAll(Apply, old(db.Snapshot()), CompletionScript(kind, height, events).writes[..n])
    {
      var evs := FindEventsByType(events, CompletedEventType(kind));
      ghost var full, j0 := CompletionScript(kind, height, events), db.Snapshot();
      ghost var done := Begin(Apply, full, j0);
      var i := 0;
      while i < |evs|
        invariant i <= |evs| && done.stop.None? && db.Snapshot() == ApplyAll(Apply, j0, done.writes)
        invariant full == Then(done, ForEach(DecodeEpoch, EmitCompletion(kind, height), evs[i..]))
      {
        ForEachStep(DecodeEpoch, EmitCompletion(kind, height), evs, i);
        var epoch := DecodeEpoch(evs[i]);
        if epoch.Err? {
          n := Halt(Apply, full, done, epoch.error, j0, db.Snapshot());
          return Fail(epoch.error), n;
        }
        ghost var mid := db.Snapshot();
        r := CompleteScheduled(kind, epoch.value, height);
        ghost var m := Ran(Apply, CompletionWriter(kind, height)(epoch.value), r, mid, db.Snapshot());
        done, n := Advance(Apply, full, done, EmitCompletion(kind, height)(epoch.value), ForEach(DecodeEpoch, EmitCompletion(kind, height), evs[i + 1..]), r, m, j0, mid, db.Snapshot());
        if r.Fail? {
          return;
        }
        i := i + 1;
      }
      assert evs[i..] == [];
      n := Finish(Apply, full, done, j0, db.Snapshot());
      r := Pass;
    }

    /** modules/dogfood/handle_block.go HandleBlock (without the double-sign evidence
        goroutine). `kept` records which last-total-power saves took effect. */
    method HandleBlock(block: Block) returns (r: Outcome, ghost n: nat, ghost kept: seq<bool>)
      modifies db
      ensures |kept| == FirstBare(FindEventsByType(block.endBlockEvents, EventTypeLastTotalPowerUpdated))
      ensures Performed(BlockScript(source, consAddress, block, kept), r, n)
      ensures db.Snapshot() == ApplyAll(Apply, old(db.Snapshot()), BlockScript(source, consAddress, block, kept).writes[..n])
    {
      ghost var j0 := db.Snapshot();
      r, kept := HandleLastTotalPowerUpdated(block.endBlockEvents);
      ghost var s0, s1, s2, s3, s4 := LastTotalPowerScript(block.endBlockEvents, kept), ValidatorSetScript(source, consAddress, block.height, block.endBlockEvents),
        CompletionScript(OptOutExpiries, block.height, block.beginBlockEvents), CompletionScript(ConsAddrsToPrune, block.height, block.beginBlockEvents),
        CompletionScript(UndelegationMaturities, block.height, block.beginBlockEvents);
      ghost var full := BlockScript(source, consAddress, block, kept);
      ThenDone(s4);
      ghost var done := Begin(Apply, full, j0);
      ghost var m := |s0.writes|;
      assert s0.writes[..m] == s0.writes;
      done, n := Advance(Apply, full, done, s0, Then(s1, Then(s2, Then(s3, s4))), r, m, j0, j0, db.Snapshot());
      if r.Fail? {
        return;
      }
      ghost var mid := db.Snapshot();
      r, m := HandleValidatorSetChange(block.height, block.endBlockEvents);
      done, n := Advance(Apply, full, done, s1, Then(s2, Then(s3, s4)), r, m, j0, mid, db.Snapshot());
      if r.Fail? {
        return;
      }
      mid := db.Snapshot();
      r, m := HandleCompletionEvents(OptOutExpiries, block.height, block.beginBlockEvents);
      done, n := Advance(Apply, full, done, s2, Then(s3, s4), r, m, j0, mid, db.Snapshot());
      if r.Fail? {
        return;
      }
      mid := db.Snapshot();
      r, m := HandleCompletionEvents(ConsAddrsToPrune, block.height, block.beginBlockEvents);
      done, n := Advance(Apply, full, done, s3, s4, r, m, j0, mid, db.Snapshot());
      if r.Fail? {
        return;
      }
      mid := db.Snapshot();
      r, m := HandleCompletionEvents(UndelegationMaturities, block.height, block.beginBlockEvents);
      done, n := Advance(Apply, full, done, s4, Done(), r, m, j0, mid, db.Snapshot());
      if r.Fail? {
        return;
      }
      n := Finish(Apply, full, done, j0, db.Snapshot());
    }

    /** The validator loop of modules/dogfood/handle_genesis.go: both slices are filled
        in order, and the first unreadable key returns an error. */
    method BuildGenesisValidators(vals: seq<GenesisValidator>, height: int) returns (res: Result<(seq<Validator>, seq<VotingPower>)>)
      ensures res == GenesisValidatorRows(wrapKey, tokens, vals, height)
    {
      var validators: seq<Validator> := [];
      var powers: seq<VotingPower> := [];
      var i := 0;
      while i < |vals|
        invariant i <= |vals| && GenesisValidatorRows(wrapKey, tokens, vals[..i], height) == Ok((validators, powers))
      {
        var v := vals[i];
        assert vals[..i + 1][..i] == vals[..i];
        var key := wrapKey(v.publicKey);
        if key.None? {
          assert GenesisValidatorRows(wrapKey, tokens, vals[..i + 1], height).Err?;
          GenesisValidatorRowsErr(vals, i + 1, height);
          return Err(ParseError(v.publicKey));
        }
        if key.value.consPubKey.Err? {
          GenesisValidatorRowsErr(vals, i + 1, height);
          return Err(key.value.consPubKey.error);
        }
        var amount := tokens(v.power);
        if !(MinInt64 <= amount <= MaxInt64) {
          GenesisValidatorRowsErr(vals, i + 1, height);
          return Err(Panic(Int64OutOfBound));
        }
        validators := validators + [Validator(key.value.consAddr, key.value.consPubKey.value)];
        powers := powers + [VotingPower(key.value.consAddr, amount, height)];
        i := i + 1;
      }
      assert vals[..i] == vals;
      res := Ok((validators, powers));
    }

    /** A prefix that fails makes the whole list fail with the same error. */
    lemma {:induction false} GenesisValidatorRowsErr(vals: seq<GenesisValidator>, k: nat, height: int)
      requires k <= |vals| && GenesisValidatorRows(wrapKey, tokens, vals[..k], height).Err?
      ensures GenesisValidatorRows(wrapKey, tokens, vals, height) == GenesisValidatorRows(wrapKey, tokens, vals[..k], height)
      decreases |vals| - k
    {
      if k < |vals| {
        assert vals[..k + 1][..k] == vals[..k];
        GenesisValidatorRowsErr(vals, k + 1, height);
      } else {
        assert vals[..k] == vals;
      }
    }

    /** The nested schedule loops of modules/dogfood/handle_genesis.go: one save per
        (epoch, key) pair, returning at the first rejected save. */
    method SaveSchedules(kind: ScheduleKind, levels: seq<EpochList>) returns (r: Outcome, ghost n: nat)
      modifies db
      ensures Performed(Each(ScheduleWriter(kind), AllEntries(levels)), r, n)
      ensures db.Snapshot() == ApplyAll(Apply, old(db.Snapshot()), Each(ScheduleWriter(kind), AllEntries(levels)).writes[..n])
    {
      ghost var xs := AllEntries(levels);
      ghost var k := 0;
      var i := 0;
      while i < |levels|
        invariant i <= |levels| && k == |AllEntries(levels[..i])| && k <= |xs|
        invariant db.Snapshot() == ApplyAll(Apply, old(db.Snapshot()), Each(ScheduleWriter(kind), xs).writes[..k])
      {
        var epochNumber := FormatInt(levels[i].epoch);
        ghost var base := k;
        var j := 0;
        while j < |levels[i].keys|
          invariant j <= |levels[i].keys| && k == base + j && k <= |xs|
          invariant db.Snapshot() == ApplyAll(Apply, old(db.Snapshot()), Each(ScheduleWriter(kind), xs).writes[..k])
        {
          ghost var mid := db.Snapshot();
          r := SaveScheduled(kind, epochNumber, levels[i].keys[j]);
          ScheduleSaved(kind, levels, i, j, k, r, old(db.Snapshot()), mid, db.Snapshot());
          if r.Fail? {
            return r, k;
          }
          j, k := j + 1, k + 1;
        }
        LevelSaved(levels, i, k);
        i := i + 1;
      }
      assert levels[..i] == levels;
      EachDone(Apply, ScheduleWriter(kind), xs, old(db.Snapshot()), db.Snapshot());
      r, n := Pass, |xs|;
    }

    /** modules/dogfood/handle_genesis.go HandleGenesis. `decoded` is the codec's reading
        of the module's genesis section; `initialHeight` the genesis document's. */
    method HandleGenesis(decoded: Option<GenesisState>, initialHeight: int) returns (r: Outcome, ghost n: nat)
      modifies db
      ensures Performed(GenesisScript(wrapKey, tokens, decoded, initialHeight), r, n)
      ensures db.Snapshot() == ApplyAll(Apply, old(db.Snapshot()), GenesisScript(wrapKey, tokens, decoded, initialHeight).writes[..n])
    {
      ghost var j0 := db.Snapshot();
      if decoded.None? {
        return Fail(DecodeError), 0;
      }
      var g := decoded.value;
      ghost var s0, s1 := Single(UpsertParams(g.params, initialHeight)), GenesisValidatorsScript(wrapKey, tokens, g, initialHeight);
      ghost var s2, s3, s4 := Each(ScheduleWriter(OptOutExpiries), AllEntries(g.optOutExpiries)),
        Each(ScheduleWriter(ConsAddrsToPrune), AllEntries(g.consensusAddrsToPrune)), Each(ScheduleWriter(UndelegationMaturities), AllEntries(g.undelegationMaturities));
      ghost var s5 := Single(UpsertLastTotalPower(FormatInt(g.lastTotalPower)));
      ghost var full := GenesisScript(wrapKey, tokens, decoded, initialHeight);
      ghost var rest1 := Then(s2, Then(s3, Then(s4, s5)));
      ThenDone(s5);
      ghost var done := Begin(Apply, full, j0);
      ghost var mid, m;
      mid := db.Snapshot();
      r := db.SaveDogfoodParams(g.params, initialHeight);
      m := Ran(Apply, UpsertParams(g.params, initialHeight), r, mid, db.Snapshot());
      done, n := Advance(Apply, full, done, s0, Then(s1, rest1), r, m, j0, mid, db.Snapshot());
      if r.Fail? {
        return;
      }
      // Validators, then their voting powers.
      var rows := BuildGenesisValidators(g.valSet, initialHeight);
      if rows.Err? {
        n := Halt(Apply, full, done, rows.error, j0, db.Snapshot());
        return Fail(rows.error), n;
      }
      ghost var first := Single(External(SaveValidators(rows.value.0)));
      ghost var second := Single(External(SaveValidatorsVotingPowers(rows.value.1)));
      ThenAssociative(first, second, rest1);
      mid := db.Snapshot();
      r := db.Call(SaveValidators(rows.value.0));
      m := Ran(Apply, External(SaveValidators(rows.value.0)), r, mid, db.Snapshot());
      done, n := Advance(Apply, full, done, first, Then(second, rest1), r, m, j0, mid, db.Snapshot());
      if r.Fail? {
        return;
      }
      mid := db.Snapshot();
      r := db.Call(SaveValidatorsVotingPowers(rows.value.1));
      m := Ran(Apply, External(SaveValidatorsVotingPowers(rows.value.1)), r, mid, db.Snapshot());
      done, n := Advance(Apply, full, done, second, rest1, r, m, j0, mid, db.Snapshot());
      if r.Fail? {
        return;
      }
      mid := db.Snapshot();
      r, m := SaveSchedules(OptOutExpiries, g.optOutExpiries);
      done, n := Advance(Apply, full, done, s2, Then(s3, Then(s4, s5)), r, m, j0, mid, db.Snapshot());
      if r.Fail? {
        return;
      }
      mid := db.Snapshot();
      r, m := SaveSchedules(ConsAddrsToPrune, g.consensusAddrsToPrune);
      done, n := Advance(Apply, full, done, s3, Then(s4, s5), r, m, j0, mid, db.Snapshot());
      if r.Fail? {
        return;
      }
      mid := db.Snapshot();
      r, m := SaveSchedules(UndelegationMaturities, g.undelegationMaturities);
      done, n := Advance(Apply, full, done, s4, s5, r, m, j0, mid, db.Snapshot());
      if r.Fail? {
        return;
      }
      mid := db.Snapshot();
      r := db.SaveLastTotalPower(FormatInt(g.lastTotalPower));
      m := Ran(Apply, UpsertLastTotalPower(FormatInt(g.lastTotalPower)), r, mid, db.Snapshot());
      done, n := Advance(Apply, full, done, s5, Done(), r, m, j0, mid, db.Snapshot());
      if r.Fail? {
        return;
      }
      n := Finish(Apply, full, done, j0, db.Snapshot());
    }
  }

  // ---------------------------------------------------------------------------------
  // Properties

  /** The scheduling handler of table `kind` saves, for each of its events in order, the
      event's epoch and key; the first event missing either ends it with that error. */
  lemma ScheduledScriptShape(kind: ScheduleKind, events: seq<Event>)
    ensures var evs := FindEventsByType(events, ScheduledEventType(kind));
      var k := FirstBad(ScheduledDecoder(kind), evs);
      && |ScheduledScript(kind, events).writes| == k
      && (forall i :: 0 <= i < k ==>
            ScheduledScript(kind, events).writes[i] ==
              ScheduleEntry(kind, FindAttributeByKey(evs[i], AttributeKeyEpoch).value, FindAttributeByKey(evs[i], KeyAttribute(kind)).value))
      && ScheduledScript(kind, events).stop == if k < |evs| then Some(DecodeScheduled(kind, evs[k]).error) else None
  {
    var evs := FindEventsByType(events, ScheduledEventType(kind));
    forall e | ScheduledDecoder(kind)(e).Ok?
      ensures EmitScheduled(kind)(ScheduledDecoder(kind)(e).value) == Single(ScheduleWriter(kind)(ScheduledDecoder(kind)(e).value))
    {
    }
    ForEachSingles(ScheduledDecoder(kind), EmitScheduled(kind), ScheduleWriter(kind), evs);
  }

  /** The completion handler of table `kind` marks, for each of its events in order, the
      event's epoch completed at the block's height. */
  lemma CompletionScriptShape(kind: ScheduleKind, height: int, events: seq<Event>)
    ensures var evs := FindEventsByType(events, CompletedEventType(kind));
      var k := FirstBad(DecodeEpoch, evs);
      && |CompletionScript(kind, height, events).writes| == k
      && (forall i :: 0 <= i < k ==>
            CompletionScript(kind, height, events).writes[i] == CompleteEpoch(kind, FindAttributeByKey(evs[i], AttributeKeyEpoch).value, height))
      && CompletionScript(kind, height, events).stop == if k < |evs| then Some(MissingAttribute(AttributeKeyEpoch)) else None
  {
    var evs := FindEventsByType(events, CompletedEventType(kind));
    forall e | DecodeEpoch(e).Ok?
      ensures EmitCompletion(kind, height)(DecodeEpoch(e).value) == Single(CompletionWriter(kind, height)(DecodeEpoch(e).value))
    {
    }
    ForEachSingles(DecodeEpoch, EmitCompletion(kind, height), CompletionWriter(kind, height), evs);
  }

  predicate OnlyScheduling(s: Script<Write>)
  {
    OnlySchedules(s.writes)
  }

  lemma OnlySchedulesThen(a: Script<Write>, b: Script<Write>)
    requires OnlyScheduling(a) && OnlyScheduling(b)
    ensures OnlyScheduling(Then(a, b))
  {
    if a.stop.None? {
      assert forall i :: |a.writes| <= i < |a.writes| + |b.writes| ==> Then(a, b).writes[i] == b.writes[i - |a.writes|];
    }
  }

  /** A transaction only schedules rows, so indexing it twice leaves the tables as after
      indexing it once. */
  lemma TxReplayIdempotent(t: Tables, events: seq<Event>)
    ensures ApplyAll(Apply, ApplyAll(Apply, t, TxScript(events).writes), TxScript(events).writes) == ApplyAll(Apply, t, TxScript(events).writes)
  {
    ScheduledScriptShape(OptOutExpiries, events);
    ScheduledScriptShape(ConsAddrsToPrune, events);
    ScheduledScriptShape(UndelegationMaturities, events);
    OnlySchedulesThen(ScheduledScript(ConsAddrsToPrune, events), ScheduledScript(UndelegationMaturities, events));
    OnlySchedulesThen(ScheduledScript(OptOutExpiries, events), Then(ScheduledScript(ConsAddrsToPrune, events), ScheduledScript(UndelegationMaturities, events)));
    ScheduleReplayIdempotent(t, TxScript(events).writes);
  }

  /** Last-total-power statements only: the singleton holds the last one's value and no
      other table changes. */
  lemma {:induction false} PowerWritesLastWins(t: Tables, ws: seq<Write>)
    requires forall i :: 0 <= i < |ws| ==> ws[i].UpsertLastTotalPower?
    ensures var u := ApplyAll(Apply, t, ws);
      && u.lastTotalPower == (if ws == [] then t.lastTotalPower else Some(ws[|ws| - 1].value))
      && u.(lastTotalPower := t.lastTotalPower) == t
    decreases |ws|
  {
    if ws != [] {
      PowerWritesLastWins(t, ws[..|ws| - 1]);
    }
  }

  /** `handleLastTotalPowerUpdated` only fails by panicking on a selected event without
      attributes; otherwise it returns nil whatever the store answered. */
  lemma LastTotalPowerOutcome(evs: seq<Event>, kept: seq<bool>)
    requires |kept| == FirstBare(evs)
    ensures var r := Planned(PowerScript(evs, kept));
      && (r == Pass <==> forall i :: 0 <= i < |evs| ==> evs[i].attributes != [])
      && (r != Pass ==> r == Fail(Panic("index out of range")))
  {
    var k := FirstBare(evs);
    if k < |evs| {
      assert evs[k].attributes == [];
    }
  }

  /** Afterwards the singleton holds the first attribute of some selected event, or is
      as before. No other table changes. */
  lemma LastTotalPowerTables(t: Tables, evs: seq<Event>, kept: seq<bool>)
    requires |kept| == FirstBare(evs)
    ensures var u := ApplyAll(Apply, t, PowerScript(evs, kept).writes);
      && u.(lastTotalPower := t.lastTotalPower) == t
      && (u.lastTotalPower == t.lastTotalPower ||
          exists i :: 0 <= i < |evs| && evs[i].attributes != [] && u.lastTotalPower == Some(evs[i].attributes[0].value))
  {
    var k := FirstBare(evs);
    var planned := PowerWrites(evs[..k]);
    var ws := Kept(planned, kept);
    KeptSubset(planned, kept);
    assert forall i :: 0 <= i < |ws| ==> ws[i] in planned;
    PowerWritesLastWins(t, ws);
    if ws != [] {
      var i :| 0 <= i < |planned| && planned[i] == ws[|ws| - 1];
      assert evs[..k][i] == evs[i];
      assert ApplyAll(Apply, t, ws).lastTotalPower == Some(evs[i].attributes[0].value);
    }
  }

  /** When every selected event has an attribute and every save was accepted, the
      singleton holds the last event's value. */
  lemma LastTotalPowerLastWins(t: Tables, evs: seq<Event>, kept: seq<bool>)
    requires |kept| == FirstBare(evs)
    ensures var u := ApplyAll(Apply, t, PowerScript(evs, kept).writes);
      |evs| > 0 && (forall i :: 0 <= i < |evs| ==> evs[i].attributes != []) && (forall i :: 0 <= i < |kept| ==> kept[i]) ==>
        u.lastTotalPower == Some(evs[|evs| - 1].attributes[0].value)
  {
    var k := FirstBare(evs);
    if |evs| > 0 && (forall i :: 0 <= i < |evs| ==> evs[i].attributes != []) && (forall i :: 0 <= i < |kept| ==> kept[i]) {
      var planned := PowerWrites(evs[..k]);
      KeptSubset(planned, kept);
      assert k == |evs|;
      PowerWritesLastWins(t, planned);
      assert planned[|planned| - 1] == UpsertLastTotalPower(PowerOf(evs[|evs| - 1]));
    }
  }

  /** The genesis validators, when every key can be read and every power in tokens fits
      an int64: one validator row and one voting power per genesis validator, in order,
      sharing the consensus address, the power converted to tokens and stamped with
      `height`. Otherwise an error, the int64 panic among them. */
  lemma {:induction false} GenesisValidatorRowsShape(wrapKey: string -> Option<ConsKey>, tokens: int -> int, vals: seq<GenesisValidator>, height: int)
    ensures var res := GenesisValidatorRows(wrapKey, tokens, vals, height);
      && (res.Ok? <==> forall i :: 0 <= i < |vals| ==>
            && wrapKey(vals[i].publicKey).Some? && wrapKey(vals[i].publicKey).value.consPubKey.Ok?
            && MinInt64 <= tokens(vals[i].power) <= MaxInt64)
      && (res.Ok? ==>
            && |res.value.0| == |vals| && |res.value.1| == |vals|
            && forall i :: 0 <= i < |vals| ==>
                 var key := wrapKey(vals[i].publicKey).value;
                 && res.value.0[i] == Validator(key.consAddr, key.consPubKey.value)
                 && res.value.1[i] == VotingPower(key.consAddr, tokens(vals[i].power), height))
    decreases |vals|
  {
    if vals != [] {
      var vals' := vals[..|vals| - 1];
      GenesisValidatorRowsShape(wrapKey, tokens, vals', height);
      assert forall i :: 0 <= i < |vals'| ==> vals'[i] == vals[i];
    }
  }

  /** Every (epoch, key) pair of the nested schedule is saved, the epoch rendered in base
      10, and nothing else is. */
  lemma {:induction false} AllEntriesMembers(levels: seq<EpochList>)
    ensures forall i, j :: 0 <= i < |levels| && 0 <= j < |levels[i].keys| ==>
      Entry(FormatInt(levels[i].epoch), levels[i].keys[j]) in AllEntries(levels)
    ensures forall x :: x in AllEntries(levels) ==>
      exists i, j :: 0 <= i < |levels| && 0 <= j < |levels[i].keys| && x == Entry(FormatInt(levels[i].epoch), levels[i].keys[j])
    decreases |levels|
  {
    if levels != [] {
      var levels' := levels[..|levels| - 1];
      var last := levels[|levels| - 1];
      AllEntriesMembers(levels');
      assert forall i :: 0 <= i < |levels'| ==> levels'[i] == levels[i];
      forall i, j | 0 <= i < |levels| && 0 <= j < |levels[i].keys|
        ensures Entry(FormatInt(levels[i].epoch), levels[i].keys[j]) in AllEntries(levels)
      {
        if i == |levels| - 1 {
          assert EntriesOf(last)[j] == Entry(FormatInt(levels[i].epoch), levels[i].keys[j]);
        }
      }
      forall x | x in AllEntries(levels)
        ensures exists i, j :: 0 <= i < |levels| && 0 <= j < |levels[i].keys| && x == Entry(FormatInt(levels[i].epoch), levels[i].keys[j])
      {
        if x !in AllEntries(levels') {
          var j :| 0 <= j < |EntriesOf(last)| && EntriesOf(last)[j] == x;
          assert x == Entry(FormatInt(levels[|levels| - 1].epoch), levels[|levels| - 1].keys[j]);
        }
      }
    }
  }

  /** A genesis section that decodes and whose validator keys can all be read plans, in
      order: the parameters at the initial height, the validators, their voting powers,
      one statement per flattened opt-out, pruning and maturity entry, and the last total
      power in base 10 last. */
  lemma GenesisScriptShape(wrapKey: string -> Option<ConsKey>, tokens: int -> int, g: GenesisState, height: int)
    requires GenesisValidatorRows(wrapKey, tokens, g.valSet, height).Ok?
    ensures var rows := GenesisValidatorRows(wrapKey, tokens, g.valSet, height).value;
      && GenesisScript(wrapKey, tokens, Some(g), height).stop.None?
      && GenesisScript(wrapKey, tokens, Some(g), height).writes ==
           [UpsertParams(g.params, height), External(SaveValidators(rows.0)), External(SaveValidatorsVotingPowers(rows.1))]
           + Each(ScheduleWriter(OptOutExpiries), AllEntries(g.optOutExpiries)).writes
           + Each(ScheduleWriter(ConsAddrsToPrune), AllEntries(g.consensusAddrsToPrune)).writes
           + Each(ScheduleWriter(UndelegationMaturities), AllEntries(g.undelegationMaturities)).writes
           + [UpsertLastTotalPower(FormatInt(g.lastTotalPower))]
  {
    var rows := GenesisValidatorRows(wrapKey, tokens, g.valSet, height).value;
    var ea, eb, ec := Each(ScheduleWriter(OptOutExpiries), AllEntries(g.optOutExpiries)).writes,
      Each(ScheduleWriter(ConsAddrsToPrune), AllEntries(g.consensusAddrsToPrune)).writes,
      Each(ScheduleWriter(UndelegationMaturities), AllEntries(g.undelegationMaturities)).writes;
    var p, v, w, l := UpsertParams(g.params, height), External(SaveValidators(rows.0)), External(SaveValidatorsVotingPowers(rows.1)),
      UpsertLastTotalPower(FormatInt(g.lastTotalPower));
    assert GenesisScript(wrapKey, tokens, Some(g), height).writes == [p] + ([v] + [w] + (ea + (eb + (ec + [l]))));
    assert [p] + ([v] + [w] + (ea + (eb + (ec + [l])))) == [p, v, w] + ea + eb + ec + [l];
  }

}
