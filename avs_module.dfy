// modules/avs: AVS creation events (transactions and BeginBlock) and the genesis state.

module AvsModule {
  import opened Wrappers
  import opened Events
  import opened Replay
  import Text
  import opened AvsDb

  // Event types and attribute keys are constants of the chain's x/avs and x/dogfood
  // modules; the model spells each by its Go name.
  const EventTypeAvsCreated := "avstypes.EventTypeAvsCreated"
  const EventTypeChainAvsCreated := "avstypes.EventTypeChainAvsCreated"
  const AttributeKeyAvsAddress := "avstypes.AttributeKeyAvsAddress"
  const AttributeKeyChainID := "avstypes.AttributeKeyChainID"
  const EventTypeDogfoodAvsCreated := "dogfoodtypes.EventTypeDogfoodAvsCreated"
  const DogfoodAttributeKeyAvsAddress := "dogfoodtypes.AttributeKeyAvsAddress"
  const AttributeKeyChainIDWithoutRev := "dogfoodtypes.AttributeKeyChainIDWithoutRev"

  datatype ChainAvs = ChainAvs(chainId: string, avsAddress: string)

  function DecodeAvsCreated(e: Event): Result<string>
  {
    FindAttributeByKey(e, AttributeKeyAvsAddress)
  }

  function EmitAvsCreated(avsAddress: string): Script<Write>
  {
    Single(InsertAvs(avsAddress))
  }

  function DecodeChainAvsCreated(e: Event): Result<ChainAvs>
  {
    var v :- Lookup(e, [AttributeKeyChainID, AttributeKeyAvsAddress]);
    Ok(ChainAvs(v[0], v[1]))
  }

  function EmitChainAvsCreated(c: ChainAvs): Script<Write>
  {
    Single(UpsertChainAvs(c.chainId, c.avsAddress))
  }

  /** The dogfood event names the address first, then the chain id. */
  function DecodeDogfoodAvsCreated(e: Event): Result<ChainAvs>
  {
    var v :- Lookup(e, [DogfoodAttributeKeyAvsAddress, AttributeKeyChainIDWithoutRev]);
    Ok(ChainAvs(v[1], v[0]))
  }

  /** The dogfood AVS is recorded both as an AVS and as the AVS of its chain. */
  function EmitDogfoodAvsCreated(c: ChainAvs): Script<Write>
  {
    Then(Single(InsertAvs(c.avsAddress)), Single(UpsertChainAvs(c.chainId, c.avsAddress)))
  }

  function AvsCreatedScript(events: seq<Event>): Script<Write>
  {
    ForEach(DecodeAvsCreated, EmitAvsCreated, FindEventsByType(events, EventTypeAvsCreated))
  }

  function ChainAvsCreatedScript(events: seq<Event>): Script<Write>
  {
    ForEach(DecodeChainAvsCreated, EmitChainAvsCreated, FindEventsByType(events, EventTypeChainAvsCreated))
  }

  function DogfoodAvsCreatedScript(events: seq<Event>): Script<Write>
  {
    ForEach(DecodeDogfoodAvsCreated, EmitDogfoodAvsCreated, FindEventsByType(events, EventTypeDogfoodAvsCreated))
  }

  /** A transaction: AVS creations first, then chain-AVS mappings. */
  function TxScript(events: seq<Event>): Script<Write>
  {
    Then(AvsCreatedScript(events), ChainAvsCreatedScript(events))
  }

  /** The genesis state of x/avs, as the chain codec decodes it. */
  datatype AvsInfo = AvsInfo(avsAddress: string)
  datatype ChainIdInfo = ChainIdInfo(chainId: string, avsAddress: string)
  datatype GenesisState = GenesisState(avsInfos: seq<AvsInfo>, chainIdInfos: seq<ChainIdInfo>)

  function AvsInfoWrites(infos: seq<AvsInfo>): seq<Write>
  {
    seq(|infos|, i requires 0 <= i < |infos| => InsertAvs(Text.ToLower(infos[i].avsAddress)))
  }

  function ChainIdInfoWrites(infos: seq<ChainIdInfo>): seq<Write>
  {
    seq(|infos|, i requires 0 <= i < |infos| => UpsertChainAvs(infos[i].chainId, Text.ToLower(infos[i].avsAddress)))
  }

  /** Genesis stores every AVS address, then every chain mapping, with the address lower-cased. */
  function GenesisWrites(g: GenesisState): seq<Write>
  {
    AvsInfoWrites(g.avsInfos) + ChainIdInfoWrites(g.chainIdInfos)
  }

  lemma AvsInfoWritesNext(infos: seq<AvsInfo>, i: nat)
    requires i < |infos|
    ensures AvsInfoWrites(infos)[..i + 1] == AvsInfoWrites(infos)[..i] + [InsertAvs(Text.ToLower(infos[i].avsAddress))]
  {
  }

  lemma ChainIdInfoWritesNext(infos: seq<ChainIdInfo>, j: nat)
    requires j < |infos|
    ensures ChainIdInfoWrites(infos)[..j + 1]
         == ChainIdInfoWrites(infos)[..j] + [UpsertChainAvs(infos[j].chainId, Text.ToLower(infos[j].avsAddress))]
  {
  }

  class Module {
    const db: Store

    constructor(db: Store)
      ensures this.db == db
    {
      this.db := db;
    }

    /** modules/avs/handle_tx.go handleAvsCreatedEvents. */
    method HandleAvsCreatedEvents(events: seq<Event>) returns (r: Outcome, ghost n: nat)
      modifies db
      ensures Performed(AvsCreatedScript(events), r, n)
      ensures db.Snapshot() == ApplyAll(Apply, old(db.Snapshot()), AvsCreatedScript(events).writes[..n])
    {
      var evs := FindEventsByType(events, EventTypeAvsCreated);
      ghost var full, j0 := AvsCreatedScript(events), db.Snapshot();
      ghost var done := Begin(Apply, full, j0);
      var i := 0;
      while i < |evs|
        invariant i <= |evs| && done.stop.None? && db.Snapshot() == ApplyAll(Apply, j0, done.writes)
        invariant full == Then(done, ForEach(DecodeAvsCreated, EmitAvsCreated, evs[i..]))
      {
        ForEachStep(DecodeAvsCreated, EmitAvsCreated, evs, i);
        var avsAddress := DecodeAvsCreated(evs[i]);
        if avsAddress.Err? {
          n := Halt(Apply, full, done, avsAddress.error, j0, db.Snapshot());
          return Fail(avsAddress.error), n;
        }
        ghost var mid := db.Snapshot();
        r := db.SaveAvsAddr(avsAddress.value);
        ghost var m := Ran(Apply, InsertAvs(avsAddress.value), r, mid, db.Snapshot());
        done, n := Advance(Apply, full, done, EmitAvsCreated(avsAddress.value), ForEach(DecodeAvsCreated, EmitAvsCreated, evs[i + 1..]), r, m, j0, mid, db.Snapshot());
        if r.Fail? {
          return;
        }
        i := i + 1;
      }
      assert evs[i..] == [];
      n := Finish(Apply, full, done, j0, db.Snapshot());
      r := Pass;
    }

    /** modules/avs/handle_tx.go handleChainAvsCreatedEvents. */
    method HandleChainAvsCreatedEvents(events: seq<Event>) returns (r: Outcome, ghost n: nat)
      modifies db
      ensures Performed(ChainAvsCreatedScript(events), r, n)
      ensures db.Snapshot() == ApplyAll(Apply, old(db.Snapshot()), ChainAvsCreatedScript(events).writes[..n])
    {
      var evs := FindEventsByType(events, EventTypeChainAvsCreated);
      ghost var full, j0 := ChainAvsCreatedScript(events), db.Snapshot();
      ghost var done := Begin(Apply, full, j0);
      var i := 0;
      while i < |evs|
        invariant i <= |evs| && done.stop.None? && db.Snapshot() == ApplyAll(Apply, j0, done.writes)
        invariant full == Then(done, ForEach(DecodeChainAvsCreated, EmitChainAvsCreated, evs[i..]))
      {
        ForEachStep(DecodeChainAvsCreated, EmitChainAvsCreated, evs, i);
        var c := DecodeChainAvsCreated(evs[i]);
        if c.Err? {
          n := Halt(Apply, full, done, c.error, j0, db.Snapshot());
          return Fail(c.error), n;
        }
        ghost var mid := db.Snapshot();
        r := db.SaveChainIdToAvsAddr(c.value.chainId, c.value.avsAddress);
        ghost var m := Ran(Apply, UpsertChainAvs(c.value.chainId, c.value.avsAddress), r, mid, db.Snapshot());
        done, n := Advance(Apply, full, done, EmitChainAvsCreated(c.value), ForEach(DecodeChainAvsCreated, EmitChainAvsCreated, evs[i + 1..]), r, m, j0, mid, db.Snapshot());
        if r.Fail? {
          return;
        }
        i := i + 1;
      }
      assert evs[i..] == [];
      n := Finish(Apply, full, done, j0, db.Snapshot());
      r := Pass;
    }

    /** modules/avs/handle_tx.go HandleTx. */
    method HandleTx(events: seq<Event>) returns (r: Outcome, ghost n: nat)
      modifies db
      ensures Performed(TxScript(events), r, n)
      ensures db.Snapshot() == ApplyAll(Apply, old(db.Snapshot()), TxScript(events).writes[..n])
    {
      ghost var full, j0 := TxScript(events), db.Snapshot();
      ThenDone(ChainAvsCreatedScript(events));
      ghost var done := Begin(Apply, full, j0);
      ghost var mid, m;
      mid := db.Snapshot();
      r, m := HandleAvsCreatedEvents(events);
      done, n := Advance(Apply, full, done, AvsCreatedScript(events), ChainAvsCreatedScript(events), r, m, j0, mid, db.Snapshot());
      if r.Fail? {
        return;
      }
      mid := db.Snapshot();
      r, m := HandleChainAvsCreatedEvents(events);
      done, n := Advance(Apply, full, done, ChainAvsCreatedScript(events), Done(), r, m, j0, mid, db.Snapshot());
      if r.Fail? {
        return;
      }
      n := Finish(Apply, full, done, j0, db.Snapshot());
    }

    /** modules/avs/handle_block.go handleDogfoodAvsCreationEvents: each event stores the
        address, then the chain's mapping to it. */
    method HandleDogfoodAvsCreationEvents(events: seq<Event>) returns (r: Outcome, ghost n: nat)
      modifies db
      ensures Performed(DogfoodAvsCreatedScript(events), r, n)
      ensures db.Snapshot() == ApplyAll(Apply, old(db.Snapshot()), DogfoodAvsCreatedScript(events).writes[..n])
    {
      var evs := FindEventsByType(events, EventTypeDogfoodAvsCreated);
      ghost var full, j0 := DogfoodAvsCreatedScript(events), db.Snapshot();
      ghost var done := Begin(Apply, full, j0);
      var i := 0;
      while i < |evs|
        invariant i <= |evs| && done.stop.None? && db.Snapshot() == ApplyAll(Apply, j0, done.writes)
        invariant full == Then(done, ForEach(DecodeDogfoodAvsCreated, EmitDogfoodAvsCreated, evs[i..]))
      {
        ForEachStep(DecodeDogfoodAvsCreated, EmitDogfoodAvsCreated, evs, i);
        var c := DecodeDogfoodAvsCreated(evs[i]);
        if c.Err? {
          n := Halt(Apply, full, done, c.error, j0, db.Snapshot());
          return Fail(c.error), n;
        }
        ghost var rest := ForEach(DecodeDogfoodAvsCreated, EmitDogfoodAvsCreated, evs[i + 1..]);
        ghost var second := Single(UpsertChainAvs(c.value.chainId, c.value.avsAddress));
        ThenAssociative(Single(InsertAvs(c.value.avsAddress)), second, rest);
        ghost var mid := db.Snapshot();
        r := db.SaveAvsAddr(c.value.avsAddress);
        ghost var m := Ran(Apply, InsertAvs(c.value.avsAddress), r, mid, db.Snapshot());
        done, n := Advance(Apply, full, done, Single(InsertAvs(c.value.avsAddress)), Then(second, rest), r, m, j0, mid, db.Snapshot());
        if r.Fail? {
          return;
        }
        mid := db.Snapshot();
        r := db.SaveChainIdToAvsAddr(c.value.chainId, c.value.avsAddress);
        m := Ran(Apply, UpsertChainAvs(c.value.chainId, c.value.avsAddress), r, mid, db.Snapshot());
        done, n := Advance(Apply, full, done, second, rest, r, m, j0, mid, db.Snapshot());
        if r.Fail? {
          return;
        }
        i := i + 1;
      }
      assert evs[i..] == [];
      n := Finish(Apply, full, done, j0, db.Snapshot());
      r := Pass;
    }

    /** modules/avs/handle_block.go HandleBlock: BeginBlock events only. */
    method HandleBlock(block: Block) returns (r: Outcome, ghost n: nat)
      modifies db
      ensures Performed(DogfoodAvsCreatedScript(block.beginBlockEvents), r, n)
      ensures db.Snapshot() == ApplyAll(Apply, old(db.Snapshot()), DogfoodAvsCreatedScript(block.beginBlockEvents).writes[..n])
    {
      r, n := HandleDogfoodAvsCreationEvents(block.beginBlockEvents);
    }

    /** modules/avs/handle_genesis.go HandleGenesis. `decoded` is the codec's reading of the
        module's genesis section (`None` when it is malformed). A rejected statement is
        ignored: `kept[i]` says whether the i-th statement took effect. */
    method HandleGenesis(decoded: Option<GenesisState>) returns (r: Outcome, ghost kept: seq<bool>)
      modifies db
      ensures decoded.None? ==> r == Fail(DecodeError) && db.Snapshot() == old(db.Snapshot())
      ensures decoded.Some? ==> r == Pass && |kept| == |GenesisWrites(decoded.value)|
      ensures decoded.Some? ==> db.Snapshot() == ApplyAll(Apply, old(db.Snapshot()), Kept(GenesisWrites(decoded.value), kept))
    {
      kept := [];
      if decoded.None? {
        return Fail(DecodeError), kept;
      }
      var g := decoded.value;
      kept := SaveAvsInfos(g.avsInfos);
      kept := SaveChainIdInfos(g.chainIdInfos, old(db.Snapshot()), AvsInfoWrites(g.avsInfos), kept);
      r := Pass;
    }

    /** The genesis loop over AVS infos: each lower-cased address is saved, and a
        rejected save is ignored. */
    method SaveAvsInfos(infos: seq<AvsInfo>) returns (ghost kept: seq<bool>)
      modifies db
      ensures |kept| == |infos|
      ensures db.Snapshot() == ApplyAll(Apply, old(db.Snapshot()), Kept(AvsInfoWrites(infos), kept))
    {
      kept := [];
      ghost var planned: seq<Write> := [];
      var i := 0;
      while i < |infos|
        invariant i <= |infos| && planned == AvsInfoWrites(infos)[..i] && |kept| == i
        invariant db.Snapshot() == ApplyAll(Apply, old(db.Snapshot()), Kept(planned, kept))
      {
        var addr := Text.ToLower(infos[i].avsAddress);
        ghost var mid := db.Snapshot();
        var res := db.SaveAvsAddr(addr);
        Keep(Apply, old(db.Snapshot()), planned, kept, InsertAvs(addr), res, mid, db.Snapshot());
        AvsInfoWritesNext(infos, i);
        planned, kept := planned + [InsertAvs(addr)], kept + [res.Pass?];
        i := i + 1;
      }
      assert planned == AvsInfoWrites(infos);
    }

    /** The genesis loop over chain id infos, after the statements `before` of which
        `keptBefore` took effect: each chain maps to its lower-cased address, and a
        rejected save is ignored. */
    method SaveChainIdInfos(infos: seq<ChainIdInfo>, ghost s0: Tables, ghost before: seq<Write>, ghost keptBefore: seq<bool>)
      returns (ghost kept: seq<bool>)
      requires |keptBefore| == |before|
      requires db.Snapshot() == ApplyAll(Apply, s0, Kept(before, keptBefore))
      modifies db
      ensures |kept| == |before| + |infos|
      ensures db.Snapshot() == ApplyAll(Apply, s0, Kept(before + ChainIdInfoWrites(infos), kept))
    {
      kept := keptBefore;
      ghost var planned := before;
      var j := 0;
      while j < |infos|
        invariant j <= |infos| && planned == before + ChainIdInfoWrites(infos)[..j]
        invariant |kept| == |planned|
        invariant db.Snapshot() == ApplyAll(Apply, s0, Kept(planned, kept))
      {
        var elem := infos[j];
        var addr := Text.ToLower(elem.avsAddress);
        ghost var mid := db.Snapshot();
        var res := db.SaveChainIdToAvsAddr(elem.chainId, addr);
        Keep(Apply, s0, planned, kept, UpsertChainAvs(elem.chainId, addr), res, mid, db.Snapshot());
        ChainIdInfoWritesNext(infos, j);
        planned, kept := planned + [UpsertChainAvs(elem.chainId, addr)], kept + [res.Pass?];
        j := j + 1;
      }
      assert ChainIdInfoWrites(infos)[..j] == ChainIdInfoWrites(infos);
    }
  }

  // ---------------------------------------------------------------------------------
  // Properties

  /** Every address the genesis handler stores is lower-case, whatever the genesis file
      spelled. */
  lemma GenesisAddressesLowerCase(g: GenesisState)
    ensures forall w :: w in GenesisWrites(g) ==> Text.IsLower(w.avsAddr)
  {
    forall w | w in GenesisWrites(g)
      ensures Text.IsLower(w.avsAddr)
    {
      if w in AvsInfoWrites(g.avsInfos) {
        var i :| 0 <= i < |g.avsInfos| && AvsInfoWrites(g.avsInfos)[i] == w;
        Text.ToLowerNormalises(g.avsInfos[i].avsAddress);
      } else {
        var i :| 0 <= i < |g.chainIdInfos| && ChainIdInfoWrites(g.chainIdInfos)[i] == w;
        Text.ToLowerNormalises(g.chainIdInfos[i].avsAddress);
      }
    }
  }

  /** Processing a transaction twice leaves the same rows as processing it once. */
  lemma TxReplayIdempotent(t: Tables, events: seq<Event>)
    ensures ApplyAll(Apply, ApplyAll(Apply, t, TxScript(events).writes), TxScript(events).writes)
         == ApplyAll(Apply, t, TxScript(events).writes)
  {
    ReplayIdempotent(t, TxScript(events).writes);
  }

  /** Every write of the AVS-creation pass is the insert of the address attribute of an
      `EventTypeAvsCreated` event of the batch. */
  lemma AvsCreatedWritesFromEvents(events: seq<Event>)
    ensures forall w :: w in AvsCreatedScript(events).writes ==>
      && w.InsertAvs?
      && exists e :: e in events && e.ty == EventTypeAvsCreated && DecodeAvsCreated(e) == Ok(w.avsAddr)
  {
    var sel := FindEventsByType(events, EventTypeAvsCreated);
    var ws := AvsCreatedScript(events).writes;
    ForEachSingles(DecodeAvsCreated, EmitAvsCreated, (a: string) => InsertAvs(a), sel);
    FindEventsByTypeMembers(events, EventTypeAvsCreated);
    forall w | w in ws
      ensures w.InsertAvs? && exists e :: e in events && e.ty == EventTypeAvsCreated && DecodeAvsCreated(e) == Ok(w.avsAddr)
    {
      var i :| 0 <= i < |ws| && ws[i] == w;
      var e := sel[i];
      assert e in sel;
      assert DecodeAvsCreated(e) == Ok(w.avsAddr);
    }
  }

  /** The `i`-th write of the chain-mapping pass saves what the `i`-th selected event decodes to. */
  lemma ChainAvsWriteAt(events: seq<Event>, i: nat)
    requires i < |ChainAvsCreatedScript(events).writes|
    ensures var sel := FindEventsByType(events, EventTypeChainAvsCreated);
      && i < |sel| && DecodeChainAvsCreated(sel[i]).Ok?
      && ChainAvsCreatedScript(events).writes[i]
         == UpsertChainAvs(DecodeChainAvsCreated(sel[i]).value.chainId, DecodeChainAvsCreated(sel[i]).value.avsAddress)
  {
    var sel := FindEventsByType(events, EventTypeChainAvsCreated);
    ForEachSingles(DecodeChainAvsCreated, EmitChainAvsCreated, (c: ChainAvs) => UpsertChainAvs(c.chainId, c.avsAddress), sel);
  }

  /** Every write of the chain-mapping pass saves the chain id and address of an
      `EventTypeChainAvsCreated` event of the batch. */
  lemma ChainAvsCreatedWritesFromEvents(events: seq<Event>)
    ensures forall w :: w in ChainAvsCreatedScript(events).writes ==>
      && w.UpsertChainAvs?
      && exists e :: e in events && e.ty == EventTypeChainAvsCreated && DecodeChainAvsCreated(e) == Ok(ChainAvs(w.chainId, w.avsAddr))
  {
    var sel := FindEventsByType(events, EventTypeChainAvsCreated);
    var ws := ChainAvsCreatedScript(events).writes;
    FindEventsByTypeMembers(events, EventTypeChainAvsCreated);
    forall w | w in ws
      ensures w.UpsertChainAvs? && exists e :: e in events && e.ty == EventTypeChainAvsCreated && DecodeChainAvsCreated(e) == Ok(ChainAvs(w.chainId, w.avsAddr))
    {
      var i :| 0 <= i < |ws| && ws[i] == w;
      ChainAvsWriteAt(events, i);
      assert sel[i] in sel;
    }
  }

  /** Every AVS the transaction handler inserts is the address attribute of an
      `EventTypeAvsCreated` event of the transaction, and every chain mapping it saves
      is the chain id and address of an `EventTypeChainAvsCreated` event. */
  lemma TxWritesFromEvents(events: seq<Event>)
    ensures forall w :: w in TxScript(events).writes ==>
      || (w.InsertAvs? && exists e :: e in events && e.ty == EventTypeAvsCreated && DecodeAvsCreated(e) == Ok(w.avsAddr))
      || (w.UpsertChainAvs? &&
          exists e :: e in events && e.ty == EventTypeChainAvsCreated && DecodeChainAvsCreated(e) == Ok(ChainAvs(w.chainId, w.avsAddr)))
  {
    AvsCreatedWritesFromEvents(events);
    ChainAvsCreatedWritesFromEvents(events);
    var a, c := AvsCreatedScript(events), ChainAvsCreatedScript(events);
    assert forall w :: w in TxScript(events).writes ==> w in a.writes || w in c.writes;
  }
}
