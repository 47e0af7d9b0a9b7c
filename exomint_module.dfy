// modules/exomint/handle_block.go: the mint events of BeginBlock.

module ExomintModule {
  import opened Wrappers
  import opened Events
  import opened Replay
  import opened Decimal
  import opened ExomintDb

  const EventTypeMint := "exominttypes.EventTypeMint"
  const AttributeKeyAmount := "sdk.AttributeKeyAmount"
  const AttributeEpochIdentifier := "exominttypes.AttributeEpochIdentifier"
  const AttributeEpochNumber := "exominttypes.AttributeEpochNumber"
  const AttributeDenom := "exominttypes.AttributeDenom"

  /** One mint event: amount, epoch identifier and epoch number (which must be a base-10
      64-bit integer) are read first, then the denomination. */
  function DecodeMint(height: int, e: Event): (r: Result<MintHistory>)
    ensures r.Ok? ==> r.value.height == height
  {
    var v :- Lookup(e, [AttributeKeyAmount, AttributeEpochIdentifier, AttributeEpochNumber]);
    var epochNumber :- ParseInt64(v[2]);
    var denom :- FindAttributeByKey(e, AttributeDenom);
    Ok(NewMintHistory(height, v[0], v[1], epochNumber, denom))
  }

  function MintDecoder(height: int): Event -> Result<MintHistory>
  {
    e => DecodeMint(height, e)
  }

  function MintWrite(h: MintHistory): Write
  {
    UpsertMint(h)
  }

  function EmitMint(h: MintHistory): Script<Write>
  {
    Single(MintWrite(h))
  }

  /** `saveMintHistory(height, events)`. */
  function MintScript(height: int, events: seq<Event>): Script<Write>
  {
    ForEach(MintDecoder(height), EmitMint, FindEventsByType(events, EventTypeMint))
  }

  class Module {
    const db: Store

    constructor(db: Store)
      ensures this.db == db
    {
      this.db := db;
    }

    /** modules/exomint/handle_block.go saveMintHistory. */
    method SaveMintHistory(height: int, events: seq<Event>) returns (r: Outcome, ghost n: nat)
      modifies db
      ensures Performed(MintScript(height, events), r, n)
      ensures db.Snapshot() == ApplyAll(Apply, old(db.Snapshot()), MintScript(height, events).writes[..n])
    {
      var evs := FindEventsByType(events, EventTypeMint);
      ghost var full, j0 := MintScript(height, events), db.Snapshot();
      ghost var done := Begin(Apply, full, j0);
      var i := 0;
      while i < |evs|
        invariant i <= |evs| && done.stop.None? && db.Snapshot() == ApplyAll(Apply, j0, done.writes)
        invariant full == Then(done, ForEach(MintDecoder(height), EmitMint, evs[i..]))
      {
        ForEachStep(MintDecoder(height), EmitMint, evs, i);
        var h := DecodeMint(height, evs[i]);
        if h.Err? {
          n := Halt(Apply, full, done, h.error, j0, db.Snapshot());
          return Fail(h.error), n;
        }
        ghost var mid := db.Snapshot();
        r := db.AppendMintHistory(h.value);
        ghost var m := Ran(Apply, MintWrite(h.value), r, mid, db.Snapshot());
        done, n := Advance(Apply, full, done, EmitMint(h.value), ForEach(MintDecoder(height), EmitMint, evs[i + 1..]), r, m, j0, mid, db.Snapshot());
        if r.Fail? {
          return;
        }
        i := i + 1;
      }
      assert evs[i..] == [];
      n := Finish(Apply, full, done, j0, db.Snapshot());
      r := Pass;
    }

    /** modules/exomint/handle_block.go HandleBlock: BeginBlock events only. */
    method HandleBlock(block: Block) returns (r: Outcome, ghost n: nat)
      modifies db
      ensures Performed(MintScript(block.height, block.beginBlockEvents), r, n)
      ensures db.Snapshot() == ApplyAll(Apply, old(db.Snapshot()), MintScript(block.height, block.beginBlockEvents).writes[..n])
    {
      r, n := SaveMintHistory(block.height, block.beginBlockEvents);
    }
  }

  // ---------------------------------------------------------------------------------
  // Properties

  /** The block handler writes one history row per mint event, in event order, each
      stamped with the block's height; the first mint event it cannot read ends it with
      that event's error. */
  lemma MintScriptShape(height: int, events: seq<Event>)
    ensures var evs := FindEventsByType(events, EventTypeMint);
      var k := FirstBad(MintDecoder(height), evs);
      && |MintScript(height, events).writes| == k
      && (forall i :: 0 <= i < k ==>
            MintScript(height, events).writes[i] == UpsertMint(DecodeMint(height, evs[i]).value)
            && MintScript(height, events).writes[i].history.height == height)
      && MintScript(height, events).stop == if k < |evs| then Some(DecodeMint(height, evs[k]).error) else None
  {
    var evs := FindEventsByType(events, EventTypeMint);
    forall e | MintDecoder(height)(e).Ok?
      ensures EmitMint(MintDecoder(height)(e).value) == Single(MintWrite(MintDecoder(height)(e).value))
    {
    }
    ForEachSingles(MintDecoder(height), EmitMint, MintWrite, evs);
    var s, k := MintScript(height, events), FirstBad(MintDecoder(height), evs);
    forall i | 0 <= i < k
      ensures s.writes[i] == UpsertMint(DecodeMint(height, evs[i]).value) && s.writes[i].history.height == height
    {
      assert MintDecoder(height)(evs[i]) == DecodeMint(height, evs[i]);
    }
  }

  /** A mint event carrying the attributes the chain writes, with the epoch number
      rendered in base 10, is read back into exactly those values. */
  lemma DecodeMintRoundTrip(height: int, amount: string, epochId: string, epochNumber: int, denom: string)
    requires MinInt64 <= epochNumber <= MaxInt64
    ensures DecodeMint(height, Event(EventTypeMint, [
        Attribute(AttributeKeyAmount, amount), Attribute(AttributeEpochIdentifier, epochId),
        Attribute(AttributeEpochNumber, FormatInt(epochNumber)), Attribute(AttributeDenom, denom)]))
      == Ok(MintHistory(amount, height, epochId, epochNumber, denom))
  {
    var e := Event(EventTypeMint, [
        Attribute(AttributeKeyAmount, amount), Attribute(AttributeEpochIdentifier, epochId),
        Attribute(AttributeEpochNumber, FormatInt(epochNumber)), Attribute(AttributeDenom, denom)]);
    ParseInt64FormatInt(epochNumber);
    AttributeKeysDistinct();
    var e1 := Event(EventTypeMint, e.attributes[1..]);
    var e2 := Event(EventTypeMint, e1.attributes[1..]);
    var e3 := Event(EventTypeMint, e2.attributes[1..]);
    assert FindAttributeByKey(e3, AttributeDenom) == Ok(denom);
    assert FindAttributeByKey(e2, AttributeEpochNumber) == Ok(FormatInt(epochNumber));
    assert FindAttributeByKey(e2, AttributeDenom) == Ok(denom);
    assert FindAttributeByKey(e1, AttributeDenom) == Ok(denom);
    assert FindAttributeByKey(e1, AttributeEpochNumber) == Ok(FormatInt(epochNumber));
    assert FindAttributeByKey(e, AttributeDenom) == Ok(denom);
    assert FindAttributeByKey(e, AttributeEpochNumber) == Ok(FormatInt(epochNumber));
    assert FindAttributeByKey(e1, AttributeEpochIdentifier) == Ok(epochId);
    assert FindAttributeByKey(e, AttributeEpochIdentifier) == Ok(epochId);
    assert FindAttributeByKey(e, AttributeKeyAmount) == Ok(amount);
    DecodeMintFound(height, e, amount, epochId, FormatInt(epochNumber), denom);
  }

  /** A mint event whose four attributes are found decodes to them, once its epoch
      number parses. */
  lemma DecodeMintFound(height: int, e: Event, amount: string, epochId: string, epochNumber: string, denom: string)
    requires FindAttributeByKey(e, AttributeKeyAmount) == Ok(amount)
    requires FindAttributeByKey(e, AttributeEpochIdentifier) == Ok(epochId)
    requires FindAttributeByKey(e, AttributeEpochNumber) == Ok(epochNumber)
    requires FindAttributeByKey(e, AttributeDenom) == Ok(denom)
    ensures ParseInt64(epochNumber).Err? ==> DecodeMint(height, e) == Err(ParseInt64(epochNumber).error)
    ensures ParseInt64(epochNumber).Ok? ==>
              DecodeMint(height, e) == Ok(MintHistory(amount, height, epochId, ParseInt64(epochNumber).value, denom))
  {
    var keys, vals := [AttributeKeyAmount, AttributeEpochIdentifier, AttributeEpochNumber], [amount, epochId, epochNumber];
    forall i | 0 <= i < |keys|
      ensures FindAttributeByKey(e, keys[i]) == Ok(vals[i])
    {
      if i == 0 {
        assert keys[i] == AttributeKeyAmount && vals[i] == amount;
      } else if i == 1 {
        assert keys[i] == AttributeEpochIdentifier && vals[i] == epochId;
      } else {
        assert keys[i] == AttributeEpochNumber && vals[i] == epochNumber;
      }
    }
    LookupFound(e, keys, vals);
  }

  lemma AttributeKeysDistinct()
    ensures AttributeKeyAmount != AttributeEpochIdentifier && AttributeKeyAmount != AttributeEpochNumber
    ensures AttributeKeyAmount != AttributeDenom && AttributeEpochIdentifier != AttributeEpochNumber
    ensures AttributeEpochIdentifier != AttributeDenom && AttributeEpochNumber != AttributeDenom
  {
    assert AttributeKeyAmount[0] != AttributeEpochIdentifier[0];
    assert AttributeKeyAmount[0] != AttributeEpochNumber[0];
    assert AttributeKeyAmount[0] != AttributeDenom[0];
    assert AttributeEpochIdentifier[27] != AttributeEpochNumber[27];
    assert AttributeEpochIdentifier[22] != AttributeDenom[22];
    assert AttributeEpochNumber[22] != AttributeDenom[22];
  }

  /** An epoch number that is not a 64-bit base-10 integer stops the handler with a
      parse error, even when the denomination is missing too. */
  lemma BadEpochNumberRejected(height: int, e: Event)
    requires Lookup(e, [AttributeKeyAmount, AttributeEpochIdentifier, AttributeEpochNumber]).Ok?
    requires ParseInt64(FindAttributeByKey(e, AttributeEpochNumber).value).Err?
    ensures DecodeMint(height, e) == Err(ParseError(FindAttributeByKey(e, AttributeEpochNumber).value))
  {
  }

  /** Indexing a block twice leaves the same mint history and parameters. */
  lemma BlockReplayIdempotent(t: Tables, height: int, events: seq<Event>)
    ensures ApplyAll(Apply, ApplyAll(Apply, t, MintScript(height, events).writes), MintScript(height, events).writes)
         == ApplyAll(Apply, t, MintScript(height, events).writes)
  {
    ReplayIdempotent(t, MintScript(height, events).writes);
  }
}
