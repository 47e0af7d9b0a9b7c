// modules/epochs/handle_block.go: the epoch-end events of BeginBlock.

module EpochsModule {
  import opened Wrappers
  import opened Events
  import opened Replay
  import opened EpochsDb

  const EventTypeEpochEnd := "epochstypes.EventTypeEpochEnd"
  const AttributeEpochIdentifier := "epochstypes.AttributeEpochIdentifier"

  /** `source.GetEpochInfo(height, identifier)`: the chain's answer at `height` (an error
      when the query fails). */
  type EpochSource = (int, string) -> Result<EpochInfo>

  /** One epoch-end event: its identifier, then the chain's state for that epoch. */
  function DecodeEpochEnd(source: EpochSource, height: int, e: Event): Result<EpochInfo>
  {
    var id :- FindAttributeByKey(e, AttributeEpochIdentifier);
    source(height, id)
  }

  function EpochEndDecoder(source: EpochSource, height: int): Event -> Result<EpochInfo>
  {
    e => DecodeEpochEnd(source, height, e)
  }

  function EmitState(e: EpochInfo): Script<Write>
  {
    Single(StateWrite(e))
  }

  /** `saveEpochStates(height, events)`. */
  function EpochStatesScript(source: EpochSource, height: int, events: seq<Event>): Script<Write>
  {
    ForEach(EpochEndDecoder(source, height), EmitState, FindEventsByType(events, EventTypeEpochEnd))
  }

  class Module {
    const db: Store
    const source: EpochSource

    constructor(db: Store, source: EpochSource)
      ensures this.db == db && this.source == source
    {
      this.db := db;
      this.source := source;
    }

    /** modules/epochs/handle_block.go saveEpochStates. */
    method SaveEpochStates(height: int, events: seq<Event>) returns (r: Outcome, ghost n: nat)
      modifies db
      ensures Performed(EpochStatesScript(source, height, events), r, n)
      ensures db.Snapshot() == ApplyAll(Apply, old(db.Snapshot()), EpochStatesScript(source, height, events).writes[..n])
    {
      var evs := FindEventsByType(events, EventTypeEpochEnd);
      ghost var full, j0 := EpochStatesScript(source, height, events), db.Snapshot();
      ghost var done := Begin(Apply, full, j0);
      var i := 0;
      while i < |evs|
        invariant i <= |evs| && done.stop.None? && db.Snapshot() == ApplyAll(Apply, j0, done.writes)
        invariant full == Then(done, ForEach(EpochEndDecoder(source, height), EmitState, evs[i..]))
      {
        ForEachStep(EpochEndDecoder(source, height), EmitState, evs, i);
        var epoch := DecodeEpochEnd(source, height, evs[i]);
        if epoch.Err? {
          n := Halt(Apply, full, done, epoch.error, j0, db.Snapshot());
          return Fail(epoch.error), n;
        }
        ghost var mid := db.Snapshot();
        r := db.SaveEpochState(epoch.value);
        ghost var m := Ran(Apply, StateWrite(epoch.value), r, mid, db.Snapshot());
        done, n := Advance(Apply, full, done, EmitState(epoch.value), ForEach(EpochEndDecoder(source, height), EmitState, evs[i + 1..]), r, m, j0, mid, db.Snapshot());
        if r.Fail? {
          return;
        }
        i := i + 1;
      }
      assert evs[i..] == [];
      n := Finish(Apply, full, done, j0, db.Snapshot());
      r := Pass;
    }

    /** modules/epochs/handle_block.go HandleBlock: BeginBlock events only. */
    method HandleBlock(block: Block) returns (r: Outcome, ghost n: nat)
      modifies db
      ensures Performed(EpochStatesScript(source, block.height, block.beginBlockEvents), r, n)
      ensures db.Snapshot() == ApplyAll(Apply, old(db.Snapshot()), EpochStatesScript(source, block.height, block.beginBlockEvents).writes[..n])
    {
      r, n := SaveEpochStates(block.height, block.beginBlockEvents);
    }
  }

  // ---------------------------------------------------------------------------------
  // Properties

  /** The block handler stores, for each epoch-end event in order, the state the chain
      reports at the block's height for the event's epoch; an event without identifier
      or a failed query ends it with that error. */
  lemma EpochStatesScriptShape(source: EpochSource, height: int, events: seq<Event>)
    ensures var evs := FindEventsByType(events, EventTypeEpochEnd);
      var k := FirstBad(EpochEndDecoder(source, height), evs);
      && |EpochStatesScript(source, height, events).writes| == k
      && (forall i :: 0 <= i < k ==>
            EpochStatesScript(source, height, events).writes[i] ==
              UpsertState(source(height, FindAttributeByKey(evs[i], AttributeEpochIdentifier).value).value))
      && EpochStatesScript(source, height, events).stop == if k < |evs| then Some(DecodeEpochEnd(source, height, evs[k]).error) else None
  {
    var evs := FindEventsByType(events, EventTypeEpochEnd);
    forall e | EpochEndDecoder(source, height)(e).Ok?
      ensures EmitState(EpochEndDecoder(source, height)(e).value) == Single(StateWrite(EpochEndDecoder(source, height)(e).value))
    {
    }
    ForEachSingles(EpochEndDecoder(source, height), EmitState, StateWrite, evs);
  }

  /** Indexing the same block twice, with the same chain answers, leaves the same states. */
  lemma BlockReplayIdempotent(t: Tables, source: EpochSource, height: int, events: seq<Event>)
    ensures var ws := EpochStatesScript(source, height, events).writes;
      ApplyAll(Apply, ApplyAll(Apply, t, ws), ws) == ApplyAll(Apply, t, ws)
  {
    ReplayIdempotent(t, EpochStatesScript(source, height, events).writes);
  }
}
