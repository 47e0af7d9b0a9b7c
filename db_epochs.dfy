// database/epochs.go: the `epoch_definitions` and `epoch_states` tables.

module EpochsDb {
  import opened Wrappers
  import opened Replay

  /** x/epochs `EpochInfo`. Times and durations are kept as opaque integers: the model
      only stores and compares them for equality. */
  datatype EpochInfo = EpochInfo(
    identifier: string,
    startTime: int,
    duration: int,
    currentEpoch: int,
    currentEpochStartTime: int,
    epochCountingStarted: bool,
    currentEpochStartHeight: int)

  datatype Definition = Definition(startTime: int, duration: int)

  datatype EpochState = EpochState(currentEpoch: int, currentEpochStartTime: int, epochCountingStarted: bool, currentEpochStartHeight: int)

  datatype Tables = Tables(definitions: map<string, Definition>, states: map<string, EpochState>)

  /** The statements of database/epochs.go. */
  datatype Write =
    | InsertDefinition(epoch: EpochInfo)   // SaveEpochDefinitions, one per epoch
    | UpsertState(epoch: EpochInfo)        // SaveEpochState

  function StateOf(e: EpochInfo): EpochState
  {
    EpochState(e.currentEpoch, e.currentEpochStartTime, e.epochCountingStarted, e.currentEpochStartHeight)
  }

  /** `WHERE EXCLUDED.current_epoch > epoch_states.current_epoch`: a stored state is only
      replaced by a strictly later epoch. */
  predicate StateReplaced(states: map<string, EpochState>, e: EpochInfo)
  {
    e.identifier !in states || e.currentEpoch > states[e.identifier].currentEpoch
  }

  function Apply(t: Tables, w: Write): Tables
  {
    match w
    case InsertDefinition(e) =>
      if e.identifier in t.definitions then t   // ON CONFLICT DO NOTHING
      else t.(definitions := t.definitions[e.identifier := Definition(e.startTime, e.duration)])
    case UpsertState(e) =>
      if StateReplaced(t.states, e) then t.(states := t.states[e.identifier := StateOf(e)]) else t
  }

  function Empty(): Tables { Tables(map[], map[]) }

  function DefinitionWrite(e: EpochInfo): Write { InsertDefinition(e) }

  function StateWrite(e: EpochInfo): Write { UpsertState(e) }

  /** `SaveEpochs`: every definition first, then every state. */
  function SaveEpochsScript(epochs: seq<EpochInfo>): Script<Write>
  {
    Then(Each(DefinitionWrite, epochs), Each(StateWrite, epochs))
  }

  class Store {
    var definitions: map<string, Definition>
    var states: map<string, EpochState>

    function Snapshot(): Tables
      reads this
    {
      Tables(definitions, states)
    }

    constructor()
      ensures Snapshot() == Empty()
    {
      definitions := map[];
      states := map[];
    }

    /** `SaveEpochState`: stores the state unless a state for the same or a later epoch
        is already there. */
    method SaveEpochState(epoch: EpochInfo) returns (r: Outcome)
      modifies this`states
      ensures (r == Pass && states == (if StateReplaced(old(states), epoch) then old(states)[epoch.identifier := StateOf(epoch)] else old(states)))
           || (r == Fail(DbError) && states == old(states))
      ensures (r == Pass && Snapshot() == Apply(old(Snapshot()), UpsertState(epoch))) || (r == Fail(DbError) && Snapshot() == old(Snapshot()))
    {
      r := Exec();
      if r.Pass? && StateReplaced(states, epoch) {
        states := states[epoch.identifier := StateOf(epoch)];
      }
    }

    /** `SaveEpochDefinitions`: one insert per epoch, each ignored when its identifier
        already has a definition; the first rejected insert ends the loop. */
    method SaveEpochDefinitions(epochs: seq<EpochInfo>) returns (r: Outcome, ghost n: nat)
      modifies this`definitions
      ensures Performed(Each(DefinitionWrite, epochs), r, n)
      ensures Snapshot() == ApplyAll(Apply, old(Snapshot()), Each(DefinitionWrite, epochs).writes[..n])
    {
      var i := 0;
      while i < |epochs|
        invariant i <= |epochs| && states == old(states)
        invariant Snapshot() == ApplyAll(Apply, old(Snapshot()), Each(DefinitionWrite, epochs).writes[..i])
      {
        var epoch := epochs[i];
        ghost var mid := Snapshot();
        r := Exec();
        if r.Pass? && epoch.identifier !in definitions {
          definitions := definitions[epoch.identifier := Definition(epoch.startTime, epoch.duration)];
        }
        EachRan(Apply, DefinitionWrite, epochs, i, r, old(Snapshot()), mid, Snapshot());
        if r.Fail? {
          return r, i;
        }
        i := i + 1;
      }
      EachDone(Apply, DefinitionWrite, epochs, old(Snapshot()), Snapshot());
      r, n := Pass, i;
    }

    /** `SaveEpochStates`: `SaveEpochState` for each epoch, returning at the first error. */
    method SaveEpochStates(epochs: seq<EpochInfo>) returns (r: Outcome, ghost n: nat)
      modifies this`states
      ensures Performed(Each(StateWrite, epochs), r, n)
      ensures Snapshot() == ApplyAll(Apply, old(Snapshot()), Each(StateWrite, epochs).writes[..n])
    {
      var i := 0;
      while i < |epochs|
        invariant i <= |epochs| && definitions == old(definitions)
        invariant Snapshot() == ApplyAll(Apply, old(Snapshot()), Each(StateWrite, epochs).writes[..i])
      {
        ghost var mid := Snapshot();
        r := SaveEpochState(epochs[i]);
        EachRan(Apply, StateWrite, epochs, i, r, old(Snapshot()), mid, Snapshot());
        if r.Fail? {
          return r, i;
        }
        i := i + 1;
      }
      EachDone(Apply, StateWrite, epochs, old(Snapshot()), Snapshot());
      r, n := Pass, i;
    }

    /** `SaveEpochs`: the definitions, then (if they were all stored) the states. */
    method SaveEpochs(epochs: seq<EpochInfo>) returns (r: Outcome, ghost n: nat)
      modifies this
      ensures Performed(SaveEpochsScript(epochs), r, n)
      ensures Snapshot() == ApplyAll(Apply, old(Snapshot()), SaveEpochsScript(epochs).writes[..n])
    {
      ghost var full, j0 := SaveEpochsScript(epochs), Snapshot();
      ghost var done := Begin(Apply, full, j0);
      ghost var mid, m;
      mid := Snapshot();
      r, m := SaveEpochDefinitions(epochs);
      done, n := Advance(Apply, full, done, Each(DefinitionWrite, epochs), Then(Each(StateWrite, epochs), Done()), r, m, j0, mid, Snapshot());
      if r.Fail? {
        return;
      }
      mid := Snapshot();
      r, m := SaveEpochStates(epochs);
      done, n := Advance(Apply, full, done, Each(StateWrite, epochs), Done(), r, m, j0, mid, Snapshot());
      if r.Fail? {
        return;
      }
      n := Finish(Apply, full, done, j0, Snapshot());
    }
  }

  // ---------------------------------------------------------------------------------
  // Properties

  /** One statement keeps every stored definition, never lowers a stored state's epoch,
      and leaves its own identifier with a definition or a state at least as late. */
  lemma DominatesStep(t: Tables, w: Write)
    ensures var u := Apply(t, w);
      && (forall id :: id in t.definitions ==> id in u.definitions && u.definitions[id] == t.definitions[id])
      && (forall id :: id in t.states ==> id in u.states && u.states[id].currentEpoch >= t.states[id].currentEpoch)
      && (w.InsertDefinition? ==> w.epoch.identifier in u.definitions)
      && (w.UpsertState? ==> w.epoch.identifier in u.states && u.states[w.epoch.identifier].currentEpoch >= w.epoch.currentEpoch)
  {
    match w
    case InsertDefinition(e) =>
    case UpsertState(e) =>
  }

  /** After a batch, every identifier mentioned by a statement has a definition and a
      state at least as late as each state statement for it; identifiers already
      stored keep their definition, and their state's epoch never goes down. */
  lemma {:induction false} ApplyAllDominates(t: Tables, ws: seq<Write>)
    ensures var u := ApplyAll(Apply, t, ws);
      && (forall id :: id in t.definitions ==> id in u.definitions && u.definitions[id] == t.definitions[id])
      && (forall id :: id in t.states ==> id in u.states && u.states[id].currentEpoch >= t.states[id].currentEpoch)
      && (forall i :: 0 <= i < |ws| && ws[i].InsertDefinition? ==> ws[i].epoch.identifier in u.definitions)
      && (forall i :: 0 <= i < |ws| && ws[i].UpsertState? ==>
            ws[i].epoch.identifier in u.states && u.states[ws[i].epoch.identifier].currentEpoch >= ws[i].epoch.currentEpoch)
    decreases |ws|
  {
    if ws != [] {
      var ws' := ws[..|ws| - 1];
      ApplyAllDominates(t, ws');
      DominatesStep(ApplyAll(Apply, t, ws'), ws[|ws| - 1]);
      assert forall i :: 0 <= i < |ws'| ==> ws'[i] == ws[i];
    }
  }

  /** Statements that are all already covered by the tables (every definition's
      identifier is stored, every state is no later than the stored one) change nothing. */
  lemma {:induction false} CoveredUnchanged(t: Tables, ws: seq<Write>)
    requires forall i :: 0 <= i < |ws| && ws[i].InsertDefinition? ==> ws[i].epoch.identifier in t.definitions
    requires forall i :: 0 <= i < |ws| && ws[i].UpsertState? ==>
      ws[i].epoch.identifier in t.states && ws[i].epoch.currentEpoch <= t.states[ws[i].epoch.identifier].currentEpoch
    ensures ApplyAll(Apply, t, ws) == t
    decreases |ws|
  {
    if ws != [] {
      var ws' := ws[..|ws| - 1];
      assert forall i :: 0 <= i < |ws'| ==> ws'[i] == ws[i];
      CoveredUnchanged(t, ws');
    }
  }

  /** Replaying statements a second time changes nothing. */
  lemma ReplayIdempotent(t: Tables, ws: seq<Write>)
    ensures ApplyAll(Apply, ApplyAll(Apply, t, ws), ws) == ApplyAll(Apply, t, ws)
  {
    ApplyAllDominates(t, ws);
    CoveredUnchanged(ApplyAll(Apply, t, ws), ws);
  }

  /** An epoch-state statement for an epoch that is not later than the stored one is
      ignored, whatever else it carries. */
  lemma StaleStateIgnored(t: Tables, e: EpochInfo)
    requires e.identifier in t.states && e.currentEpoch <= t.states[e.identifier].currentEpoch
    ensures Apply(t, UpsertState(e)) == t
  {
  }
}
