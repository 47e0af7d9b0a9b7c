// database/dogfood.go: the dogfood parameters, the three epoch schedules (opt-out
// expiries, consensus addresses to prune, undelegation maturities) and the last total
// power. Validator rows are written by store functions that are not part of this model;
// their calls are recorded, in order, in `external`.

module DogfoodDb {
  import opened Wrappers
  import opened Replay

  /** x/dogfood `Params`; `minSelfDelegation` is already rendered by `math.Int.String()`. */
  datatype DogfoodParams = DogfoodParams(
    epochsUntilUnbonded: int,
    epochIdentifier: string,
    maxValidators: int,
    historicalEntries: int,
    minSelfDelegation: string,
    assetIds: seq<string>)

  datatype ParamsRow = ParamsRow(height: int, params: DogfoodParams)

  /** A row of one of the schedule tables: the epoch (as the decimal string the events
      carry) and, once the epoch has ended, the height at which it completed. */
  datatype ScheduleRow = ScheduleRow(epochNumber: string, completionHeight: Option<int>)

  type Schedule = map<string, ScheduleRow>

  /** The three schedule tables, keyed respectively by operator address, consensus
      address and undelegation record key. */
  datatype ScheduleKind = OptOutExpiries | ConsAddrsToPrune | UndelegationMaturities

  /** juno `NewValidator(consAddr, consPubKey)`. */
  datatype Validator = Validator(consAddr: string, consPubKey: string)

  /** types `NewValidatorVotingPower(address, power, height)`. */
  datatype VotingPower = VotingPower(consAddr: string, power: int, height: int)

  /** Store functions that are called but not part of this model. */
  datatype ExternalCall =
    | SaveValidators(validators: seq<Validator>)
    | SaveValidatorsVotingPowers(powers: seq<VotingPower>)

  datatype Tables = Tables(
    params: Option<ParamsRow>,
    optOutExpiries: Schedule,
    consAddrsToPrune: Schedule,
    undelegationMaturities: Schedule,
    lastTotalPower: Option<string>,
    external: seq<ExternalCall>)

  /** The statements of database/dogfood.go, and the calls to store functions outside it. */
  datatype Write =
    | UpsertParams(params: DogfoodParams, height: int)                // SaveDogfoodParams
    | ScheduleEntry(kind: ScheduleKind, epochNumber: string, key: string)  // SaveOptOutExpiry, SaveConsensusAddrToPrune, SaveUndelegationMaturity
    | CompleteEpoch(kind: ScheduleKind, epochNumber: string, height: int)  // CompleteOptOuts, CompleteConsensusAddrsPruning, MatureUndelegations
    | UpsertLastTotalPower(value: string)                             // SaveLastTotalPower
    | External(call: ExternalCall)

  /** `INSERT … ON CONFLICT (key) DO UPDATE SET epoch_number = $1`: a new row has no
      completion height; an existing row gets the new epoch and keeps its completion
      height. */
  function Scheduled(m: Schedule, epochNumber: string, key: string): Schedule
  {
    m[key := ScheduleRow(epochNumber, if key in m then m[key].completionHeight else None)]
  }

  /** `UPDATE … SET completion_height = $1 WHERE epoch_number = $2`. */
  function Completed(m: Schedule, epochNumber: string, height: int): Schedule
  {
    map k | k in m :: if m[k].epochNumber == epochNumber then ScheduleRow(epochNumber, Some(height)) else m[k]
  }

  function ScheduleOf(t: Tables, kind: ScheduleKind): Schedule
  {
    match kind
    case OptOutExpiries => t.optOutExpiries
    case ConsAddrsToPrune => t.consAddrsToPrune
    case UndelegationMaturities => t.undelegationMaturities
  }

  function WithSchedule(t: Tables, kind: ScheduleKind, m: Schedule): Tables
  {
    match kind
    case OptOutExpiries => t.(optOutExpiries := m)
    case ConsAddrsToPrune => t.(consAddrsToPrune := m)
    case UndelegationMaturities => t.(undelegationMaturities := m)
  }

  function Apply(t: Tables, w: Write): Tables
  {
    match w
    case UpsertParams(p, h) => t.(params := Some(ParamsRow(h, p)))
    case ScheduleEntry(kind, e, k) => WithSchedule(t, kind, Scheduled(ScheduleOf(t, kind), e, k))
    case CompleteEpoch(kind, e, h) => WithSchedule(t, kind, Completed(ScheduleOf(t, kind), e, h))
    case UpsertLastTotalPower(v) => t.(lastTotalPower := Some(v))
    case External(c) => t.(external := t.external + [c])
  }

  function Empty(): Tables { Tables(None, map[], map[], map[], None, []) }

  class Store {
    var params: Option<ParamsRow>
    var optOutExpiries: Schedule
    var consAddrsToPrune: Schedule
    var undelegationMaturities: Schedule
    var lastTotalPower: Option<string>
    var external: seq<ExternalCall>

    function Snapshot(): Tables
      reads this
    {
      Tables(params, optOutExpiries, consAddrsToPrune, undelegationMaturities, lastTotalPower, external)
    }

    constructor()
      ensures Snapshot() == Empty()
    {
      params, optOutExpiries, consAddrsToPrune, undelegationMaturities := None, map[], map[], map[];
      lastTotalPower, external := None, [];
    }

    /** `SaveDogfoodParams`: overwrites the single row, whatever height it holds. */
    method SaveDogfoodParams(p: DogfoodParams, height: int) returns (r: Outcome)
      modifies this`params
      ensures (r == Pass && params == Some(ParamsRow(height, p))) || (r == Fail(DbError) && params == old(params))
      ensures (r == Pass && Snapshot() == Apply(old(Snapshot()), UpsertParams(p, height))) || (r == Fail(DbError) && Snapshot() == old(Snapshot()))
    {
      r := Exec();
      if r.Pass? {
        params := Some(ParamsRow(height, p));
      }
    }

    /** `SaveOptOutExpiry`: at most one row per operator. */
    method SaveOptOutExpiry(epochNumber: string, operatorAddr: string) returns (r: Outcome)
      modifies this`optOutExpiries
      ensures (r == Pass && optOutExpiries == Scheduled(old(optOutExpiries), epochNumber, operatorAddr)) || (r == Fail(DbError) && optOutExpiries == old(optOutExpiries))
      ensures (r == Pass && Snapshot() == Apply(old(Snapshot()), ScheduleEntry(OptOutExpiries, epochNumber, operatorAddr)))
           || (r == Fail(DbError) && Snapshot() == old(Snapshot()))
    {
      r := Exec();
      if r.Pass? {
        optOutExpiries := Scheduled(optOutExpiries, epochNumber, operatorAddr);
      }
    }

    /** `CompleteOptOuts`: every opt-out of the epoch completes at `height`. */
    method CompleteOptOuts(epochNumber: string, height: int) returns (r: Outcome)
      modifies this`optOutExpiries
      ensures (r == Pass && optOutExpiries == Completed(old(optOutExpiries), epochNumber, height)) || (r == Fail(DbError) && optOutExpiries == old(optOutExpiries))
      ensures (r == Pass && Snapshot() == Apply(old(Snapshot()), CompleteEpoch(OptOutExpiries, epochNumber, height)))
           || (r == Fail(DbError) && Snapshot() == old(Snapshot()))
    {
      r := Exec();
      if r.Pass? {
        optOutExpiries := Completed(optOutExpiries, epochNumber, height);
      }
    }

    /** `SaveConsensusAddrToPrune`: at most one row per consensus address. */
    method SaveConsensusAddrToPrune(epochNumber: string, consAddr: string) returns (r: Outcome)
      modifies this`consAddrsToPrune
      ensures (r == Pass && consAddrsToPrune == Scheduled(old(consAddrsToPrune), epochNumber, consAddr)) || (r == Fail(DbError) && consAddrsToPrune == old(consAddrsToPrune))
      ensures (r == Pass && Snapshot() == Apply(old(Snapshot()), ScheduleEntry(ConsAddrsToPrune, epochNumber, consAddr)))
           || (r == Fail(DbError) && Snapshot() == old(Snapshot()))
    {
      r := Exec();
      if r.Pass? {
        consAddrsToPrune := Scheduled(consAddrsToPrune, epochNumber, consAddr);
      }
    }

    /** `CompleteConsensusAddrsPruning`: every address of the epoch is pruned at `height`. */
    method CompleteConsensusAddrsPruning(epochNumber: string, height: int) returns (r: Outcome)
      modifies this`consAddrsToPrune
      ensures (r == Pass && consAddrsToPrune == Completed(old(consAddrsToPrune), epochNumber, height)) || (r == Fail(DbError) && consAddrsToPrune == old(consAddrsToPrune))
      ensures (r == Pass && Snapshot() == Apply(old(Snapshot()), CompleteEpoch(ConsAddrsToPrune, epochNumber, height)))
           || (r == Fail(DbError) && Snapshot() == old(Snapshot()))
    {
      r := Exec();
      if r.Pass? {
        consAddrsToPrune := Completed(consAddrsToPrune, epochNumber, height);
      }
    }

    /** `SaveUndelegationMaturity`: at most one row per undelegation record. */
    method SaveUndelegationMaturity(epochNumber: string, recordKey: string) returns (r: Outcome)
      modifies this`undelegationMaturities
      ensures (r == Pass && undelegationMaturities == Scheduled(old(undelegationMaturities), epochNumber, recordKey))
           || (r == Fail(DbError) && undelegationMaturities == old(undelegationMaturities))
      ensures (r == Pass && Snapshot() == Apply(old(Snapshot()), ScheduleEntry(UndelegationMaturities, epochNumber, recordKey)))
           || (r == Fail(DbError) && Snapshot() == old(Snapshot()))
    {
      r := Exec();
      if r.Pass? {
        undelegationMaturities := Scheduled(undelegationMaturities, epochNumber, recordKey);
      }
    }

    /** `MatureUndelegations`: every undelegation of the epoch matures at `height`. */
    method MatureUndelegations(epochNumber: string, height: int) returns (r: Outcome)
      modifies this`undelegationMaturities
      ensures (r == Pass && undelegationMaturities == Completed(old(undelegationMaturities), epochNumber, height))
           || (r == Fail(DbError) && undelegationMaturities == old(undelegationMaturities))
      ensures (r == Pass && Snapshot() == Apply(old(Snapshot()), CompleteEpoch(UndelegationMaturities, epochNumber, height)))
           || (r == Fail(DbError) && Snapshot() == old(Snapshot()))
    {
      r := Exec();
      if r.Pass? {
        undelegationMaturities := Completed(undelegationMaturities, epochNumber, height);
      }
    }

    /** `SaveLastTotalPower`: overwrites the single row. */
    method SaveLastTotalPower(value: string) returns (r: Outcome)
      modifies this`lastTotalPower
      ensures (r == Pass && lastTotalPower == Some(value)) || (r == Fail(DbError) && lastTotalPower == old(lastTotalPower))
      ensures (r == Pass && Snapshot() == Apply(old(Snapshot()), UpsertLastTotalPower(value))) || (r == Fail(DbError) && Snapshot() == old(Snapshot()))
    {
      r := Exec();
      if r.Pass? {
        lastTotalPower := Some(value);
      }
    }

    /** A store function outside database/dogfood.go; only the call is recorded. */
    method Call(c: ExternalCall) returns (r: Outcome)
      modifies this`external
      ensures (r == Pass && external == old(external) + [c]) || (r == Fail(DbError) && external == old(external))
      ensures (r == Pass && Snapshot() == Apply(old(Snapshot()), External(c))) || (r == Fail(DbError) && Snapshot() == old(Snapshot()))
    {
      r := Exec();
      if r.Pass? {
        external := external + [c];
      }
    }
  }

  // ---------------------------------------------------------------------------------
  // Properties

  /** Completing an epoch marks exactly the rows scheduled for that epoch, at the given
      height; no row is added or removed and every other row is untouched. */
  lemma CompletedMarksEpoch(m: Schedule, epochNumber: string, height: int)
    ensures Completed(m, epochNumber, height).Keys == m.Keys
    ensures forall k :: k in m && m[k].epochNumber == epochNumber ==>
      Completed(m, epochNumber, height)[k] == ScheduleRow(epochNumber, Some(height))
    ensures forall k :: k in m && m[k].epochNumber != epochNumber ==> Completed(m, epochNumber, height)[k] == m[k]
  {
  }

  /** Rescheduling a key replaces its epoch but keeps a completion height it already
      had, since the upsert only sets `epoch_number`. */
  lemma RescheduleKeepsCompletion(m: Schedule, epochNumber: string, key: string)
    requires key in m
    ensures Scheduled(m, epochNumber, key)[key] == ScheduleRow(epochNumber, m[key].completionHeight)
    ensures forall k :: k in m && k != key ==> Scheduled(m, epochNumber, key)[k] == m[k]
  {
  }

  /** The parameters row has no height guard: the last save wins, even one at a lower
      height than the stored row. */
  lemma ParamsLastWins(t: Tables, p: DogfoodParams, height: int)
    ensures Apply(t, UpsertParams(p, height)).params == Some(ParamsRow(height, p))
  {
  }

  /** A statement on one schedule table leaves the other two as they were. */
  lemma SchedulesIndependent(t: Tables, w: Write, kind: ScheduleKind)
    requires (w.ScheduleEntry? || w.CompleteEpoch?) && w.kind != kind
    ensures ScheduleOf(Apply(t, w), kind) == ScheduleOf(t, kind)
  {
  }

  /** Scheduling statements only: the row of each key is that of its last statement,
      with the completion height the key had before the batch. */
  predicate OnlySchedules(ws: seq<Write>)
  {
    forall i :: 0 <= i < |ws| ==> ws[i].ScheduleEntry?
  }

  /** The epoch the last scheduling statement for `key` in table `kind` wrote, if any. */
  function LastScheduled(ws: seq<Write>, kind: ScheduleKind, key: string): Option<string>
    decreases |ws|
  {
    if ws == [] then None
    else
      var w := ws[|ws| - 1];
      if w.ScheduleEntry? && w.kind == kind && w.key == key then Some(w.epochNumber)
      else LastScheduled(ws[..|ws| - 1], kind, key)
  }

  /** One statement, seen from one schedule table. */
  lemma ApplySchedule(t: Tables, w: Write, kind: ScheduleKind)
    requires w.ScheduleEntry?
    ensures ScheduleOf(Apply(t, w), kind) ==
      if w.kind == kind then Scheduled(ScheduleOf(t, kind), w.epochNumber, w.key) else ScheduleOf(t, kind)
    ensures Apply(t, w).params == t.params && Apply(t, w).lastTotalPower == t.lastTotalPower && Apply(t, w).external == t.external
  {
  }

  lemma {:induction false} SchedulesShape(t: Tables, ws: seq<Write>, kind: ScheduleKind)
    requires OnlySchedules(ws)
    ensures var m, m0 := ScheduleOf(ApplyAll(Apply, t, ws), kind), ScheduleOf(t, kind);
      && (forall k :: k in m <==> k in m0 || LastScheduled(ws, kind, k).Some?)
      && (forall k :: k in m ==>
            m[k].epochNumber == (if LastScheduled(ws, kind, k).Some? then LastScheduled(ws, kind, k).value else m0[k].epochNumber)
            && m[k].completionHeight == (if k in m0 then m0[k].completionHeight else None))
    decreases |ws|
  {
    if ws != [] {
      var ws' := ws[..|ws| - 1];
      assert forall i :: 0 <= i < |ws'| ==> ws'[i] == ws[i];
      SchedulesShape(t, ws', kind);
      ApplySchedule(ApplyAll(Apply, t, ws'), ws[|ws| - 1], kind);
    }
  }

  lemma {:induction false} SchedulesKeepOthers(t: Tables, ws: seq<Write>)
    requires OnlySchedules(ws)
    ensures var u := ApplyAll(Apply, t, ws);
      u.params == t.params && u.lastTotalPower == t.lastTotalPower && u.external == t.external
    decreases |ws|
  {
    if ws != [] {
      var ws' := ws[..|ws| - 1];
      assert forall i :: 0 <= i < |ws'| ==> ws'[i] == ws[i];
      SchedulesKeepOthers(t, ws');
      ApplySchedule(ApplyAll(Apply, t, ws'), ws[|ws| - 1], OptOutExpiries);
    }
  }

  /** A batch of scheduling statements can be replayed: running it again leaves the
      same tables. */
  lemma ScheduleReplayIdempotent(t: Tables, ws: seq<Write>)
    requires OnlySchedules(ws)
    ensures ApplyAll(Apply, ApplyAll(Apply, t, ws), ws) == ApplyAll(Apply, t, ws)
  {
    var once := ApplyAll(Apply, t, ws);
    var twice := ApplyAll(Apply, once, ws);
    forall kind: ScheduleKind
      ensures ScheduleOf(twice, kind) == ScheduleOf(once, kind)
    {
      SchedulesShape(t, ws, kind);
      SchedulesShape(once, ws, kind);
    }
    SchedulesKeepOthers(once, ws);
    assert twice.optOutExpiries == ScheduleOf(twice, OptOutExpiries);
    assert twice.consAddrsToPrune == ScheduleOf(twice, ConsAddrsToPrune);
    assert twice.undelegationMaturities == ScheduleOf(twice, UndelegationMaturities);
  }
}
