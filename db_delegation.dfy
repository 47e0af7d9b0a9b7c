// database/delegation.go: staker↔operator associations, delegation states, the
// stakers of each (operator, asset) pair, undelegation records through their
// lifecycle, and the native-asset (exo) delegation totals. Calls the delegation
// handlers make to store functions outside this file, or with arguments that do not
// match the shown signatures, are recorded, in order, in `external`.

module DelegationDb {
  import opened Wrappers
  import opened Replay
  import opened Decimal
  import opened DelegationTypes

  /** A row of `delegation_state`, keyed by (staker, asset, operator). */
  datatype StateRow = StateRow(undelegatableShare: string, waitUndelegationAmount: string)

  /** A row of `undelegation_records`, keyed by the record id; `maturityHeight` is
      NULL until the record matures. */
  datatype RecordRow = RecordRow(
    stakerId: string,
    assetId: string,
    operatorAddr: string,
    txHash: string,
    blockNumber: string,
    completedEpochIdentifier: string,
    completedEpochNumber: string,
    undelegationId: string,
    amount: string,
    actualCompletedAmount: string,
    holdCount: string,
    maturityHeight: Option<int>)

  function RecordRowOf(r: UndelegationRecord): RecordRow
  {
    RecordRow(r.stakerId, r.assetId, r.operatorAddr, r.txHash, r.blockNumber, r.completedEpochIdentifier,
              r.completedEpochNumber, r.undelegationId, r.amount, r.actualCompletedAmount, r.holdCount, None)
  }

  /** A row of `exo_asset_delegation`, keyed by (staker, operator). */
  datatype ExoRow = ExoRow(delegated: int, pendingUndelegation: int, slashed: int)

  /** The five values `AccumulateExoAssetDelegation` reads from its argument. */
  datatype ExoDelegationArgs = ExoDelegationArgs(
    stakerId: string,
    operatorAddr: string,
    delegated: string,
    pendingUndelegation: string,
    slashed: string)

  /** The store accepts the three amounts of an accumulation only as numbers. */
  predicate Numeric(d: ExoDelegationArgs)
  {
    ParseInteger(d.delegated).Some? && ParseInteger(d.pendingUndelegation).Some? && ParseInteger(d.slashed).Some?
  }

  /** Store calls that this file does not answer: `MatureExoAssetUndelegation`,
      `SlashStakerDelegation` and `SlashExoAssetDelegation` are not part of this
      model; the handlers call `SlashUndelegationRecord` with three arguments where it
      takes two, and `AccumulateExoAssetDelegation` at genesis with an
      `ExoAssetDelegation`, which lacks the operator and the slashed amount the
      statement reads. */
  datatype ExternalCall =
    | SlashUndelegationRecordOf(recordId: string, amount: string, slashAmount: string)
    | MatureExoAssetUndelegation(stakerId: string, operatorAddr: string, amount: string)
    | SlashStakerDelegation(stakerId: string, assetId: string, amount: string)
    | SlashExoAssetDelegation(stakerId: string, operatorAddr: string, amount: string)
    | AccumulateExoAssetDelegationOf(delegation: ExoAssetDelegation)

  datatype Tables = Tables(
    associations: map<string, string>,
    states: map<(string, string, string), StateRow>,
    members: set<(string, string, string)>,
    records: map<string, RecordRow>,
    exo: map<(string, string), ExoRow>,
    external: seq<ExternalCall>)

  function Empty(): Tables { Tables(map[], map[], {}, map[], map[], []) }

  /** The statements of database/delegation.go, and the calls it does not answer.
      A member of `operator_asset_stakers` is (operator, asset, staker). */
  datatype Write =
    | SetAssociation(stakerId: string, operatorAddr: string)                    // SaveStakerOperatorAssociation
    | DeleteAssociation(stakerId: string)                                       // DeleteStakerOperatorAssociation
    | UpsertState(state: DelegationState)                                       // SaveDelegationState
    | AppendMember(stakerId: string, operatorAddr: string, assetId: string)     // AppendStakerToOperatorAsset
    | RemoveMember(stakerId: string, operatorAddr: string, assetId: string)     // RemoveStakerFromOperatorAsset
    | RemoveAllMembers(operatorAddr: string, assetId: string)                   // DeleteAllStakersFromOperatorAsset
    | SaveRecord(record: UndelegationRecord)                                    // SaveUndelegationRecord
    | SetHoldCount(recordId: string, holdCount: string)                         // UpdateUndelegationRecordHoldCount
    | MatureRecord(recordId: string, amount: string, height: int)               // MatureUndelegationRecord
    | SlashRecord(recordId: string, postSlashingAmount: string)                 // SlashUndelegationRecord
    | AccumulateExo(delegation: ExoDelegationArgs)                              // AccumulateExoAssetDelegation
    | UndelegateExo(stakerId: string, operatorAddr: string, amount: string)     // UndelegateExoAsset
    | External(call: ExternalCall)

  /** `ON CONFLICT (record_id) DO UPDATE SET actual_completed_amount, hold_count`. */
  function RecordSaved(m: map<string, RecordRow>, r: UndelegationRecord): map<string, RecordRow>
  {
    if r.recordId in m then m[r.recordId := m[r.recordId].(actualCompletedAmount := r.actualCompletedAmount, holdCount := r.holdCount)]
    else m[r.recordId := RecordRowOf(r)]
  }

  /** `ON CONFLICT (staker_id, operator_addr) DO UPDATE SET x = stored.x + excluded.x`. */
  function Accumulated(m: map<(string, string), ExoRow>, key: (string, string), d: ExoRow): map<(string, string), ExoRow>
  {
    if key in m
    then m[key := ExoRow(m[key].delegated + d.delegated, m[key].pendingUndelegation + d.pendingUndelegation, m[key].slashed + d.slashed)]
    else m[key := d]
  }

  /** `DELETE … WHERE operator_addr = $1 AND asset_id = $2`. */
  function WithoutPair(members: set<(string, string, string)>, operatorAddr: string, assetId: string): set<(string, string, string)>
  {
    set m | m in members && !(m.0 == operatorAddr && m.1 == assetId)
  }

  /** The stakers of one (operator, asset) pair. */
  function StakersOf(members: set<(string, string, string)>, operatorAddr: string, assetId: string): set<string>
  {
    set m | m in members && m.0 == operatorAddr && m.1 == assetId :: m.2
  }

  function Apply(t: Tables, w: Write): Tables
  {
    match w
    case SetAssociation(s, o) => t.(associations := t.associations[s := o])
    case DeleteAssociation(s) => t.(associations := t.associations - {s})
    case UpsertState(st) =>
      t.(states := t.states[(st.stakerId, st.assetId, st.operatorAddr) := StateRow(st.undelegatableShare, st.waitUndelegationAmount)])
    case AppendMember(s, o, a) => t.(members := t.members + {(o, a, s)})
    case RemoveMember(s, o, a) => t.(members := t.members - {(o, a, s)})
    case RemoveAllMembers(o, a) => t.(members := WithoutPair(t.members, o, a))
    case SaveRecord(r) => t.(records := RecordSaved(t.records, r))
    case SetHoldCount(id, h) =>
      if id in t.records then t.(records := t.records[id := t.records[id].(holdCount := h)]) else t
    case MatureRecord(id, amount, height) =>
      if id in t.records
      then t.(records := t.records[id := t.records[id].(maturityHeight := Some(height), actualCompletedAmount := amount)])
      else t
    case SlashRecord(id, amount) =>
      if id in t.records then t.(records := t.records[id := t.records[id].(actualCompletedAmount := amount)]) else t
    // Amounts that are not numbers are rejected by the store (see the methods below),
    // so these two statements never take effect with them.
    case AccumulateExo(d) =>
      if Numeric(d)
      then t.(exo := Accumulated(t.exo, (d.stakerId, d.operatorAddr),
                                 ExoRow(ParseInteger(d.delegated).value, ParseInteger(d.pendingUndelegation).value, ParseInteger(d.slashed).value)))
      else t
    case UndelegateExo(s, o, amount) =>
      if (s, o) in t.exo && ParseInteger(amount).Some?
      then
        var a, row := ParseInteger(amount).value, t.exo[(s, o)];
        t.(exo := t.exo[(s, o) := row.(pendingUndelegation := row.pendingUndelegation + a, delegated := row.delegated - a)])
      else t
    case External(c) => t.(external := t.external + [c])
  }

  /** How the store answers `GetStakersByOperatorAsset` for the stakers of a pair:
      their rows in some order, or `None` for a failed query. */
  type RowOrder = set<string> -> Option<seq<string>>

  class Store {
    var associations: map<string, string>
    var states: map<(string, string, string), StateRow>
    var members: set<(string, string, string)>
    var records: map<string, RecordRow>
    var exo: map<(string, string), ExoRow>
    var external: seq<ExternalCall>
    /** The rows `GetStakersByOperatorAsset` returns for a set of stakers, in their
        order, or `None` when the query fails; the query is not part of this model. */
    const rowOrder: RowOrder
    /** `GetDelegatedAmount(staker, asset)`, the amount the store last recorded as
        delegated, or `None` when the query fails; it is not part of this model. */
    const delegatedAmountOf: (string, string) -> Option<int>

    function Snapshot(): Tables
      reads this
    {
      Tables(associations, states, members, records, exo, external)
    }

    constructor(rowOrder: RowOrder, delegatedAmountOf: (string, string) -> Option<int>)
      ensures Snapshot() == Empty() && this.rowOrder == rowOrder && this.delegatedAmountOf == delegatedAmountOf
    {
      associations, states, members, records, exo, external := map[], map[], {}, map[], map[], [];
      this.rowOrder, this.delegatedAmountOf := rowOrder, delegatedAmountOf;
    }

    /** `SaveStakerOperatorAssociation`: upsert on the staker. */
    method SaveStakerOperatorAssociation(stakerId: string, operatorAddr: string) returns (r: Outcome)
      modifies this`associations
      ensures (r == Pass && associations == old(associations)[stakerId := operatorAddr]) || (r == Fail(DbError) && associations == old(associations))
      ensures (r == Pass && Snapshot() == Apply(old(Snapshot()), SetAssociation(stakerId, operatorAddr)))
           || (r == Fail(DbError) && Snapshot() == old(Snapshot()))
    {
      r := Exec();
      if r.Pass? {
        associations := associations[stakerId := operatorAddr];
      }
    }

    /** `DeleteStakerOperatorAssociation`. */
    method DeleteStakerOperatorAssociation(stakerId: string) returns (r: Outcome)
      modifies this`associations
      ensures (r == Pass && associations == old(associations) - {stakerId}) || (r == Fail(DbError) && associations == old(associations))
      ensures (r == Pass && Snapshot() == Apply(old(Snapshot()), DeleteAssociation(stakerId)))
           || (r == Fail(DbError) && Snapshot() == old(Snapshot()))
    {
      r := Exec();
      if r.Pass? {
        associations := associations - {stakerId};
      }
    }

    /** `SaveDelegationState`: upsert on (staker, asset, operator) of both amounts. */
    method SaveDelegationState(state: DelegationState) returns (r: Outcome)
      modifies this`states
      ensures (r == Pass && states == old(states)[(state.stakerId, state.assetId, state.operatorAddr) :=
                                                   StateRow(state.undelegatableShare, state.waitUndelegationAmount)])
           || (r == Fail(DbError) && states == old(states))
      ensures (r == Pass && Snapshot() == Apply(old(Snapshot()), UpsertState(state))) || (r == Fail(DbError) && Snapshot() == old(Snapshot()))
    {
      r := Exec();
      if r.Pass? {
        states := states[(state.stakerId, state.assetId, state.operatorAddr) := StateRow(state.undelegatableShare, state.waitUndelegationAmount)];
      }
    }

    /** `AppendStakerToOperatorAsset`: `ON CONFLICT DO NOTHING`. */
    method AppendStakerToOperatorAsset(stakerId: string, operatorAddr: string, assetId: string) returns (r: Outcome)
      modifies this`members
      ensures (r == Pass && members == old(members) + {(operatorAddr, assetId, stakerId)}) || (r == Fail(DbError) && members == old(members))
      ensures (r == Pass && Snapshot() == Apply(old(Snapshot()), AppendMember(stakerId, operatorAddr, assetId)))
           || (r == Fail(DbError) && Snapshot() == old(Snapshot()))
    {
      r := Exec();
      if r.Pass? {
        members := members + {(operatorAddr, assetId, stakerId)};
      }
    }

    /** `RemoveStakerFromOperatorAsset`. */
    method RemoveStakerFromOperatorAsset(stakerId: string, operatorAddr: string, assetId: string) returns (r: Outcome)
      modifies this`members
      ensures (r == Pass && members == old(members) - {(operatorAddr, assetId, stakerId)}) || (r == Fail(DbError) && members == old(members))
      ensures (r == Pass && Snapshot() == Apply(old(Snapshot()), RemoveMember(stakerId, operatorAddr, assetId)))
           || (r == Fail(DbError) && Snapshot() == old(Snapshot()))
    {
      r := Exec();
      if r.Pass? {
        members := members - {(operatorAddr, assetId, stakerId)};
      }
    }

    /** `DeleteAllStakersFromOperatorAsset`. */
    method DeleteAllStakersFromOperatorAsset(operatorAddr: string, assetId: string) returns (r: Outcome)
      modifies this`members
      ensures (r == Pass && members == WithoutPair(old(members), operatorAddr, assetId)) || (r == Fail(DbError) && members == old(members))
      ensures (r == Pass && Snapshot() == Apply(old(Snapshot()), RemoveAllMembers(operatorAddr, assetId)))
           || (r == Fail(DbError) && Snapshot() == old(Snapshot()))
    {
      r := Exec();
      if r.Pass? {
        members := WithoutPair(members, operatorAddr, assetId);
      }
    }

    /** `SaveUndelegationRecord`: inserts the record, or on a known record id updates
        only the actual completed amount and the hold count. */
    method SaveUndelegationRecord(record: UndelegationRecord) returns (r: Outcome)
      modifies this`records
      ensures (r == Pass && records == RecordSaved(old(records), record)) || (r == Fail(DbError) && records == old(records))
      ensures (r == Pass && Snapshot() == Apply(old(Snapshot()), SaveRecord(record))) || (r == Fail(DbError) && Snapshot() == old(Snapshot()))
    {
      r := Exec();
      if r.Pass? {
        records := RecordSaved(records, record);
      }
    }

    /** `UpdateUndelegationRecordHoldCount`. */
    method UpdateUndelegationRecordHoldCount(recordId: string, holdCount: string) returns (r: Outcome)
      modifies this`records
      ensures (r == Pass && records == if recordId in old(records) then old(records)[recordId := old(records)[recordId].(holdCount := holdCount)] else old(records))
           || (r == Fail(DbError) && records == old(records))
      ensures (r == Pass && Snapshot() == Apply(old(Snapshot()), SetHoldCount(recordId, holdCount)))
           || (r == Fail(DbError) && Snapshot() == old(Snapshot()))
    {
      r := Exec();
      if r.Pass? && recordId in records {
        records := records[recordId := records[recordId].(holdCount := holdCount)];
      }
    }

    /** `MatureUndelegationRecord`: sets the maturity height and the actual completed
        amount of one record. */
    method MatureUndelegationRecord(recordId: string, amount: string, height: int) returns (r: Outcome)
      modifies this`records
      ensures (r == Pass && Snapshot() == Apply(old(Snapshot()), MatureRecord(recordId, amount, height)))
           || (r == Fail(DbError) && Snapshot() == old(Snapshot()))
    {
      r := Exec();
      if r.Pass? && recordId in records {
        records := records[recordId := records[recordId].(maturityHeight := Some(height), actualCompletedAmount := amount)];
      }
    }

    /** `SlashUndelegationRecord`: sets the actual completed amount of one record. */
    method SlashUndelegationRecord(recordId: string, postSlashingAmount: string) returns (r: Outcome)
      modifies this`records
      ensures (r == Pass && Snapshot() == Apply(old(Snapshot()), SlashRecord(recordId, postSlashingAmount)))
           || (r == Fail(DbError) && Snapshot() == old(Snapshot()))
    {
      r := Exec();
      if r.Pass? && recordId in records {
        records := records[recordId := records[recordId].(actualCompletedAmount := postSlashingAmount)];
      }
    }

    /** `AccumulateExoAssetDelegation`: adds the three amounts into the row of
        (staker, operator), or inserts them; amounts that are not numbers are
        rejected. */
    method AccumulateExoAssetDelegation(d: ExoDelegationArgs) returns (r: Outcome)
      modifies this`exo
      ensures !Numeric(d) ==> r == Fail(DbError) && exo == old(exo)
      ensures (r == Pass && Snapshot() == Apply(old(Snapshot()), AccumulateExo(d))) || (r == Fail(DbError) && Snapshot() == old(Snapshot()))
    {
      if !Numeric(d) {
        return Fail(DbError);
      }
      r := Exec();
      if r.Pass? {
        exo := Accumulated(exo, (d.stakerId, d.operatorAddr),
                           ExoRow(ParseInteger(d.delegated).value, ParseInteger(d.pendingUndelegation).value, ParseInteger(d.slashed).value));
      }
    }

    /** `UndelegateExoAsset`: moves `amount` from delegated to pending undelegation in
        the row of (staker, operator), if there is one. */
    method UndelegateExoAsset(stakerId: string, operatorAddr: string, amount: string) returns (r: Outcome)
      modifies this`exo
      ensures ParseInteger(amount).None? ==> r == Fail(DbError) && exo == old(exo)
      ensures (r == Pass && Snapshot() == Apply(old(Snapshot()), UndelegateExo(stakerId, operatorAddr, amount)))
           || (r == Fail(DbError) && Snapshot() == old(Snapshot()))
    {
      if ParseInteger(amount).None? {
        return Fail(DbError);
      }
      r := Exec();
      if r.Pass? && (stakerId, operatorAddr) in exo {
        var a, row := ParseInteger(amount).value, exo[(stakerId, operatorAddr)];
        exo := exo[(stakerId, operatorAddr) := row.(pendingUndelegation := row.pendingUndelegation + a, delegated := row.delegated - a)];
      }
    }

    /** A store call this file does not answer; only the call is recorded. */
    method Call(c: ExternalCall) returns (r: Outcome)
      modifies this`external
      ensures (r == Pass && external == old(external) + [c]) || (r == Fail(DbError) && external == old(external))
      ensures (r == Pass && Snapshot() == Apply(old(Snapshot()), External(c))) || (r == Fail(DbError) && Snapshot() == old(Snapshot()))
    {
      r := Exec();
      if r.Pass? {
        external := external + [c];
      }
    }

    /** `GetStakersByOperatorAsset`: the stakers of the pair in row order, or `None`
        when the query fails. */
    function GetStakersByOperatorAsset(operatorAddr: string, assetId: string): Option<seq<string>>
      reads this
    {
      rowOrder(StakersOf(members, operatorAddr, assetId))
    }
  }

  // ---------------------------------------------------------------------------------
  // Properties

  /** After an association is saved the staker maps to exactly that operator, whatever
      it mapped to before; no other staker and no other table changes. */
  lemma AssociationReplaced(t: Tables, s: string, o: string)
    ensures var u := Apply(t, SetAssociation(s, o));
      && s in u.associations && u.associations[s] == o
      && u.associations.Keys == t.associations.Keys + {s}
      && (forall k :: k in t.associations && k != s ==> u.associations[k] == t.associations[k])
      && u == t.(associations := u.associations)
  {
  }

  /** Deleting an association removes only that staker's row, and is a no-op when the
      staker has none. */
  lemma AssociationDeleted(t: Tables, s: string)
    ensures var u := Apply(t, DeleteAssociation(s));
      && u.associations.Keys == t.associations.Keys - {s}
      && (forall k :: k in u.associations ==> u.associations[k] == t.associations[k])
      && u == t.(associations := u.associations)
    ensures s !in t.associations ==> Apply(t, DeleteAssociation(s)) == t
  {
    if s !in t.associations {
      assert t.associations - {s} == t.associations;
    }
  }

  /** A delegation state is keyed on (staker, asset, operator): saving one replaces
      both amounts of that key, whatever was stored, and no other key. */
  lemma StateOverwrites(t: Tables, st: DelegationState)
    ensures var u := Apply(t, UpsertState(st)).states;
      && u.Keys == t.states.Keys + {(st.stakerId, st.assetId, st.operatorAddr)}
      && u[(st.stakerId, st.assetId, st.operatorAddr)] == StateRow(st.undelegatableShare, st.waitUndelegationAmount)
      && forall k :: k in t.states && k != (st.stakerId, st.assetId, st.operatorAddr) ==> u[k] == t.states[k]
  {
  }

  /** Appending a staker is set insertion: the staker is then a member, and appending
      it again changes nothing. */
  lemma AppendIdempotent(t: Tables, s: string, o: string, a: string)
    ensures (o, a, s) in Apply(t, AppendMember(s, o, a)).members
    ensures Apply(t, AppendMember(s, o, a)).members == t.members + {(o, a, s)}
    ensures Apply(Apply(t, AppendMember(s, o, a)), AppendMember(s, o, a)) == Apply(t, AppendMember(s, o, a))
    ensures (o, a, s) in t.members ==> Apply(t, AppendMember(s, o, a)) == t
  {
    if (o, a, s) in t.members {
      assert t.members + {(o, a, s)} == t.members;
    }
  }

  /** Removing a staker removes exactly that (operator, asset, staker) triple; removing
      all stakers of a pair removes every member of that pair and no member of another. */
  lemma RemovalsExact(t: Tables, s: string, o: string, a: string)
    ensures forall m :: m in Apply(t, RemoveMember(s, o, a)).members <==> m in t.members && m != (o, a, s)
    ensures forall m :: m in Apply(t, RemoveAllMembers(o, a)).members <==> m in t.members && (m.0 != o || m.1 != a)
    ensures StakersOf(Apply(t, RemoveAllMembers(o, a)).members, o, a) == {}
    ensures forall o', a' :: (o', a') != (o, a) ==> StakersOf(Apply(t, RemoveAllMembers(o, a)).members, o', a') == StakersOf(t.members, o', a')
  {
  }

  /** Saving a record whose id is stored changes only its actual completed amount and
      hold count; every other column keeps its first-inserted value. A new id is
      inserted with every column from the record and no maturity height. */
  lemma SaveRecordKeepsFirst(t: Tables, r: UndelegationRecord)
    ensures var u := Apply(t, SaveRecord(r)).records;
      && r.recordId in u
      && u.Keys == t.records.Keys + {r.recordId}
      && (forall k :: k in t.records && k != r.recordId ==> u[k] == t.records[k])
      && (r.recordId in t.records ==>
            u[r.recordId] == t.records[r.recordId].(actualCompletedAmount := r.actualCompletedAmount, holdCount := r.holdCount))
      && (r.recordId !in t.records ==>
            u[r.recordId] == RecordRowOf(r) && u[r.recordId].maturityHeight.None? && u[r.recordId].amount == r.amount)
  {
  }

  /** The hold-count, maturity and slash updates each change only their named columns
      of the one record, are no-ops for an unknown id, and repeating one changes
      nothing more. */
  lemma RecordUpdatesNamedColumns(t: Tables, id: string, h: string, amount: string, height: int)
    ensures id !in t.records ==>
      Apply(t, SetHoldCount(id, h)) == t && Apply(t, MatureRecord(id, amount, height)) == t && Apply(t, SlashRecord(id, amount)) == t
    ensures id in t.records ==>
      && Apply(t, SetHoldCount(id, h)).records == t.records[id := t.records[id].(holdCount := h)]
      && Apply(t, MatureRecord(id, amount, height)).records
         == t.records[id := t.records[id].(maturityHeight := Some(height), actualCompletedAmount := amount)]
      && Apply(t, SlashRecord(id, amount)).records == t.records[id := t.records[id].(actualCompletedAmount := amount)]
    ensures Apply(Apply(t, SetHoldCount(id, h)), SetHoldCount(id, h)) == Apply(t, SetHoldCount(id, h))
    ensures Apply(Apply(t, MatureRecord(id, amount, height)), MatureRecord(id, amount, height)) == Apply(t, MatureRecord(id, amount, height))
    ensures Apply(Apply(t, SlashRecord(id, amount)), SlashRecord(id, amount)) == Apply(t, SlashRecord(id, amount))
    ensures Apply(t, SetHoldCount(id, h)).records.Keys == t.records.Keys
  {
  }

  /** A hold-count update sets a known record's hold count. */
  lemma HoldCountSets(t: Tables, id: string, h: string)
    ensures id in t.records ==> id in Apply(t, SetHoldCount(id, h)).records && Apply(t, SetHoldCount(id, h)).records[id].holdCount == h
  {
  }

  /** Of two hold-count updates of one record, the later one wins. */
  lemma HoldCountLastWins(t: Tables, id: string, earlier: string, h: string)
    ensures Apply(Apply(t, SetHoldCount(id, earlier)), SetHoldCount(id, h)) == Apply(t, SetHoldCount(id, h))
  {
    if id in t.records {
      var m := t.records[id := t.records[id].(holdCount := earlier)];
      assert m[id := m[id].(holdCount := h)] == t.records[id := t.records[id].(holdCount := h)];
    }
  }

  /** Accumulation adds each of the three amounts to the stored row of (staker,
      operator), or starts the row with them; no other row changes. */
  lemma AccumulateAdds(t: Tables, d: ExoDelegationArgs)
    requires Numeric(d)
    ensures var u, key := Apply(t, AccumulateExo(d)).exo, (d.stakerId, d.operatorAddr);
      var dd, dp, ds := ParseInteger(d.delegated).value, ParseInteger(d.pendingUndelegation).value, ParseInteger(d.slashed).value;
      && key in u
      && (key in t.exo ==>
            u[key] == ExoRow(t.exo[key].delegated + dd, t.exo[key].pendingUndelegation + dp, t.exo[key].slashed + ds))
      && (key !in t.exo ==> u[key] == ExoRow(dd, dp, ds))
      && forall k :: k in t.exo && k != key ==> k in u && u[k] == t.exo[k]
  {
  }

  /** Two accumulations into one row add up: accumulating `x` then `y` gives the row
      that accumulating their sums would. */
  lemma AccumulateTwice(m: map<(string, string), ExoRow>, key: (string, string), x: ExoRow, y: ExoRow)
    ensures Accumulated(Accumulated(m, key, x), key, y)
         == Accumulated(m, key, ExoRow(x.delegated + y.delegated, x.pendingUndelegation + y.pendingUndelegation, x.slashed + y.slashed))
  {
  }

  /** Undelegation moves `amount` from delegated to pending: the pending amount grows
      by it, and delegated plus pending is unchanged; a missing row stays missing. */
  lemma UndelegateKeepsSum(t: Tables, s: string, o: string, amount: string)
    requires ParseInteger(amount).Some?
    ensures var u := Apply(t, UndelegateExo(s, o, amount)).exo;
      && u.Keys == t.exo.Keys
      && ((s, o) in t.exo ==>
            && u[(s, o)].delegated + u[(s, o)].pendingUndelegation == t.exo[(s, o)].delegated + t.exo[(s, o)].pendingUndelegation
            && u[(s, o)].pendingUndelegation == t.exo[(s, o)].pendingUndelegation + ParseInteger(amount).value
            && u[(s, o)].slashed == t.exo[(s, o)].slashed)
      && forall k :: k in t.exo && k != (s, o) ==> u[k] == t.exo[k]
  {
  }

  /** Recorded calls change no table. */
  lemma {:induction false} CallsOnly(t: Tables, ws: seq<Write>)
    requires forall i :: 0 <= i < |ws| ==> ws[i].External?
    ensures ApplyAll(Apply, t, ws) == t.(external := ApplyAll(Apply, t, ws).external)
    decreases |ws|
  {
    if ws != [] {
      assert forall i :: 0 <= i < |ws| - 1 ==> ws[..|ws| - 1][i] == ws[i];
      CallsOnly(t, ws[..|ws| - 1]);
    }
  }

  /** Two record tables hold the same record ids, each with the same staker, asset
      and operator. */
  predicate SameIdentities(a: map<string, RecordRow>, b: map<string, RecordRow>)
  {
    a.Keys == b.Keys &&
    forall id :: id in a ==> id in b && a[id].stakerId == b[id].stakerId && a[id].assetId == b[id].assetId && a[id].operatorAddr == b[id].operatorAddr
  }

  /** Statements other than `SaveRecord` neither add nor remove a record, nor change
      whose record it is. */
  lemma {:induction false} IdentitiesKept(t: Tables, ws: seq<Write>)
    requires forall i :: 0 <= i < |ws| ==> !ws[i].SaveRecord?
    ensures SameIdentities(ApplyAll(Apply, t, ws).records, t.records)
    decreases |ws|
  {
    if ws != [] {
      assert forall i :: 0 <= i < |ws| - 1 ==> ws[..|ws| - 1][i] == ws[i];
      IdentitiesKept(t, ws[..|ws| - 1]);
      var before := ApplyAll(Apply, t, ws[..|ws| - 1]);
      IdentityStep(before, ws[|ws| - 1]);
    }
  }

  /** What one statement other than `SaveRecord` does to the record identities. */
  lemma IdentityStep(t: Tables, w: Write)
    requires !w.SaveRecord?
    ensures SameIdentities(Apply(t, w).records, t.records)
  {
    var m := t.records;
    match w
    case SetHoldCount(id, h) =>
      if id in m {
        RowUpdated(m, id, m[id].(holdCount := h));
      }
    case MatureRecord(id, amount, height) =>
      if id in m {
        RowUpdated(m, id, m[id].(maturityHeight := Some(height), actualCompletedAmount := amount));
      }
    case SlashRecord(id, amount) =>
      if id in m {
        RowUpdated(m, id, m[id].(actualCompletedAmount := amount));
      }
    case _ =>
  }

  lemma SameIdentitiesTrans(a: map<string, RecordRow>, b: map<string, RecordRow>, c: map<string, RecordRow>)
    requires SameIdentities(a, b) && SameIdentities(b, c)
    ensures SameIdentities(a, c)
  {
  }

  lemma RowUpdated(m: map<string, RecordRow>, id: string, row: RecordRow)
    requires id in m && row.stakerId == m[id].stakerId && row.assetId == m[id].assetId && row.operatorAddr == m[id].operatorAddr
    ensures SameIdentities(m[id := row], m)
  {
  }
}
