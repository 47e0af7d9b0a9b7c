// database/operator.go: operator details, consensus keys (current, previous, removal
// mark), AVS opt-in states and the USD values of operators and AVSs.

module OperatorDb {
  import opened Wrappers
  import opened Replay
  import opened OperatorTypes

  /** The timestamp `sdk.ParseTime` gives; its calendar arithmetic is not modelled. */
  type Timestamp = int

  /** A row of `operators`, keyed by the earnings address. */
  datatype OperatorRow = OperatorRow(
    approveAddr: string,
    metaInfo: string,
    commissionRate: string,
    maxCommissionRate: string,
    maxChangeRate: string,
    commissionLastUpdated: Timestamp)

  /** A row of `consensus_keys`, keyed by (operator, chain id). A new row has no
      previous key and is not being removed. */
  datatype ConsKeyRow = ConsKeyRow(
    pubkeyHex: string,
    consensusAddress: string,
    prevPubkeyHex: Option<string>,
    prevConsAddr: Option<string>,
    isRemoving: bool)

  /** A row of `avs_opt_ins`, keyed by (operator, AVS). */
  datatype OptRow = OptRow(slashContract: string, optInHeight: string, optOutHeight: string, jailed: bool)

  /** A row of `operator_usd_values`, keyed by (operator, AVS). */
  datatype UsdRow = UsdRow(self: string, total: string, other: string, active: string)

  datatype Tables = Tables(
    operators: map<string, OperatorRow>,
    consKeys: map<(string, string), ConsKeyRow>,
    optIns: map<(string, string), OptRow>,
    operatorUsd: map<(string, string), UsdRow>,
    avsUsd: map<string, string>)

  function Empty(): Tables { Tables(map[], map[], map[], map[], map[]) }

  /** The statements of database/operator.go, each named after the function that sends it. */
  datatype Write =
    | UpsertOperator(operator: Operator, updated: Timestamp)                    // SaveOperatorDetail
    | UpsertConsKey(operatorAddr: string, chainId: string, pubkeyHex: string, consAddress: string)  // SaveOperatorConsKey
    | UpsertOpted(opted: Opted)                                                  // SaveOptedState
    | UpsertOperatorUsd(value: OperatorUSDValue)                                 // SaveOperatorUSDValue
    | DeleteOperatorUsd(operatorAddr: string, avsAddr: string)                   // DeleteOperatorUSDValue
    | UpsertAvsUsd(avsValue: AvsUSDValue)                                        // SaveAvsUSDValue
    | DeleteAvsUsd(avsAddr: string)                                              // DeleteAvsUSDValue
    | SetPrevConsKey(operatorAddr: string, chainId: string, pubkeyHex: string, consAddress: string) // SaveOperatorPrevConsKey
    | ClearPrevConsKey(operatorAddr: string, chainId: string)                    // ClearOperatorPrevConsKey
    | MarkKeyRemoval(operatorAddr: string, chainId: string)                      // MarkOperatorKeyRemoval
    | RemoveConsKey(operatorAddr: string, chainId: string)                       // RemoveOperatorConsKey

  /** `INSERT … ON CONFLICT (operator_addr, chain_id) DO UPDATE SET consensus_address,
      pubkey_hex`: an existing row keeps its previous key and removal mark. */
  function ConsKeySaved(m: map<(string, string), ConsKeyRow>, k: (string, string), pubkeyHex: string, consAddress: string): map<(string, string), ConsKeyRow>
  {
    m[k := if k in m then m[k].(pubkeyHex := pubkeyHex, consensusAddress := consAddress)
           else ConsKeyRow(pubkeyHex, consAddress, None, None, false)]
  }

  /** `UPDATE consensus_keys SET … WHERE operator_addr = $1 AND chain_id = $2`: changes
      the matching row, if there is one, and never adds a row. */
  function ConsKeyUpdated(m: map<(string, string), ConsKeyRow>, k: (string, string), f: ConsKeyRow -> ConsKeyRow): map<(string, string), ConsKeyRow>
  {
    if k in m then m[k := f(m[k])] else m
  }

  /** `INSERT … ON CONFLICT (operator_addr, avs_addr) DO UPDATE SET self, total, active`:
      an existing row keeps its `other_usd_value`. */
  function UsdSaved(m: map<(string, string), UsdRow>, v: OperatorUSDValue): map<(string, string), UsdRow>
  {
    var k := (v.operatorAddress, v.avsAddress);
    m[k := UsdRow(v.selfUSDValue, v.totalUSDValue, if k in m then m[k].other else v.otherUSDValue, v.activeUSDValue)]
  }

  function Apply(t: Tables, w: Write): Tables
  {
    match w
    case UpsertOperator(o, ts) =>
      t.(operators := t.operators[o.earningsAddress := OperatorRow(o.approveAddress, o.metaInfo, o.rate, o.maxRate, o.maxChangeRate, ts)])
    case UpsertConsKey(op, chain, hex, addr) => t.(consKeys := ConsKeySaved(t.consKeys, (op, chain), hex, addr))
    case UpsertOpted(o) =>
      t.(optIns := t.optIns[(o.operatorAddress, o.avsAddress) := OptRow(o.slashContract, o.inHeight, o.outHeight, o.jailed)])
    case UpsertOperatorUsd(v) => t.(operatorUsd := UsdSaved(t.operatorUsd, v))
    case DeleteOperatorUsd(op, avs) => t.(operatorUsd := t.operatorUsd - {(op, avs)})
    case UpsertAvsUsd(v) => t.(avsUsd := t.avsUsd[v.avsAddress := v.usdValue])
    case DeleteAvsUsd(avs) => t.(avsUsd := t.avsUsd - {avs})
    case SetPrevConsKey(op, chain, hex, addr) =>
      t.(consKeys := ConsKeyUpdated(t.consKeys, (op, chain), (row: ConsKeyRow) => row.(prevPubkeyHex := Some(hex), prevConsAddr := Some(addr))))
    case ClearPrevConsKey(op, chain) =>
      t.(consKeys := ConsKeyUpdated(t.consKeys, (op, chain), (row: ConsKeyRow) => row.(prevPubkeyHex := None, prevConsAddr := None)))
    case MarkKeyRemoval(op, chain) =>
      t.(consKeys := ConsKeyUpdated(t.consKeys, (op, chain), (row: ConsKeyRow) => row.(isRemoving := true)))
    case RemoveConsKey(op, chain) => t.(consKeys := t.consKeys - {(op, chain)})
  }

  /** `SaveOperatorDetail`: the commission time is parsed first; a time that does not
      parse is an error and nothing is sent. */
  function DetailScript(parseTime: string -> Option<Timestamp>, o: Operator): (s: Script<Write>)
    ensures parseTime(o.commissionUpdateTime).None? ==> s == Stop(ParseError(o.commissionUpdateTime))
    ensures parseTime(o.commissionUpdateTime).Some? ==> s == Single(UpsertOperator(o, parseTime(o.commissionUpdateTime).value))
  {
    match parseTime(o.commissionUpdateTime)
    case None => Stop(ParseError(o.commissionUpdateTime))
    case Some(ts) => Single(UpsertOperator(o, ts))
  }

  /** The column list of the operator USD insert in `SaveOperatorUSDValue`. */
  const OperatorUsdColumns: seq<string> :=
    ["operator_addr", "avs_addr", "self_usd_value", "total_usd_value", "other_usd_value", "active_usd_value"]

  /** The `VALUES` list of that insert as written: five placeholders. */
  const OperatorUsdValuesAsWritten: seq<string> := ["$1", "$2", "$3", "$4", "$5"]

  /** The `VALUES` list the six columns call for. */
  const OperatorUsdValues: seq<string> := OperatorUsdValuesAsWritten + ["$6"]

  /** PostgreSQL refuses an `INSERT` that names more columns than its `VALUES` list gives. */
  predicate InsertWellFormed(columns: seq<string>, values: seq<string>)
  {
    |columns| == |values|
  }

  /** An operator USD save with a given `VALUES` list: the rows after the upsert, or
      `None` when the database refuses the statement before touching any row. */
  function OperatorUsdSave(values: seq<string>, t: Tables, v: OperatorUSDValue): Option<Tables>
  {
    if InsertWellFormed(OperatorUsdColumns, values) then Some(Apply(t, UpsertOperatorUsd(v))) else None
  }

  /** As written the insert binds five values to six columns, so every operator USD save
      is refused whatever the value; with the sixth placeholder it is the upsert. */
  lemma OperatorUsdInsertRefused(t: Tables, v: OperatorUSDValue)
    ensures !InsertWellFormed(OperatorUsdColumns, OperatorUsdValuesAsWritten)
    ensures OperatorUsdSave(OperatorUsdValuesAsWritten, t, v) == None
    ensures OperatorUsdSave(OperatorUsdValues, t, v) == Some(t.(operatorUsd := UsdSaved(t.operatorUsd, v)))
  {
  }

  class Store {
    var operators: map<string, OperatorRow>
    var consKeys: map<(string, string), ConsKeyRow>
    var optIns: map<(string, string), OptRow>
    var operatorUsd: map<(string, string), UsdRow>
    var avsUsd: map<string, string>
    /** `sdk.ParseTime`, which is not part of this model. */
    const parseTime: string -> Option<Timestamp>

    function Snapshot(): Tables
      reads this
    {
      Tables(operators, consKeys, optIns, operatorUsd, avsUsd)
    }

    constructor(parseTime: string -> Option<Timestamp>)
      ensures Snapshot() == Empty() && this.parseTime == parseTime
    {
      operators, consKeys, optIns, operatorUsd, avsUsd := map[], map[], map[], map[], map[];
      this.parseTime := parseTime;
    }

    /** `SaveOperatorDetail`: upsert on the earnings address, overwriting the six other
        columns; a commission time that does not parse is an error and nothing is sent. */
    method SaveOperatorDetail(o: Operator) returns (r: Outcome)
      modifies this`operators
      ensures parseTime(o.commissionUpdateTime).None? ==>
        r == Fail(ParseError(o.commissionUpdateTime)) && operators == old(operators)
      ensures parseTime(o.commissionUpdateTime).Some? ==>
        || (r == Pass && operators == old(operators)[o.earningsAddress :=
              OperatorRow(o.approveAddress, o.metaInfo, o.rate, o.maxRate, o.maxChangeRate, parseTime(o.commissionUpdateTime).value)])
        || (r == Fail(DbError) && operators == old(operators))
      ensures Performed(DetailScript(parseTime, o), r, if r.Pass? then 1 else 0)
      ensures Snapshot() == ApplyAll(Apply, old(Snapshot()), DetailScript(parseTime, o).writes[..if r.Pass? then 1 else 0])
    {
      var parsed := parseTime(o.commissionUpdateTime);
      if parsed.None? {
        return Fail(ParseError(o.commissionUpdateTime));
      }
      r := Exec();
      if r.Pass? {
        operators := operators[o.earningsAddress := OperatorRow(o.approveAddress, o.metaInfo, o.rate, o.maxRate, o.maxChangeRate, parsed.value)];
        assert DetailScript(parseTime, o).writes[..1] == [] + [UpsertOperator(o, parsed.value)];
      }
    }

    /** `SaveOperatorConsKey`: upsert on (operator, chain id) of the current key only. */
    method SaveOperatorConsKey(operatorAddr: string, chainID: string, pubkeyHex: string, consAddress: string) returns (r: Outcome)
      modifies this`consKeys
      ensures (r == Pass && consKeys == ConsKeySaved(old(consKeys), (operatorAddr, chainID), pubkeyHex, consAddress))
           || (r == Fail(DbError) && consKeys == old(consKeys))
      ensures (r == Pass && Snapshot() == Apply(old(Snapshot()), UpsertConsKey(operatorAddr, chainID, pubkeyHex, consAddress)))
           || (r == Fail(DbError) && Snapshot() == old(Snapshot()))
    {
      r := Exec();
      if r.Pass? {
        consKeys := ConsKeySaved(consKeys, (operatorAddr, chainID), pubkeyHex, consAddress);
      }
    }

    /** `SaveOptedState`: upsert on (operator, AVS) of all four columns. */
    method SaveOptedState(data: Opted) returns (r: Outcome)
      modifies this`optIns
      ensures (r == Pass && optIns == old(optIns)[(data.operatorAddress, data.avsAddress) :=
                 OptRow(data.slashContract, data.inHeight, data.outHeight, data.jailed)])
           || (r == Fail(DbError) && optIns == old(optIns))
      ensures (r == Pass && Snapshot() == Apply(old(Snapshot()), UpsertOpted(data))) || (r == Fail(DbError) && Snapshot() == old(Snapshot()))
    {
      r := Exec();
      if r.Pass? {
        optIns := optIns[(data.operatorAddress, data.avsAddress) := OptRow(data.slashContract, data.inHeight, data.outHeight, data.jailed)];
      }
    }

    /** `SaveOperatorUSDValue`: upsert on (operator, AVS) of the self, total and active
        values; `other` is only set on insert. */
    method SaveOperatorUSDValue(data: OperatorUSDValue) returns (r: Outcome)
      modifies this`operatorUsd
      ensures (r == Pass && operatorUsd == UsdSaved(old(operatorUsd), data)) || (r == Fail(DbError) && operatorUsd == old(operatorUsd))
      ensures (r == Pass && Snapshot() == Apply(old(Snapshot()), UpsertOperatorUsd(data))) || (r == Fail(DbError) && Snapshot() == old(Snapshot()))
    {
      r := Exec();
      if r.Pass? {
        operatorUsd := UsdSaved(operatorUsd, data);
      }
    }

    /** `DeleteOperatorUSDValue`. */
    method DeleteOperatorUSDValue(operatorAddr: string, avsAddr: string) returns (r: Outcome)
      modifies this`operatorUsd
      ensures (r == Pass && operatorUsd == old(operatorUsd) - {(operatorAddr, avsAddr)}) || (r == Fail(DbError) && operatorUsd == old(operatorUsd))
      ensures (r == Pass && Snapshot() == Apply(old(Snapshot()), DeleteOperatorUsd(operatorAddr, avsAddr)))
           || (r == Fail(DbError) && Snapshot() == old(Snapshot()))
    {
      r := Exec();
      if r.Pass? {
        operatorUsd := operatorUsd - {(operatorAddr, avsAddr)};
      }
    }

    /** `SaveAvsUSDValue`: upsert on the AVS address. */
    method SaveAvsUSDValue(data: AvsUSDValue) returns (r: Outcome)
      modifies this`avsUsd
      ensures (r == Pass && avsUsd == old(avsUsd)[data.avsAddress := data.usdValue]) || (r == Fail(DbError) && avsUsd == old(avsUsd))
      ensures (r == Pass && Snapshot() == Apply(old(Snapshot()), UpsertAvsUsd(data))) || (r == Fail(DbError) && Snapshot() == old(Snapshot()))
    {
      r := Exec();
      if r.Pass? {
        avsUsd := avsUsd[data.avsAddress := data.usdValue];
      }
    }

    /** `DeleteAvsUSDValue`. */
    method DeleteAvsUSDValue(avsAddr: string) returns (r: Outcome)
      modifies this`avsUsd
      ensures (r == Pass && avsUsd == old(avsUsd) - {avsAddr}) || (r == Fail(DbError) && avsUsd == old(avsUsd))
      ensures (r == Pass && Snapshot() == Apply(old(Snapshot()), DeleteAvsUsd(avsAddr))) || (r == Fail(DbError) && Snapshot() == old(Snapshot()))
    {
      r := Exec();
      if r.Pass? {
        avsUsd := avsUsd - {avsAddr};
      }
    }

    /** `SaveOperatorPrevConsKey`: sets the previous key of an existing row. */
    method SaveOperatorPrevConsKey(operatorAddr: string, chainID: string, pubkeyHex: string, consAddress: string) returns (r: Outcome)
      modifies this`consKeys
      ensures (r == Pass && Snapshot() == Apply(old(Snapshot()), SetPrevConsKey(operatorAddr, chainID, pubkeyHex, consAddress)))
           || (r == Fail(DbError) && Snapshot() == old(Snapshot()))
    {
      r := Exec();
      if r.Pass? {
        consKeys := ConsKeyUpdated(consKeys, (operatorAddr, chainID), (row: ConsKeyRow) => row.(prevPubkeyHex := Some(pubkeyHex), prevConsAddr := Some(consAddress)));
      }
    }

    /** `ClearOperatorPrevConsKey`: nulls the previous key of an existing row. */
    method ClearOperatorPrevConsKey(operatorAddr: string, chainID: string) returns (r: Outcome)
      modifies this`consKeys
      ensures (r == Pass && Snapshot() == Apply(old(Snapshot()), ClearPrevConsKey(operatorAddr, chainID)))
           || (r == Fail(DbError) && Snapshot() == old(Snapshot()))
    {
      r := Exec();
      if r.Pass? {
        consKeys := ConsKeyUpdated(consKeys, (operatorAddr, chainID), (row: ConsKeyRow) => row.(prevPubkeyHex := None, prevConsAddr := None));
      }
    }

    /** `MarkOperatorKeyRemoval`: sets `is_removing` on an existing row. */
    method MarkOperatorKeyRemoval(operatorAddr: string, chainID: string) returns (r: Outcome)
      modifies this`consKeys
      ensures (r == Pass && Snapshot() == Apply(old(Snapshot()), MarkKeyRemoval(operatorAddr, chainID)))
           || (r == Fail(DbError) && Snapshot() == old(Snapshot()))
    {
      r := Exec();
      if r.Pass? {
        consKeys := ConsKeyUpdated(consKeys, (operatorAddr, chainID), (row: ConsKeyRow) => row.(isRemoving := true));
      }
    }

    /** `RemoveOperatorConsKey`. */
    method RemoveOperatorConsKey(operatorAddr: string, chainID: string) returns (r: Outcome)
      modifies this`consKeys
      ensures (r == Pass && consKeys == old(consKeys) - {(operatorAddr, chainID)}) || (r == Fail(DbError) && consKeys == old(consKeys))
      ensures (r == Pass && Snapshot() == Apply(old(Snapshot()), RemoveConsKey(operatorAddr, chainID)))
           || (r == Fail(DbError) && Snapshot() == old(Snapshot()))
    {
      r := Exec();
      if r.Pass? {
        consKeys := consKeys - {(operatorAddr, chainID)};
      }
    }
  }

  // ---------------------------------------------------------------------------------
  // Properties

  /** Saving an operator sets all six columns of its row from the operator, whatever
      the row held, and leaves every other operator's row alone. */
  lemma DetailOverwrites(t: Tables, o: Operator, ts: Timestamp)
    ensures var u := Apply(t, UpsertOperator(o, ts)).operators;
      && u.Keys == t.operators.Keys + {o.earningsAddress}
      && u[o.earningsAddress] == OperatorRow(o.approveAddress, o.metaInfo, o.rate, o.maxRate, o.maxChangeRate, ts)
      && forall a :: a in t.operators && a != o.earningsAddress ==> u[a] == t.operators[a]
  {
  }

  /** Saving a current consensus key replaces the key and address of its row; the
      previous key and the removal mark stay as they were (none on a new row). */
  lemma ConsKeyKeepsHistory(t: Tables, operatorAddr: string, chainId: string, pubkeyHex: string, consAddress: string)
    ensures var u := Apply(t, UpsertConsKey(operatorAddr, chainId, pubkeyHex, consAddress)).consKeys;
      var k := (operatorAddr, chainId);
      && u[k].pubkeyHex == pubkeyHex && u[k].consensusAddress == consAddress
      && (k in t.consKeys ==> u[k].prevPubkeyHex == t.consKeys[k].prevPubkeyHex && u[k].prevConsAddr == t.consKeys[k].prevConsAddr
                              && u[k].isRemoving == t.consKeys[k].isRemoving)
      && (k !in t.consKeys ==> u[k].prevPubkeyHex.None? && u[k].prevConsAddr.None? && !u[k].isRemoving)
      && forall j :: j in t.consKeys && j != k ==> j in u && u[j] == t.consKeys[j]
  {
  }

  /** The three keyed updates of `consensus_keys` never add a row: on a missing row they
      change nothing, on an existing one only their own columns. */
  lemma KeyUpdatesNeverInsert(t: Tables, w: Write)
    requires w.SetPrevConsKey? || w.ClearPrevConsKey? || w.MarkKeyRemoval?
    ensures var k, u := (w.operatorAddr, w.chainId), Apply(t, w);
      && u.consKeys.Keys == t.consKeys.Keys
      && (k !in t.consKeys ==> u == t)
      && (k in t.consKeys ==>
            && u.consKeys[k].pubkeyHex == t.consKeys[k].pubkeyHex
            && u.consKeys[k].consensusAddress == t.consKeys[k].consensusAddress
            && (w.SetPrevConsKey? ==> u.consKeys[k] == t.consKeys[k].(prevPubkeyHex := Some(w.pubkeyHex), prevConsAddr := Some(w.consAddress)))
            && (w.ClearPrevConsKey? ==> u.consKeys[k] == t.consKeys[k].(prevPubkeyHex := None, prevConsAddr := None))
            && (w.MarkKeyRemoval? ==> u.consKeys[k] == t.consKeys[k].(isRemoving := true)))
      && forall j :: j in t.consKeys && j != k ==> u.consKeys[j] == t.consKeys[j]
  {
  }

  /** An opt-in save overwrites slash contract, heights and jailed flag together. */
  lemma OptedOverwrites(t: Tables, o: Opted)
    ensures var u := Apply(t, UpsertOpted(o)).optIns;
      && u[(o.operatorAddress, o.avsAddress)] == OptRow(o.slashContract, o.inHeight, o.outHeight, o.jailed)
      && forall j :: j in t.optIns && j != (o.operatorAddress, o.avsAddress) ==> u[j] == t.optIns[j]
  {
  }

  /** Re-saving an operator's USD value for an AVS updates self, total and active but
      keeps the `other` value written when the row was created. */
  lemma UsdConflictKeepsOther(t: Tables, v: OperatorUSDValue)
    requires (v.operatorAddress, v.avsAddress) in t.operatorUsd
    ensures Apply(t, UpsertOperatorUsd(v)).operatorUsd[(v.operatorAddress, v.avsAddress)]
         == UsdRow(v.selfUSDValue, v.totalUSDValue, t.operatorUsd[(v.operatorAddress, v.avsAddress)].other, v.activeUSDValue)
  {
  }

  /** The deletions remove exactly the given key. */
  lemma DeletesExact(t: Tables, operatorAddr: string, avsAddr: string)
    ensures Apply(t, DeleteOperatorUsd(operatorAddr, avsAddr)).operatorUsd.Keys == t.operatorUsd.Keys - {(operatorAddr, avsAddr)}
    ensures Apply(t, DeleteAvsUsd(avsAddr)).avsUsd.Keys == t.avsUsd.Keys - {avsAddr}
    ensures Apply(t, RemoveConsKey(operatorAddr, avsAddr)).consKeys.Keys == t.consKeys.Keys - {(operatorAddr, avsAddr)}
  {
  }

  /** Every statement can be repeated: sending it a second time changes nothing more,
      so marking a key for removal twice is marking it once. */
  lemma ApplyTwice(t: Tables, w: Write)
    ensures Apply(Apply(t, w), w) == Apply(t, w)
  {
    match w
    case UpsertConsKey(op, chain, hex, addr) =>
      assert ConsKeySaved(ConsKeySaved(t.consKeys, (op, chain), hex, addr), (op, chain), hex, addr) == ConsKeySaved(t.consKeys, (op, chain), hex, addr);
    case UpsertOperatorUsd(v) =>
      assert UsdSaved(UsdSaved(t.operatorUsd, v), v) == UsdSaved(t.operatorUsd, v);
    case _ =>
  }

  /** Statements on the AVS USD table leave the operator USD table alone, and the other
      way round. */
  lemma UsdTablesIndependent(t: Tables, w: Write)
    ensures (w.UpsertAvsUsd? || w.DeleteAvsUsd?) ==> Apply(t, w).operatorUsd == t.operatorUsd
    ensures (w.UpsertOperatorUsd? || w.DeleteOperatorUsd?) ==> Apply(t, w).avsUsd == t.avsUsd
  {
  }

  /** One statement on the operator USD table: a deletion removes its key, and only an
      upsert adds one. */
  lemma UsdKeyStep(t: Tables, w: Write, k: (string, string))
    ensures w.DeleteOperatorUsd? ==> (w.operatorAddr, w.avsAddr) !in Apply(t, w).operatorUsd
    ensures !w.UpsertOperatorUsd? && k !in t.operatorUsd ==> k !in Apply(t, w).operatorUsd
  {
    match w
    case UpsertOperatorUsd(v) =>
    case DeleteOperatorUsd(op, avs) =>
    case _ =>
  }

  /** One statement on the AVS USD table: a deletion removes its key, and only an upsert
      adds one. */
  lemma AvsUsdKeyStep(t: Tables, w: Write, k: string)
    ensures w.DeleteAvsUsd? ==> w.avsAddr !in Apply(t, w).avsUsd
    ensures !w.UpsertAvsUsd? && k !in t.avsUsd ==> k !in Apply(t, w).avsUsd
  {
    match w
    case UpsertAvsUsd(v) =>
    case DeleteAvsUsd(avs) =>
    case _ =>
  }

  /** A deleted operator USD row stays deleted through any later statements that do not
      upsert an operator USD value. */
  lemma {:induction false} UsdDeletionStays(t: Tables, ws: seq<Write>, j: nat)
    requires j < |ws| && ws[j].DeleteOperatorUsd?
    requires forall i :: j < i < |ws| ==> !ws[i].UpsertOperatorUsd?
    ensures (ws[j].operatorAddr, ws[j].avsAddr) !in ApplyAll(Apply, t, ws).operatorUsd
    decreases |ws|
  {
    var last := |ws| - 1;
    assert ws == ws[..last] + [ws[last]];
    ApplyAllSnoc(Apply, t, ws[..last], ws[last]);
    UsdKeyStep(ApplyAll(Apply, t, ws[..last]), ws[last], (ws[j].operatorAddr, ws[j].avsAddr));
    if j < last {
      UsdDeletionStays(t, ws[..last], j);
    }
  }

  /** A deleted AVS USD row stays deleted through any later statements that do not
      upsert an AVS USD value. */
  lemma {:induction false} AvsUsdDeletionStays(t: Tables, ws: seq<Write>, j: nat)
    requires j < |ws| && ws[j].DeleteAvsUsd?
    requires forall i :: j < i < |ws| ==> !ws[i].UpsertAvsUsd?
    ensures ws[j].avsAddr !in ApplyAll(Apply, t, ws).avsUsd
    decreases |ws|
  {
    var last := |ws| - 1;
    assert ws == ws[..last] + [ws[last]];
    ApplyAllSnoc(Apply, t, ws[..last], ws[last]);
    AvsUsdKeyStep(ApplyAll(Apply, t, ws[..last]), ws[last], ws[j].avsAddr);
    if j < last {
      AvsUsdDeletionStays(t, ws[..last], j);
    }
  }
}
