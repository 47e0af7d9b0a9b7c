// database/assets.go: the one-row `assets_params` table, client chains, tokens, the
// current staker and operator asset rows and their history tables. Calls the asset
// handlers make to store functions outside this file, or with arguments that lack
// the fields the shown function reads, are recorded, in order, in `external`.

module AssetsDb {
  import opened Wrappers
  import opened Replay
  import opened AssetsTypes

  /** The `params` column holds the JSON encoding of the module parameters. */
  datatype ParamsRow = ParamsRow(params: string, height: int)

  /** A row of `tokens`, keyed by the asset id. */
  datatype TokenRow = TokenRow(
    name: string,
    symbol: string,
    address: string,
    decimals: nat,
    layerZeroChainId: nat,
    exocoreChainIndex: nat,
    metaInfo: string,
    stakingTotalAmount: int)

  /** The columns `UpsertStakerAsset` and `InsertStakerAssetHistory` read from their
      argument. */
  datatype StakerAssetRecord = StakerAssetRecord(
    stakerId: string,
    assetId: string,
    deposited: string,
    free: string,
    delegated: string,
    pendingUndelegation: string,
    height: int)

  /** A row of `staker_assets`, keyed by (staker, asset). */
  datatype StakerAssetRow = StakerAssetRow(deposited: string, free: string, delegated: string, pendingUndelegation: string)

  /** The columns `UpsertOperatorAsset` and `InsertOperatorAssetHistory` read from their
      argument. */
  datatype OperatorAssetRecord = OperatorAssetRecord(
    operatorAddress: string,
    assetId: string,
    delegated: string,
    pendingUndelegation: string,
    share: string,
    selfShare: string,
    delegatedShare: string,
    height: int)

  /** A row of `operator_assets`: the record without its height. */
  datatype OperatorAssetRow = OperatorAssetRow(
    operatorAddress: string,
    assetId: string,
    delegated: string,
    pendingUndelegation: string,
    share: string,
    selfShare: string,
    delegatedShare: string)

  function OperatorRowOf(d: OperatorAssetRecord): OperatorAssetRow
  {
    OperatorAssetRow(d.operatorAddress, d.assetId, d.delegated, d.pendingUndelegation, d.share, d.selfShare, d.delegatedShare)
  }

  /** Store calls that this file does not answer: `SaveAssetsToken` and
      `UpdateStakingTotalAmount` are not part of this model; the handlers call
      `UpdateAssetMetadata` with an asset id and metadata only, and `SaveStakerAsset`
      and `SaveOperatorAsset` with records that lack the columns the statements read. */
  datatype ExternalCall =
    | SaveAssetsToken(token: AssetsToken)
    | UpdateAssetMetadataById(assetId: string, metaInfo: string)
    | UpdateStakingTotalAmount(assetId: string, amount: string)
    | SaveStakerAssetOf(stakerAsset: StakerAsset)
    | SaveOperatorAssetOf(operatorAsset: OperatorAsset)

  datatype Tables = Tables(
    params: Option<ParamsRow>,
    clientChains: map<string, ClientChain>,
    tokens: map<string, TokenRow>,
    stakerAssets: map<(string, string), StakerAssetRow>,
    stakerHistory: seq<StakerAssetRecord>,
    operatorAssets: seq<OperatorAssetRow>,
    operatorHistory: seq<OperatorAssetRecord>,
    external: seq<ExternalCall>)

  function Empty(): Tables { Tables(None, map[], map[], map[], [], [], [], []) }

  /** The statements of database/assets.go, and the calls it does not answer. */
  datatype Write =
    | UpsertParams(params: string, height: int)                    // SaveAssetsParams
    | InsertClientChain(chain: ClientChain)                        // SaveOrUpdateClientChain
    | UpsertToken(assetId: string, info: StakingAssetInfo)         // SaveToken
    | UpdateMetadata(address: string, layerZeroChainId: int, metaInfo: string)  // UpdateAssetMetadata
    | UpsertStakerAsset(staker: StakerAssetRecord)                 // UpsertStakerAsset
    | InsertStakerHistory(staker: StakerAssetRecord)               // InsertStakerAssetHistory
    | InsertOperatorAsset(operator: OperatorAssetRecord)           // UpsertOperatorAsset
    | InsertOperatorHistory(operator: OperatorAssetRecord)         // InsertOperatorAssetHistory
    | External(call: ExternalCall)

  /** `WHERE assets_params.height <= excluded.height`: the row is replaced only by
      parameters at least as recent. */
  predicate ParamsReplaced(stored: Option<ParamsRow>, height: int)
  {
    stored.None? || stored.value.height <= height
  }

  function TokenRowOf(info: StakingAssetInfo): TokenRow
  {
    var b := info.assetBasicInfo;
    TokenRow(b.name, b.symbol, b.address, b.decimals, b.layerZeroChainId, b.exocoreChainIndex, b.metaInfo, info.stakingTotalAmount)
  }

  /** `UPDATE … SET meta_info = $1 WHERE address = $2 AND layer_zero_chain_id = $3`. */
  function MetadataUpdated(m: map<string, TokenRow>, address: string, layerZeroChainId: int, metaInfo: string): map<string, TokenRow>
  {
    map k | k in m :: if m[k].address == address && m[k].layerZeroChainId == layerZeroChainId then m[k].(metaInfo := metaInfo) else m[k]
  }

  function Apply(t: Tables, w: Write): Tables
  {
    match w
    case UpsertParams(p, h) => if ParamsReplaced(t.params, h) then t.(params := Some(ParamsRow(p, h))) else t
    case InsertClientChain(c) =>
      if c.exocoreChainIndex in t.clientChains then t else t.(clientChains := t.clientChains[c.exocoreChainIndex := c])
    case UpsertToken(id, info) => t.(tokens := t.tokens[id := TokenRowOf(info)])
    case UpdateMetadata(address, lz, meta) => t.(tokens := MetadataUpdated(t.tokens, address, lz, meta))
    case UpsertStakerAsset(d) =>
      t.(stakerAssets := t.stakerAssets[(d.stakerId, d.assetId) := StakerAssetRow(d.deposited, d.free, d.delegated, d.pendingUndelegation)])
    case InsertStakerHistory(d) => t.(stakerHistory := t.stakerHistory + [d])
    case InsertOperatorAsset(d) => t.(operatorAssets := t.operatorAssets + [OperatorRowOf(d)])
    case InsertOperatorHistory(d) => t.(operatorHistory := t.operatorHistory + [d])
    case External(c) => t.(external := t.external + [c])
  }

  class Store {
    var params: Option<ParamsRow>
    var clientChains: map<string, ClientChain>
    var tokens: map<string, TokenRow>
    var stakerAssets: map<(string, string), StakerAssetRow>
    var stakerHistory: seq<StakerAssetRecord>
    var operatorAssets: seq<OperatorAssetRow>
    var operatorHistory: seq<OperatorAssetRecord>
    var external: seq<ExternalCall>
    /** `AssetInfo.AssetID()`, which is not part of this model. */
    const assetIdOf: AssetIdOf

    function Snapshot(): Tables
      reads this
    {
      Tables(params, clientChains, tokens, stakerAssets, stakerHistory, operatorAssets, operatorHistory, external)
    }

    constructor(assetIdOf: AssetIdOf)
      ensures Snapshot() == Empty() && this.assetIdOf == assetIdOf
    {
      params, clientChains, tokens, stakerAssets := None, map[], map[], map[];
      stakerHistory, operatorAssets, operatorHistory, external := [], [], [], [];
      this.assetIdOf := assetIdOf;
    }

    /** `SaveAssetsParams`. `p.params` is `json.Marshal` of the parameters (`None` when
        marshalling fails, which returns before any statement). The stored row is
        replaced only when it is not more recent than `p.height`. */
    method SaveAssetsParams(p: AssetsParams) returns (r: Outcome)
      modifies this`params
      ensures p.params.None? ==> r == Fail(EncodeError) && params == old(params)
      ensures p.params.Some? ==>
        || (r == Pass && params == (if ParamsReplaced(old(params), p.height) then Some(ParamsRow(p.params.value, p.height)) else old(params)))
        || (r == Fail(DbError) && params == old(params))
      ensures p.params.Some? ==>
        || (r == Pass && Snapshot() == Apply(old(Snapshot()), UpsertParams(p.params.value, p.height)))
        || (r == Fail(DbError) && Snapshot() == old(Snapshot()))
    {
      if p.params.None? {
        return Fail(EncodeError);
      }
      r := Exec();
      if r.Pass? && ParamsReplaced(params, p.height) {
        params := Some(ParamsRow(p.params.value, p.height));
      }
    }

    /** `SaveOrUpdateClientChain`: `ON CONFLICT (exocore_chain_index) DO NOTHING`, so
        the first chain saved under an index stays. */
    method SaveOrUpdateClientChain(chain: ClientChain) returns (r: Outcome)
      modifies this`clientChains
      ensures (r == Pass && clientChains == (if chain.exocoreChainIndex in old(clientChains) then old(clientChains)
                                             else old(clientChains)[chain.exocoreChainIndex := chain]))
           || (r == Fail(DbError) && clientChains == old(clientChains))
      ensures (r == Pass && Snapshot() == Apply(old(Snapshot()), InsertClientChain(chain))) || (r == Fail(DbError) && Snapshot() == old(Snapshot()))
    {
      r := Exec();
      if r.Pass? && chain.exocoreChainIndex !in clientChains {
        clientChains := clientChains[chain.exocoreChainIndex := chain];
      }
    }

    /** `SaveToken`: upsert on the asset id, overwriting every other column. */
    method SaveToken(info: StakingAssetInfo) returns (r: Outcome)
      modifies this`tokens
      ensures (r == Pass && tokens == old(tokens)[assetIdOf(info.assetBasicInfo) := TokenRowOf(info)])
           || (r == Fail(DbError) && tokens == old(tokens))
      ensures (r == Pass && Snapshot() == Apply(old(Snapshot()), UpsertToken(assetIdOf(info.assetBasicInfo), info)))
           || (r == Fail(DbError) && Snapshot() == old(Snapshot()))
    {
      r := Exec();
      if r.Pass? {
        tokens := tokens[assetIdOf(info.assetBasicInfo) := TokenRowOf(info)];
      }
    }

    /** `UpdateAssetMetadata`: sets the metadata of every token with this address on
        this LayerZero chain. */
    method UpdateAssetMetadata(address: string, layerZeroChainId: int, newMetaInfo: string) returns (r: Outcome)
      modifies this`tokens
      ensures (r == Pass && tokens == MetadataUpdated(old(tokens), address, layerZeroChainId, newMetaInfo))
           || (r == Fail(DbError) && tokens == old(tokens))
      ensures (r == Pass && Snapshot() == Apply(old(Snapshot()), UpdateMetadata(address, layerZeroChainId, newMetaInfo)))
           || (r == Fail(DbError) && Snapshot() == old(Snapshot()))
    {
      r := Exec();
      if r.Pass? {
        tokens := MetadataUpdated(tokens, address, layerZeroChainId, newMetaInfo);
      }
    }

    /** `UpsertStakerAsset`: upsert on (staker, asset) of the four amounts. */
    method UpsertStakerAsset(data: StakerAssetRecord) returns (r: Outcome)
      modifies this`stakerAssets
      ensures (r == Pass && stakerAssets == old(stakerAssets)[(data.stakerId, data.assetId) :=
                 StakerAssetRow(data.deposited, data.free, data.delegated, data.pendingUndelegation)])
           || (r == Fail(DbError) && stakerAssets == old(stakerAssets))
      ensures (r == Pass && Snapshot() == Apply(old(Snapshot()), Write.UpsertStakerAsset(data)))
           || (r == Fail(DbError) && Snapshot() == old(Snapshot()))
    {
      r := Exec();
      if r.Pass? {
        stakerAssets := stakerAssets[(data.stakerId, data.assetId) := StakerAssetRow(data.deposited, data.free, data.delegated, data.pendingUndelegation)];
      }
    }

    /** `InsertStakerAssetHistory`: appends one row, with the block height. */
    method InsertStakerAssetHistory(data: StakerAssetRecord) returns (r: Outcome)
      modifies this`stakerHistory
      ensures (r == Pass && stakerHistory == old(stakerHistory) + [data]) || (r == Fail(DbError) && stakerHistory == old(stakerHistory))
      ensures (r == Pass && Snapshot() == Apply(old(Snapshot()), InsertStakerHistory(data)))
           || (r == Fail(DbError) && Snapshot() == old(Snapshot()))
    {
      r := Exec();
      if r.Pass? {
        stakerHistory := stakerHistory + [data];
      }
    }

    /** `SaveStakerAsset`: the current row, then one history row; the history row is
        written only when the current row was, and a rejected history row leaves the
        current row written. */
    method SaveStakerAsset(data: StakerAssetRecord) returns (r: Outcome)
      modifies this`stakerAssets, this`stakerHistory
      ensures r.Pass? ==>
        && stakerAssets == old(stakerAssets)[(data.stakerId, data.assetId) := StakerAssetRow(data.deposited, data.free, data.delegated, data.pendingUndelegation)]
        && stakerHistory == old(stakerHistory) + [data]
      ensures r.Fail? ==> r == Fail(DbError) && stakerHistory == old(stakerHistory)
      ensures exists n: nat :: Performed(SaveStakerAssetScript(data), r, n)
                            && Snapshot() == ApplyAll(Apply, old(Snapshot()), SaveStakerAssetScript(data).writes[..n])
    {
      ghost var s0 := Snapshot();
      ghost var full := SaveStakerAssetScript(data);
      r := UpsertStakerAsset(data);
      if r.Fail? {
        assert Performed(full, r, 0) && Snapshot() == ApplyAll(Apply, s0, full.writes[..0]);
        return;
      }
      ghost var s1 := Snapshot();
      assert full.writes[..1] == [Write.UpsertStakerAsset(data)];
      r := InsertStakerAssetHistory(data);
      if r.Fail? {
        assert Performed(full, r, 1) && Snapshot() == ApplyAll(Apply, s0, full.writes[..1]);
      } else {
        assert full.writes[..2] == full.writes[..1] + [InsertStakerHistory(data)];
        ApplyAllSnoc(Apply, s0, full.writes[..1], InsertStakerHistory(data));
        assert Performed(full, r, 2) && Snapshot() == ApplyAll(Apply, s0, full.writes[..2]);
      }
    }

    /** `UpsertOperatorAsset`: a plain insert with no conflict clause, which adds a
        row and never updates one. */
    method UpsertOperatorAsset(data: OperatorAssetRecord) returns (r: Outcome)
      modifies this`operatorAssets
      ensures (r == Pass && operatorAssets == old(operatorAssets) + [OperatorRowOf(data)])
           || (r == Fail(DbError) && operatorAssets == old(operatorAssets))
      ensures (r == Pass && Snapshot() == Apply(old(Snapshot()), InsertOperatorAsset(data)))
           || (r == Fail(DbError) && Snapshot() == old(Snapshot()))
    {
      r := Exec();
      if r.Pass? {
        operatorAssets := operatorAssets + [OperatorRowOf(data)];
      }
    }

    /** `InsertOperatorAssetHistory`: appends one row, with the block height. */
    method InsertOperatorAssetHistory(data: OperatorAssetRecord) returns (r: Outcome)
      modifies this`operatorHistory
      ensures (r == Pass && operatorHistory == old(operatorHistory) + [data]) || (r == Fail(DbError) && operatorHistory == old(operatorHistory))
      ensures (r == Pass && Snapshot() == Apply(old(Snapshot()), InsertOperatorHistory(data)))
           || (r == Fail(DbError) && Snapshot() == old(Snapshot()))
    {
      r := Exec();
      if r.Pass? {
        operatorHistory := operatorHistory + [data];
      }
    }

    /** `SaveOperatorAsset`: the current row, then one history row, as for stakers. */
    method SaveOperatorAsset(data: OperatorAssetRecord) returns (r: Outcome)
      modifies this`operatorAssets, this`operatorHistory
      ensures r.Pass? ==> operatorAssets == old(operatorAssets) + [OperatorRowOf(data)] && operatorHistory == old(operatorHistory) + [data]
      ensures r.Fail? ==> r == Fail(DbError) && operatorHistory == old(operatorHistory)
      ensures exists n: nat :: Performed(SaveOperatorAssetScript(data), r, n)
                            && Snapshot() == ApplyAll(Apply, old(Snapshot()), SaveOperatorAssetScript(data).writes[..n])
    {
      ghost var s0 := Snapshot();
      ghost var full := SaveOperatorAssetScript(data);
      r := UpsertOperatorAsset(data);
      if r.Fail? {
        assert Performed(full, r, 0) && Snapshot() == ApplyAll(Apply, s0, full.writes[..0]);
        return;
      }
      assert full.writes[..1] == [InsertOperatorAsset(data)];
      r := InsertOperatorAssetHistory(data);
      if r.Fail? {
        assert Performed(full, r, 1) && Snapshot() == ApplyAll(Apply, s0, full.writes[..1]);
      } else {
        assert full.writes[..2] == full.writes[..1] + [InsertOperatorHistory(data)];
        ApplyAllSnoc(Apply, s0, full.writes[..1], InsertOperatorHistory(data));
        assert Performed(full, r, 2) && Snapshot() == ApplyAll(Apply, s0, full.writes[..2]);
      }
    }

    /** A store call this file does not answer; only the call is recorded. */
    method Call(c: ExternalCall) returns (r: Outcome)
      modifies this`external
      ensures (r == Pass && external == old(external) + [c]) || (r == Fail(DbError) && external == old(external))
      ensures (r == Pass && Snapshot() == Apply(old(Snapshot()), External(c))) || (r == Fail(DbError) && Snapshot() == old(Snapshot()))
    {
      r := Exec();
      if r.Pass? {
        external := external + [c];
      }
    }
  }

  /** The statements `SaveStakerAsset` sends. */
  function SaveStakerAssetScript(data: StakerAssetRecord): Script<Write>
  {
    Script([Write.UpsertStakerAsset(data), InsertStakerHistory(data)], None)
  }

  /** The statements `SaveOperatorAsset` sends. */
  function SaveOperatorAssetScript(data: OperatorAssetRecord): Script<Write>
  {
    Script([InsertOperatorAsset(data), InsertOperatorHistory(data)], None)
  }

  // ---------------------------------------------------------------------------------
  // Properties

  /** The parameters row is replaced exactly when the stored row is not more recent:
      equal heights overwrite, older parameters are ignored whatever their content. */
  lemma ParamsReplacedIff(t: Tables, p: string, h: int)
    ensures Apply(t, UpsertParams(p, h)).params == Some(ParamsRow(p, h)) <==> ParamsReplaced(t.params, h)
    ensures !ParamsReplaced(t.params, h) ==> Apply(t, UpsertParams(p, h)) == t
    ensures t.params.Some? && t.params.value.height == h ==> Apply(t, UpsertParams(p, h)).params == Some(ParamsRow(p, h))
  {
  }

  /** The chain saved first under an index, if any, in `ws`. */
  function FirstChain(ws: seq<Write>, index: string): (c: Option<ClientChain>)
    ensures c.Some? ==> c.value.exocoreChainIndex == index && exists i :: 0 <= i < |ws| && ws[i] == InsertClientChain(c.value)
    ensures c.None? ==> forall i :: 0 <= i < |ws| && ws[i].InsertClientChain? ==> ws[i].chain.exocoreChainIndex != index
    decreases |ws|
  {
    if ws == [] then None
    else
      var c := FirstChain(ws[..|ws| - 1], index);
      var w := ws[|ws| - 1];
      if c.Some? then
        assert forall i :: 0 <= i < |ws| - 1 ==> ws[..|ws| - 1][i] == ws[i];
        c
      else if w.InsertClientChain? && w.chain.exocoreChainIndex == index then Some(w.chain)
      else
        assert forall i :: 0 <= i < |ws| - 1 ==> ws[..|ws| - 1][i] == ws[i];
        None
  }

  /** Client chains are insert-if-absent: after a batch, an index holds the row it had
      before, or else the first chain saved under it; later chains are no-ops. */
  lemma {:induction false} ClientChainFirstWins(t: Tables, ws: seq<Write>)
    ensures var m := ApplyAll(Apply, t, ws).clientChains;
      forall k :: (k in m <==> k in t.clientChains || FirstChain(ws, k).Some?)
                  && (k in m ==> m[k] == if k in t.clientChains then t.clientChains[k] else FirstChain(ws, k).value)
    decreases |ws|
  {
    if ws != [] {
      var prefix, w := ws[..|ws| - 1], ws[|ws| - 1];
      ClientChainFirstWins(t, prefix);
      var before := ApplyAll(Apply, t, prefix);
      ChainStep(before, w);
    }
  }

  /** What one statement does to the client chains. */
  lemma ChainStep(t: Tables, w: Write)
    ensures Apply(t, w).clientChains
         == if w.InsertClientChain? && w.chain.exocoreChainIndex !in t.clientChains
            then t.clientChains[w.chain.exocoreChainIndex := w.chain] else t.clientChains
  {
  }

  /** Saving a token sets every column of its row from the token and leaves every
      other token alone; saving it again changes nothing more. */
  lemma TokenOverwrites(t: Tables, id: string, info: StakingAssetInfo)
    ensures var u := Apply(t, UpsertToken(id, info)).tokens;
      && u.Keys == t.tokens.Keys + {id}
      && u[id] == TokenRowOf(info)
      && u[id].stakingTotalAmount == info.stakingTotalAmount && u[id].metaInfo == info.assetBasicInfo.metaInfo
      && forall k :: k in t.tokens && k != id ==> u[k] == t.tokens[k]
    ensures Apply(Apply(t, UpsertToken(id, info)), UpsertToken(id, info)) == Apply(t, UpsertToken(id, info))
  {
  }

  /** A metadata update adds and removes no token, changes only the metadata of the
      tokens with that address on that chain, and leaves every other token alone;
      repeating it changes nothing more. */
  lemma MetadataOnly(t: Tables, address: string, lz: int, meta: string)
    ensures var u := Apply(t, UpdateMetadata(address, lz, meta)).tokens;
      && u.Keys == t.tokens.Keys
      && (forall k :: k in t.tokens && t.tokens[k].address == address && t.tokens[k].layerZeroChainId == lz ==>
            u[k] == t.tokens[k].(metaInfo := meta))
      && (forall k :: k in t.tokens && !(t.tokens[k].address == address && t.tokens[k].layerZeroChainId == lz) ==>
            u[k] == t.tokens[k])
    ensures Apply(Apply(t, UpdateMetadata(address, lz, meta)), UpdateMetadata(address, lz, meta)) == Apply(t, UpdateMetadata(address, lz, meta))
  {
    var once := MetadataUpdated(t.tokens, address, lz, meta);
    assert MetadataUpdated(once, address, lz, meta) == once;
  }

  /** A staker-asset upsert overwrites the four amounts of its (staker, asset) row,
      leaves every other row alone, and touches no other table. */
  lemma StakerUpsertOverwrites(t: Tables, d: StakerAssetRecord)
    ensures var u := Apply(t, Write.UpsertStakerAsset(d));
      && u.stakerAssets.Keys == t.stakerAssets.Keys + {(d.stakerId, d.assetId)}
      && u.stakerAssets[(d.stakerId, d.assetId)] == StakerAssetRow(d.deposited, d.free, d.delegated, d.pendingUndelegation)
      && (forall k :: k in t.stakerAssets && k != (d.stakerId, d.assetId) ==> u.stakerAssets[k] == t.stakerAssets[k])
      && u == t.(stakerAssets := u.stakerAssets)
  {
  }

  /** The history rows a batch appends, in order. */
  function StakerHistoryOf(ws: seq<Write>): seq<StakerAssetRecord>
  {
    if ws == [] then []
    else StakerHistoryOf(ws[..|ws| - 1]) + (if ws[|ws| - 1].InsertStakerHistory? then [ws[|ws| - 1].staker] else [])
  }

  function OperatorRowsOf(ws: seq<Write>): seq<OperatorAssetRow>
  {
    if ws == [] then []
    else OperatorRowsOf(ws[..|ws| - 1]) + (if ws[|ws| - 1].InsertOperatorAsset? then [OperatorRowOf(ws[|ws| - 1].operator)] else [])
  }

  function OperatorHistoryOf(ws: seq<Write>): seq<OperatorAssetRecord>
  {
    if ws == [] then []
    else OperatorHistoryOf(ws[..|ws| - 1]) + (if ws[|ws| - 1].InsertOperatorHistory? then [ws[|ws| - 1].operator] else [])
  }

  /** The history tables and `operator_assets` only grow: a batch keeps every row and
      appends, in order, one row per insert it holds. */
  lemma AppendOnly(t: Tables, ws: seq<Write>)
    ensures ApplyAll(Apply, t, ws).stakerHistory == t.stakerHistory + StakerHistoryOf(ws)
    ensures ApplyAll(Apply, t, ws).operatorAssets == t.operatorAssets + OperatorRowsOf(ws)
    ensures ApplyAll(Apply, t, ws).operatorHistory == t.operatorHistory + OperatorHistoryOf(ws)
  {
    StakerHistoryGrows(t, ws);
    OperatorAssetsGrow(t, ws);
    OperatorHistoryGrows(t, ws);
  }

  lemma {:induction false} StakerHistoryGrows(t: Tables, ws: seq<Write>)
    ensures ApplyAll(Apply, t, ws).stakerHistory == t.stakerHistory + StakerHistoryOf(ws)
    decreases |ws|
  {
    if ws == [] {
      assert t.stakerHistory + [] == t.stakerHistory;
    } else {
      StakerHistoryGrows(t, ws[..|ws| - 1]);
      var w := ws[|ws| - 1];
      StakerHistoryStep(ApplyAll(Apply, t, ws[..|ws| - 1]), w);
      if w.InsertStakerHistory? {
        assert t.stakerHistory + StakerHistoryOf(ws) == (t.stakerHistory + StakerHistoryOf(ws[..|ws| - 1])) + [w.staker];
      }
    }
  }

  lemma {:induction false} OperatorAssetsGrow(t: Tables, ws: seq<Write>)
    ensures ApplyAll(Apply, t, ws).operatorAssets == t.operatorAssets + OperatorRowsOf(ws)
    decreases |ws|
  {
    if ws == [] {
      assert t.operatorAssets + [] == t.operatorAssets;
    } else {
      OperatorAssetsGrow(t, ws[..|ws| - 1]);
      var w := ws[|ws| - 1];
      OperatorAssetsStep(ApplyAll(Apply, t, ws[..|ws| - 1]), w);
      if w.InsertOperatorAsset? {
        assert t.operatorAssets + OperatorRowsOf(ws) == (t.operatorAssets + OperatorRowsOf(ws[..|ws| - 1])) + [OperatorRowOf(w.operator)];
      }
    }
  }

  lemma {:induction false} OperatorHistoryGrows(t: Tables, ws: seq<Write>)
    ensures ApplyAll(Apply, t, ws).operatorHistory == t.operatorHistory + OperatorHistoryOf(ws)
    decreases |ws|
  {
    if ws == [] {
      assert t.operatorHistory + [] == t.operatorHistory;
    } else {
      OperatorHistoryGrows(t, ws[..|ws| - 1]);
      var w := ws[|ws| - 1];
      OperatorHistoryStep(ApplyAll(Apply, t, ws[..|ws| - 1]), w);
      if w.InsertOperatorHistory? {
        assert t.operatorHistory + OperatorHistoryOf(ws) == (t.operatorHistory + OperatorHistoryOf(ws[..|ws| - 1])) + [w.operator];
      }
    }
  }

  lemma StakerHistoryStep(t: Tables, w: Write)
    ensures Apply(t, w).stakerHistory == t.stakerHistory + (if w.InsertStakerHistory? then [w.staker] else [])
  {
    if !w.InsertStakerHistory? {
      assert t.stakerHistory + [] == t.stakerHistory;
    }
  }

  lemma OperatorAssetsStep(t: Tables, w: Write)
    ensures Apply(t, w).operatorAssets == t.operatorAssets + (if w.InsertOperatorAsset? then [OperatorRowOf(w.operator)] else [])
  {
    if !w.InsertOperatorAsset? {
      assert t.operatorAssets + [] == t.operatorAssets;
    }
  }

  lemma OperatorHistoryStep(t: Tables, w: Write)
    ensures Apply(t, w).operatorHistory == t.operatorHistory + (if w.InsertOperatorHistory? then [w.operator] else [])
  {
    if !w.InsertOperatorHistory? {
      assert t.operatorHistory + [] == t.operatorHistory;
    }
  }

  /** A completed `SaveStakerAsset` appends exactly its one history row, and a
      completed `SaveOperatorAsset` its one current row and one history row. */
  lemma SaveAppendsOne(t: Tables, d: StakerAssetRecord, o: OperatorAssetRecord)
    ensures ApplyAll(Apply, t, SaveStakerAssetScript(d).writes).stakerHistory == t.stakerHistory + [d]
    ensures ApplyAll(Apply, t, SaveOperatorAssetScript(o).writes).operatorAssets == t.operatorAssets + [OperatorRowOf(o)]
    ensures ApplyAll(Apply, t, SaveOperatorAssetScript(o).writes).operatorHistory == t.operatorHistory + [o]
  {
    ApplyAllPair(Apply, t, Write.UpsertStakerAsset(d), InsertStakerHistory(d));
    ApplyAllPair(Apply, t, InsertOperatorAsset(o), InsertOperatorHistory(o));
  }

  /** The statements the asset handlers send: client chains and recorded calls. */
  predicate ChainOrCall(w: Write)
  {
    w.InsertClientChain? || w.External?
  }

  /** Statements that are client chains or recorded calls leave the parameters,
      tokens, staker and operator assets and both histories as they were; recorded
      calls alone leave the client chains as well. */
  lemma {:induction false} ChainsAndCallsOnly(t: Tables, ws: seq<Write>)
    requires forall i :: 0 <= i < |ws| ==> ChainOrCall(ws[i])
    ensures var u := ApplyAll(Apply, t, ws);
      && u.params == t.params && u.tokens == t.tokens && u.stakerAssets == t.stakerAssets
      && u.stakerHistory == t.stakerHistory && u.operatorAssets == t.operatorAssets && u.operatorHistory == t.operatorHistory
    ensures (forall i :: 0 <= i < |ws| ==> ws[i].External?) ==> ApplyAll(Apply, t, ws).clientChains == t.clientChains
    decreases |ws|
  {
    if ws != [] {
      assert forall i :: 0 <= i < |ws| - 1 ==> ws[..|ws| - 1][i] == ws[i];
      ChainsAndCallsOnly(t, ws[..|ws| - 1]);
    }
  }

  /** Recorded calls change no table. */
  lemma ExternalChangesNoTable(t: Tables, c: ExternalCall)
    ensures Apply(t, External(c)) == t.(external := t.external + [c])
    ensures Apply(t, External(c)).stakerAssets == t.stakerAssets && Apply(t, External(c)).tokens == t.tokens
  {
  }
}
