// database/exomint.go: the one-row `exomint_params` table and the `exomint_history` table.

module ExomintDb {
  import opened Wrappers
  import opened Replay

  /** types/exomint.go `MintHistory`: the coins minted at the end of one epoch. */
  datatype MintHistory = MintHistory(amount: string, height: int, epochId: string, epochNumber: int, denom: string)

  /** types/exomint.go `NewMintHistory`. */
  function NewMintHistory(height: int, amount: string, epochId: string, epochNumber: int, denom: string): (h: MintHistory)
    ensures h.height == height && h.amount == amount && h.epochId == epochId
    ensures h.epochNumber == epochNumber && h.denom == denom
  {
    MintHistory(amount, height, epochId, epochNumber, denom)
  }

  /** The `params` column holds the JSON encoding of the module parameters. */
  datatype ParamsRow = ParamsRow(params: string, height: int)

  /** A history row, keyed by (epoch_id, epoch_number). */
  datatype MintRow = MintRow(blockHeight: int, quantityMinted: string, denom: string)

  datatype Tables = Tables(params: Option<ParamsRow>, history: map<(string, int), MintRow>)

  /** The statements of database/exomint.go. */
  datatype Write =
    | UpsertParams(params: string, height: int)   // SaveExomintParams
    | UpsertMint(history: MintHistory)            // AppendMintHistory

  /** `WHERE exomint_params.height <= excluded.height`: the row is replaced only by
      parameters at least as recent. */
  predicate ParamsReplaced(stored: Option<ParamsRow>, height: int)
  {
    stored.None? || stored.value.height <= height
  }

  function Apply(t: Tables, w: Write): Tables
  {
    match w
    case UpsertParams(p, h) => if ParamsReplaced(t.params, h) then t.(params := Some(ParamsRow(p, h))) else t
    case UpsertMint(m) => t.(history := t.history[(m.epochId, m.epochNumber) := MintRow(m.height, m.amount, m.denom)])
  }

  function Empty(): Tables { Tables(None, map[]) }

  class Store {
    var params: Option<ParamsRow>
    var history: map<(string, int), MintRow>

    function Snapshot(): Tables
      reads this
    {
      Tables(params, history)
    }

    constructor()
      ensures Snapshot() == Empty()
    {
      params := None;
      history := map[];
    }

    /** `SaveExomintParams`. `encoded` is `json.Marshal` of the parameters (`None` when
        marshalling fails, which returns before any statement). The stored row is
        replaced only when it is not more recent than `height`. */
    method SaveExomintParams(encoded: Option<string>, height: int) returns (r: Outcome)
      modifies this`params
      ensures encoded.None? ==> r == Fail(EncodeError) && params == old(params)
      ensures encoded.Some? ==>
        (r == Pass && params == (if ParamsReplaced(old(params), height) then Some(ParamsRow(encoded.value, height)) else old(params)))
        || (r == Fail(DbError) && params == old(params))
      ensures encoded.Some? ==>
        (r == Pass && Snapshot() == Apply(old(Snapshot()), UpsertParams(encoded.value, height)))
        || (r == Fail(DbError) && Snapshot() == old(Snapshot()))
    {
      if encoded.None? {
        return Fail(EncodeError);
      }
      r := Exec();
      if r.Pass? && ParamsReplaced(params, height) {
        params := Some(ParamsRow(encoded.value, height));
      }
    }

    /** `AppendMintHistory`: one row per epoch; a second row for the same epoch (after
        a reorg or a restart) replaces height, amount and denom. */
    method AppendMintHistory(h: MintHistory) returns (r: Outcome)
      modifies this`history
      ensures (r == Pass && history == old(history)[(h.epochId, h.epochNumber) := MintRow(h.height, h.amount, h.denom)])
           || (r == Fail(DbError) && history == old(history))
      ensures (r == Pass && Snapshot() == Apply(old(Snapshot()), UpsertMint(h))) || (r == Fail(DbError) && Snapshot() == old(Snapshot()))
    {
      r := Exec();
      if r.Pass? {
        history := history[(h.epochId, h.epochNumber) := MintRow(h.height, h.amount, h.denom)];
      }
    }
  }

  // ---------------------------------------------------------------------------------
  // The parameters row keeps the most recent parameters.

  function MaxOpt(a: Option<int>, b: Option<int>): Option<int>
  {
    if a.None? then b else if b.None? then a else Some(if a.value < b.value then b.value else a.value)
  }

  /** The greatest height among the stored row and the parameter statements of `ws`. */
  function TopHeight(stored: Option<ParamsRow>, ws: seq<Write>): Option<int>
    decreases |ws|
  {
    if ws == [] then (if stored.None? then None else Some(stored.value.height))
    else
      var last := ws[|ws| - 1];
      MaxOpt(TopHeight(stored, ws[..|ws| - 1]), if last.UpsertParams? then Some(last.height) else None)
  }

  /** The parameters of the last parameter statement of `ws` at height `h`, if any. */
  function LastParamsAt(ws: seq<Write>, h: int): Option<string>
    decreases |ws|
  {
    if ws == [] then None
    else if ws[|ws| - 1].UpsertParams? && ws[|ws| - 1].height == h then Some(ws[|ws| - 1].params)
    else LastParamsAt(ws[..|ws| - 1], h)
  }

  /** After a batch, the row holds the parameters of the LAST statement with the
      GREATEST height; when no statement reaches the stored row's height the row is
      unchanged. Its height is that greatest height. */
  lemma {:induction false} ParamsKeepHighest(t: Tables, ws: seq<Write>)
    ensures var top := TopHeight(t.params, ws);
      ApplyAll(Apply, t, ws).params ==
        if top.Some? && LastParamsAt(ws, top.value).Some? then Some(ParamsRow(LastParamsAt(ws, top.value).value, top.value))
        else t.params
    ensures ApplyAll(Apply, t, ws).params.Some? ==> TopHeight(t.params, ws) == Some(ApplyAll(Apply, t, ws).params.value.height)
    decreases |ws|
  {
    if ws != [] {
      var ws' := ws[..|ws| - 1];
      var w := ws[|ws| - 1];
      ParamsKeepHighest(t, ws');
      TopAttained(t.params, ws');
      if w.UpsertParams? {
        var top' := TopHeight(t.params, ws');
        var top := TopHeight(t.params, ws);
        if top'.Some? && top'.value > w.height {
          assert LastParamsAt(ws, top.value) == LastParamsAt(ws', top'.value);
        }
      }
    }
  }

  /** The greatest height is that of the stored row or of some parameter statement. */
  lemma {:induction false} TopAttained(stored: Option<ParamsRow>, ws: seq<Write>)
    ensures TopHeight(stored, ws).Some? ==>
      (stored.Some? && stored.value.height == TopHeight(stored, ws).value) || LastParamsAt(ws, TopHeight(stored, ws).value).Some?
    decreases |ws|
  {
    if ws != [] {
      TopAttained(stored, ws[..|ws| - 1]);
    }
  }

  /** A statement on a stored row never makes its height go down. */
  lemma ParamsHeightNeverDecreases(t: Tables, w: Write)
    requires t.params.Some?
    ensures Apply(t, w).params.Some? && Apply(t, w).params.value.height >= t.params.value.height
  {
  }

  /** Parameters older than the stored ones are ignored, whatever their content. */
  lemma StaleParamsIgnored(t: Tables, p: string, h: int)
    requires t.params.Some? && h < t.params.value.height
    ensures Apply(t, UpsertParams(p, h)) == t
  {
  }

  lemma {:induction false} TopHeightSplit(stored: Option<ParamsRow>, ws: seq<Write>)
    ensures TopHeight(stored, ws) == MaxOpt(TopHeight(stored, []), TopHeight(None, ws))
    decreases |ws|
  {
    if ws != [] {
      TopHeightSplit(stored, ws[..|ws| - 1]);
    }
  }

  // ---------------------------------------------------------------------------------
  // The history table keeps the last row written for each epoch.

  /** The row the last history statement for `key` in `ws` wrote, if any. */
  function LastMint(ws: seq<Write>, key: (string, int)): Option<MintRow>
    decreases |ws|
  {
    if ws == [] then None
    else if ws[|ws| - 1].UpsertMint? && (ws[|ws| - 1].history.epochId, ws[|ws| - 1].history.epochNumber) == key then
      var h := ws[|ws| - 1].history;
      Some(MintRow(h.height, h.amount, h.denom))
    else LastMint(ws[..|ws| - 1], key)
  }

  /** After a batch, each epoch has the row of its last history statement, or keeps its
      old row. */
  lemma {:induction false} HistoryShape(t: Tables, ws: seq<Write>)
    ensures forall k :: k in ApplyAll(Apply, t, ws).history <==> k in t.history || LastMint(ws, k).Some?
    ensures forall k :: k in ApplyAll(Apply, t, ws).history ==>
      ApplyAll(Apply, t, ws).history[k] == if LastMint(ws, k).Some? then LastMint(ws, k).value else t.history[k]
    decreases |ws|
  {
    if ws != [] {
      HistoryShape(t, ws[..|ws| - 1]);
    }
  }

  /** Both tables are replay-safe: indexing the same statements a second time leaves the
      same rows. */
  lemma ReplayIdempotent(t: Tables, ws: seq<Write>)
    ensures ApplyAll(Apply, ApplyAll(Apply, t, ws), ws) == ApplyAll(Apply, t, ws)
  {
    var once := ApplyAll(Apply, t, ws);
    var twice := ApplyAll(Apply, once, ws);
    HistoryShape(t, ws);
    HistoryShape(once, ws);
    assert twice.history == once.history;
    ParamsKeepHighest(t, ws);
    ParamsKeepHighest(once, ws);
    TopHeightSplit(t.params, ws);
    TopHeightSplit(once.params, ws);
    assert TopHeight(once.params, ws) == TopHeight(t.params, ws);
    assert twice.params == once.params;
  }
}
