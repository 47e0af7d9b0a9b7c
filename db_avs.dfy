// database/avs.go: the `avs` and `chain_id_to_avs_addr` tables.

module AvsDb {
  import opened Wrappers
  import opened Replay

  datatype Tables = Tables(avs: set<string>, chainIdToAvsAddr: map<string, string>)

  /** The statements of database/avs.go. */
  datatype Write =
    | InsertAvs(avsAddr: string)                       // SaveAvsAddr
    | UpsertChainAvs(chainId: string, avsAddr: string) // SaveChainIdToAvsAddr

  function Apply(t: Tables, w: Write): Tables
  {
    match w
    case InsertAvs(a) => t.(avs := t.avs + {a})
    case UpsertChainAvs(c, a) => t.(chainIdToAvsAddr := t.chainIdToAvsAddr[c := a])
  }

  /** The tables of a fresh database. */
  function Empty(): Tables { Tables({}, map[]) }

  /** The part of the Postgres database that database/avs.go writes: one field per table,
      keyed on the table's conflict columns. */
  class Store {
    var avs: set<string>
    var chainIdToAvsAddr: map<string, string>

    function Snapshot(): Tables
      reads this
    {
      Tables(avs, chainIdToAvsAddr)
    }

    constructor()
      ensures Snapshot() == Empty()
    {
      avs := {};
      chainIdToAvsAddr := map[];
    }

    /** `SaveAvsAddr`: inserts the address; an address already stored is left as it is. */
    method SaveAvsAddr(avsAddr: string) returns (r: Outcome)
      modifies this`avs
      ensures (r == Pass && avs == old(avs) + {avsAddr}) || (r == Fail(DbError) && avs == old(avs))
      ensures (r == Pass && Snapshot() == Apply(old(Snapshot()), InsertAvs(avsAddr))) || (r == Fail(DbError) && Snapshot() == old(Snapshot()))
    {
      r := Exec();
      if r.Pass? {
        avs := avs + {avsAddr};
      }
    }

    /** `SaveChainIdToAvsAddr`: maps the chain id to the address, replacing an earlier mapping. */
    method SaveChainIdToAvsAddr(chainId: string, avsAddr: string) returns (r: Outcome)
      modifies this`chainIdToAvsAddr
      ensures (r == Pass && chainIdToAvsAddr == old(chainIdToAvsAddr)[chainId := avsAddr]) || (r == Fail(DbError) && chainIdToAvsAddr == old(chainIdToAvsAddr))
      ensures (r == Pass && Snapshot() == Apply(old(Snapshot()), UpsertChainAvs(chainId, avsAddr))) || (r == Fail(DbError) && Snapshot() == old(Snapshot()))
    {
      r := Exec();
      if r.Pass? {
        chainIdToAvsAddr := chainIdToAvsAddr[chainId := avsAddr];
      }
    }
  }

  // ---------------------------------------------------------------------------------
  // What a batch of statements leaves behind.

  function InsertedAvs(ws: seq<Write>): set<string>
  {
    set i | 0 <= i < |ws| && ws[i].InsertAvs? :: ws[i].avsAddr
  }

  /** The address the last mapping statement for `chainId` in `ws` wrote, if any. */
  function LastMapping(ws: seq<Write>, chainId: string): Option<string>
    decreases |ws|
  {
    if ws == [] then None
    else if ws[|ws| - 1].UpsertChainAvs? && ws[|ws| - 1].chainId == chainId then Some(ws[|ws| - 1].avsAddr)
    else LastMapping(ws[..|ws| - 1], chainId)
  }

  /** After a batch, the AVS set gained exactly the inserted addresses, and each chain id
      maps to the address of its last mapping statement or keeps its old mapping. */
  lemma {:induction false} ApplyAllShape(t: Tables, ws: seq<Write>)
    ensures ApplyAll(Apply, t, ws).avs == t.avs + InsertedAvs(ws)
    ensures forall c :: c in ApplyAll(Apply, t, ws).chainIdToAvsAddr <==> c in t.chainIdToAvsAddr || LastMapping(ws, c).Some?
    ensures forall c :: c in ApplyAll(Apply, t, ws).chainIdToAvsAddr ==>
      ApplyAll(Apply, t, ws).chainIdToAvsAddr[c] == if LastMapping(ws, c).Some? then LastMapping(ws, c).value else t.chainIdToAvsAddr[c]
    decreases |ws|
  {
    if ws != [] {
      var ws' := ws[..|ws| - 1];
      ApplyAllShape(t, ws');
      assert forall i :: 0 <= i < |ws'| ==> ws'[i] == ws[i];
      assert InsertedAvs(ws) == InsertedAvs(ws') + (if ws[|ws| - 1].InsertAvs? then {ws[|ws| - 1].avsAddr} else {});
    }
  }

  lemma {:induction false} LastMappingConcat(a: seq<Write>, b: seq<Write>, chainId: string)
    ensures LastMapping(a + b, chainId) == if LastMapping(b, chainId).Some? then LastMapping(b, chainId) else LastMapping(a, chainId)
    decreases |b|
  {
    if b == [] {
      assert a + b == a;
    } else {
      assert (a + b)[..|a + b| - 1] == a + b[..|b| - 1];
      LastMappingConcat(a, b[..|b| - 1], chainId);
    }
  }

  /** Both tables are replay-safe: running a batch of statements a second time changes
      nothing, so a block indexed twice leaves the same rows. */
  lemma ReplayIdempotent(t: Tables, ws: seq<Write>)
    ensures ApplyAll(Apply, ApplyAll(Apply, t, ws), ws) == ApplyAll(Apply, t, ws)
  {
    var once := ApplyAll(Apply, t, ws);
    ApplyAllShape(t, ws);
    ApplyAllShape(once, ws);
    var twice := ApplyAll(Apply, once, ws);
    assert twice.avs == once.avs;
    assert twice.chainIdToAvsAddr == once.chainIdToAvsAddr;
  }
}
