// The ABCI events the handlers read, and the juno helpers that select them.

module Events {
  import opened Wrappers

  datatype Attribute = Attribute(key: string, value: string)

  datatype Event = Event(ty: string, attributes: seq<Attribute>)

  /** `juno.FindEventsByType`: the events of type `ty`, in their original order. */
  function FindEventsByType(events: seq<Event>, ty: string): (r: seq<Event>)
  {
    if events == [] then []
    else (if events[0].ty == ty then [events[0]] else []) + FindEventsByType(events[1..], ty)
  }

  /** Selecting from two batches is selecting from each and concatenating: order is kept. */
  lemma {:induction false} FindEventsByTypeAppend(a: seq<Event>, b: seq<Event>, ty: string)
    ensures FindEventsByType(a + b, ty) == FindEventsByType(a, ty) + FindEventsByType(b, ty)
    decreases |a|
  {
    if a != [] {
      assert (a + b)[1..] == a[1..] + b;
      FindEventsByTypeAppend(a[1..], b, ty);
    } else {
      assert a + b == b;
    }
  }

  /** A batch with no event of type `ty` selects nothing. */
  lemma {:induction false} FindEventsByTypeNone(events: seq<Event>, ty: string)
    requires forall i :: 0 <= i < |events| ==> events[i].ty != ty
    ensures FindEventsByType(events, ty) == []
    decreases |events|
  {
    if events != [] {
      assert forall i :: 0 <= i < |events| - 1 ==> events[1..][i] == events[i + 1];
      FindEventsByTypeNone(events[1..], ty);
    }
  }

  /** Every event selected has type `ty` and comes from the batch. */
  lemma {:induction false} FindEventsByTypeMembers(events: seq<Event>, ty: string)
    ensures forall e :: e in FindEventsByType(events, ty) ==> e in events && e.ty == ty
    decreases |events|
  {
    if events != [] {
      FindEventsByTypeMembers(events[1..], ty);
    }
  }

  predicate HasKey(attributes: seq<Attribute>, key: string)
  {
    exists i :: 0 <= i < |attributes| && attributes[i].key == key
  }

  /** `juno.FindAttributeByKey`: the value of the first attribute named `key`. */
  function FindAttributeByKey(e: Event, key: string): (r: Result<string>)
    ensures r.Ok? <==> HasKey(e.attributes, key)
    ensures r.Err? ==> r.error == MissingAttribute(key)
    ensures r.Ok? ==> exists i :: 0 <= i < |e.attributes| && e.attributes[i] == Attribute(key, r.value)
                         && forall j :: 0 <= j < i ==> e.attributes[j].key != key
    decreases |e.attributes|
  {
    if e.attributes == [] then Err(MissingAttribute(key))
    else if e.attributes[0].key == key then Ok(e.attributes[0].value)
    else
      var r := FindAttributeByKey(Event(e.ty, e.attributes[1..]), key);
      assert forall i :: 0 <= i < |e.attributes| - 1 ==> e.attributes[1..][i] == e.attributes[i + 1];
      assert HasKey(e.attributes, key) ==> HasKey(e.attributes[1..], key) by {
        if HasKey(e.attributes, key) {
          var i :| 0 <= i < |e.attributes| && e.attributes[i].key == key;
          assert i != 0 && e.attributes[1..][i - 1].key == key;
        }
      }
      if r.Ok? then
        var i :| 0 <= i < |e.attributes| - 1 && e.attributes[1..][i] == Attribute(key, r.value)
                  && forall j :: 0 <= j < i ==> e.attributes[1..][j].key != key;
        assert e.attributes[i + 1] == Attribute(key, r.value);
        r
      else r
  }

  /** The values of `keys`, read one after the other as the handlers do: the first
      missing key ends the reading. */
  function Lookup(e: Event, keys: seq<string>): (r: Result<seq<string>>)
    ensures r.Ok? <==> forall k :: k in keys ==> HasKey(e.attributes, k)
    ensures r.Ok? ==> |r.value| == |keys| &&
                      forall i :: 0 <= i < |keys| ==> FindAttributeByKey(e, keys[i]) == Ok(r.value[i])
    ensures r.Err? ==> exists i :: 0 <= i < |keys| && r.error == MissingAttribute(keys[i]) &&
                         !HasKey(e.attributes, keys[i]) &&
                         forall j :: 0 <= j < i ==> HasKey(e.attributes, keys[j])
  {
    if keys == [] then Ok([])
    else
      var v :- FindAttributeByKey(e, keys[0]);
      var rest :- Lookup(e, keys[1..]);
      assert forall i :: 1 <= i < |keys| ==> keys[i] == keys[1..][i - 1];
      Ok([v] + rest)
  }

  /** Keys each found with its value are read into those values. */
  lemma LookupFound(e: Event, keys: seq<string>, vals: seq<string>)
    requires |vals| == |keys|
    requires forall i :: 0 <= i < |keys| ==> FindAttributeByKey(e, keys[i]) == Ok(vals[i])
    ensures Lookup(e, keys) == Ok(vals)
  {
    forall k | k in keys
      ensures HasKey(e.attributes, k)
    {
      var i :| 0 <= i < |keys| && keys[i] == k;
      assert FindAttributeByKey(e, keys[i]).Ok?;
    }
    var r := Lookup(e, keys);
    assert r.Ok?;
    assert forall i :: 0 <= i < |keys| ==> r.value[i] == vals[i];
    assert r.value == vals;
  }

  /** The parts of `tmctypes.ResultBlock` / `ResultBlockResults` the block handlers read. */
  datatype Block = Block(height: int, beginBlockEvents: seq<Event>, endBlockEvents: seq<Event>)
}
