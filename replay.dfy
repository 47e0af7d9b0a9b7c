// What a handler means: the statements it sends to the store, in order, and the error
// (if any) that ends it. A Go handler runs its steps one after another and returns at
// the first error; writes made before that error stay in the store.

module Replay {
  import opened Wrappers
  import opened Events

  /** The statements a handler issues when the store accepts them all, and the error
      that ends it (`None` when it runs to the end). */
  datatype Script<W> = Script(writes: seq<W>, stop: Option<Error>)

  function Done<W>(): Script<W> { Script([], None) }

  function Stop<W>(e: Error): Script<W> { Script([], Some(e)) }

  function Single<W>(w: W): Script<W> { Script([w], None) }

  /** `if err := a(); err != nil { return err }; b()`: `b` runs only when `a` ran to the end. */
  function Then<W>(a: Script<W>, b: Script<W>): Script<W>
  {
    if a.stop.Some? then a else Script(a.writes + b.writes, b.stop)
  }

  lemma ThenAssociative<W>(a: Script<W>, b: Script<W>, c: Script<W>)
    ensures Then(Then(a, b), c) == Then(a, Then(b, c))
  {
  }

  /** A Go `for _, event := range events` loop whose body decodes the event (an error
      returns from the handler) and then runs the statements `emit` gives for it. */
  function ForEach<P, W>(decode: Event -> Result<P>, emit: P -> Script<W>, events: seq<Event>): Script<W>
    decreases |events|
  {
    if events == [] then Done()
    else
      match decode(events[0])
      case Err(e) => Stop(e)
      case Ok(p) => Then(emit(p), ForEach(decode, emit, events[1..]))
  }

  /** One loop iteration: the script of `events[i..]` is that of `events[i]` followed
      by the script of `events[i + 1..]`. */
  lemma ForEachStep<P, W>(decode: Event -> Result<P>, emit: P -> Script<W>, events: seq<Event>, i: nat)
    requires i < |events|
    ensures decode(events[i]).Err? ==> ForEach(decode, emit, events[i..]) == Stop(decode(events[i]).error)
    ensures decode(events[i]).Ok? ==>
      ForEach(decode, emit, events[i..]) == Then(emit(decode(events[i]).value), ForEach(decode, emit, events[i + 1..]))
  {
    assert events[i..][0] == events[i];
    assert events[i..][1..] == events[i + 1..];
  }

  /** A Go `for _, x := range xs` loop whose body runs the statements `emit(x)` and
      returns at the first error. */
  function Loop<T, W>(emit: T -> Script<W>, xs: seq<T>): Script<W>
    decreases |xs|
  {
    if xs == [] then Done() else Then(emit(xs[0]), Loop(emit, xs[1..]))
  }

  /** A loop over one element runs that element's body. */
  lemma LoopOne<T, W>(emit: T -> Script<W>, x: T)
    ensures Loop(emit, [x]) == emit(x)
  {
    assert [x][1..] == [];
    ThenDone(emit(x));
  }

  /** One loop iteration: the script of `xs[i..]` is that of `xs[i]` followed by the
      script of `xs[i + 1..]`. */
  lemma LoopStep<T, W>(emit: T -> Script<W>, xs: seq<T>, i: nat)
    requires i < |xs|
    ensures Loop(emit, xs[i..]) == Then(emit(xs[i]), Loop(emit, xs[i + 1..]))
  {
    assert xs[i..][0] == xs[i];
    assert xs[i..][1..] == xs[i + 1..];
  }

  /** A loop returns at the first element whose body returns an error: it has run
      every element before that one to the end, then runs that element, and nothing
      after it. */
  lemma {:induction false} LoopStopsAtFirst<T, W>(emit: T -> Script<W>, xs: seq<T>)
    ensures var k := FirstStop(emit, xs);
      && Loop(emit, xs[..k]).stop.None?
      && Loop(emit, xs) == if k < |xs| then Then(Loop(emit, xs[..k]), emit(xs[k])) else Loop(emit, xs[..k])
    decreases |xs|
  {
    if xs == [] {
      assert xs[..0] == [];
    } else if emit(xs[0]).stop.Some? {
      assert xs[..0] == [];
      assert [] + emit(xs[0]).writes == emit(xs[0]).writes;
    } else {
      var rest := xs[1..];
      LoopStopsAtFirst(emit, rest);
      var k, k' := FirstStop(emit, xs), FirstStop(emit, rest);
      assert k == k' + 1;
      assert xs[..k][0] == xs[0] && xs[..k][1..] == rest[..k'];
      assert Loop(emit, xs[..k]) == Then(emit(xs[0]), Loop(emit, rest[..k']));
      if k < |xs| {
        assert xs[k] == rest[k'];
        ThenAssociative(emit(xs[0]), Loop(emit, rest[..k']), emit(rest[k']));
      } else {
        assert xs[..k] == xs && rest[..k'] == rest;
      }
    }
  }

  /** Running a loop over two lists is running it over each in turn. */
  lemma {:induction false} LoopConcat<T, W>(emit: T -> Script<W>, a: seq<T>, b: seq<T>)
    ensures Loop(emit, a + b) == Then(Loop(emit, a), Loop(emit, b))
    decreases |a|
  {
    if a == [] {
      assert a + b == b;
      assert [] + Loop(emit, b).writes == Loop(emit, b).writes;
    } else {
      assert (a + b)[0] == a[0] && (a + b)[1..] == a[1..] + b;
      LoopConcat(emit, a[1..], b);
      ThenAssociative(emit(a[0]), Loop(emit, a[1..]), Loop(emit, b));
    }
  }

  /** Two loops whose bodies agree element by element run the same script. */
  lemma {:induction false} LoopPointwise<T, U, W>(f: T -> Script<W>, xs: seq<T>, g: U -> Script<W>, ys: seq<U>)
    requires |xs| == |ys| && forall i :: 0 <= i < |xs| ==> f(xs[i]) == g(ys[i])
    ensures Loop(f, xs) == Loop(g, ys)
    decreases |xs|
  {
    if xs != [] {
      assert forall i :: 0 <= i < |xs| - 1 ==> xs[1..][i] == xs[i + 1] && ys[1..][i] == ys[i + 1];
      LoopPointwise(f, xs[1..], g, ys[1..]);
      assert f(xs[0]) == g(ys[0]);
    }
  }

  /** A loop body that returns an error before any statement, or sends one statement. */
  predicate OneOrStop<W>(s: Script<W>)
  {
    (s.writes == [] && s.stop.Some?) || (|s.writes| == 1 && s.stop.None?)
  }

  /** The elements of the inner lists, outer element by outer element. */
  function Flatten<A, B>(inner: A -> seq<B>, xs: seq<A>): seq<B>
    decreases |xs|
  {
    if xs == [] then [] else inner(xs[0]) + Flatten(inner, xs[1..])
  }

  /** Every element of every inner list is in the flattened list, and every element of
      the flattened list comes from one of the inner lists. */
  lemma {:induction false} FlattenCover<A, B>(inner: A -> seq<B>, xs: seq<A>)
    ensures forall j, k :: 0 <= j < |xs| && 0 <= k < |inner(xs[j])| ==> inner(xs[j])[k] in Flatten(inner, xs)
    ensures forall b :: b in Flatten(inner, xs) ==> exists j :: 0 <= j < |xs| && b in inner(xs[j])
    decreases |xs|
  {
    if xs != [] {
      var rest := xs[1..];
      FlattenCover(inner, rest);
      assert forall j :: 1 <= j < |xs| ==> xs[j] == rest[j - 1];
      forall b | b in Flatten(inner, xs)
        ensures exists j :: 0 <= j < |xs| && b in inner(xs[j])
      {
        if b !in inner(xs[0]) {
          var j :| 0 <= j < |rest| && b in inner(rest[j]);
          assert xs[j + 1] == rest[j];
        }
      }
    }
  }

  /** A loop whose body is itself a loop over an inner list is one loop over the
      flattened list. */
  lemma {:induction false} LoopFlatten<A, B, W>(outer: A -> Script<W>, inner: A -> seq<B>, body: B -> Script<W>, xs: seq<A>)
    requires forall a :: outer(a) == Loop(body, inner(a))
    ensures Loop(outer, xs) == Loop(body, Flatten(inner, xs))
    decreases |xs|
  {
    if xs != [] {
      LoopFlatten(outer, inner, body, xs[1..]);
      LoopConcat(body, inner(xs[0]), Flatten(inner, xs[1..]));
    }
  }

  /** Index of the first element whose body returns an error, or |xs|. */
  function FirstStop<T, W>(emit: T -> Script<W>, xs: seq<T>): (k: nat)
    ensures k <= |xs|
    ensures forall i :: 0 <= i < k ==> emit(xs[i]).stop.None?
    ensures k < |xs| ==> emit(xs[k]).stop.Some?
    decreases |xs|
  {
    if xs == [] || emit(xs[0]).stop.Some? then 0
    else
      var k := FirstStop(emit, xs[1..]);
      assert forall i :: 1 <= i < k + 1 ==> xs[i] == xs[1..][i - 1];
      1 + k
  }

  /** A loop whose body sends one statement or returns an error: it sends one
      statement per element, in order, up to the first error, and returns that error;
      it returns nil when no element gives an error. */
  lemma {:induction false} LoopSingles<T, W>(emit: T -> Script<W>, xs: seq<T>)
    requires forall x :: OneOrStop(emit(x))
    ensures |Loop(emit, xs).writes| == FirstStop(emit, xs)
    ensures forall i :: 0 <= i < FirstStop(emit, xs) ==> emit(xs[i]).writes == [Loop(emit, xs).writes[i]]
    ensures Loop(emit, xs).stop == if FirstStop(emit, xs) < |xs| then emit(xs[FirstStop(emit, xs)]).stop else None
    decreases |xs|
  {
    if xs != [] && emit(xs[0]).stop.None? {
      var rest := xs[1..];
      LoopSingles(emit, rest);
      assert Loop(emit, xs).writes == [emit(xs[0]).writes[0]] + Loop(emit, rest).writes;
      assert forall i :: 1 <= i < |xs| ==> xs[i] == rest[i - 1];
    }
  }

  /** Such a loop runs to the end exactly when no element gives an error, and then it
      sent the one statement of each element, in order. */
  lemma LoopCompleted<T, W>(emit: T -> Script<W>, xs: seq<T>)
    requires forall x :: OneOrStop(emit(x))
    ensures Loop(emit, xs).stop.None? <==> forall i :: 0 <= i < |xs| ==> emit(xs[i]).stop.None?
    ensures Loop(emit, xs).stop.None? ==>
              |Loop(emit, xs).writes| == |xs| && forall i :: 0 <= i < |xs| ==> emit(xs[i]) == Single(Loop(emit, xs).writes[i])
  {
    LoopSingles(emit, xs);
  }

  /** Index of the first event `decode` rejects, or |events| when it accepts them all. */
  function FirstBad<P>(decode: Event -> Result<P>, events: seq<Event>): (k: nat)
    ensures k <= |events|
    ensures forall i :: 0 <= i < k ==> decode(events[i]).Ok?
    ensures k < |events| ==> decode(events[k]).Err?
    decreases |events|
  {
    if events == [] || decode(events[0]).Err? then 0
    else
      var k := FirstBad(decode, events[1..]);
      assert forall i :: 1 <= i < k + 1 ==> events[i] == events[1..][i - 1];
      1 + k
  }

  /** A loop whose events each give one statement `f(p)`: it issues one statement per
      event, in event order, until the first event that does not decode, and returns
      that event's error; when every event decodes it returns nil. */
  lemma {:induction false} ForEachSingles<P, W>(decode: Event -> Result<P>, emit: P -> Script<W>, f: P -> W, events: seq<Event>)
    requires forall e :: decode(e).Ok? ==> emit(decode(e).value) == Single(f(decode(e).value))
    ensures |ForEach(decode, emit, events).writes| == FirstBad(decode, events)
    ensures forall i :: 0 <= i < FirstBad(decode, events) ==> ForEach(decode, emit, events).writes[i] == f(decode(events[i]).value)
    ensures ForEach(decode, emit, events).stop ==
      if FirstBad(decode, events) < |events| then Some(decode(events[FirstBad(decode, events)]).error) else None
    decreases |events|
  {
    if events != [] && decode(events[0]).Ok? {
      var rest := events[1..];
      ForEachSingles(decode, emit, f, rest);
      var k := FirstBad(decode, rest);
      var x := decode(events[0]).value;
      assert ForEach(decode, emit, events) == Script([f(x)] + ForEach(decode, emit, rest).writes, ForEach(decode, emit, rest).stop);
      assert FirstBad(decode, events) == k + 1;
      assert forall i :: 1 <= i < |events| ==> events[i] == rest[i - 1];
    }
  }

  /** The store state after the statements `ws`, applied in order to `s`. */
  function ApplyAll<S, W>(apply: (S, W) -> S, s: S, ws: seq<W>): S
    decreases |ws|
  {
    if ws == [] then s else apply(ApplyAll(apply, s, ws[..|ws| - 1]), ws[|ws| - 1])
  }

  lemma ApplyAllPair<S, W>(apply: (S, W) -> S, s: S, a: W, b: W)
    ensures ApplyAll(apply, s, [a, b]) == apply(apply(s, a), b)
  {
    ApplyAllSnoc(apply, s, [], a);
    ApplyAllSnoc(apply, s, [a], b);
    assert [] + [a] == [a] && [a] + [b] == [a, b];
  }

  lemma ApplyAllSnoc<S, W>(apply: (S, W) -> S, s: S, ws: seq<W>, w: W)
    ensures ApplyAll(apply, s, ws + [w]) == apply(ApplyAll(apply, s, ws), w)
  {
    assert (ws + [w])[..|ws|] == ws;
  }

  /** Running two batches of statements is running their concatenation. */
  lemma {:induction false} ApplyAllConcat<S, W>(apply: (S, W) -> S, s: S, a: seq<W>, b: seq<W>)
    ensures ApplyAll(apply, s, a + b) == ApplyAll(apply, ApplyAll(apply, s, a), b)
    decreases |b|
  {
    if b == [] {
      assert a + b == a;
    } else {
      var b' := b[..|b| - 1];
      ApplyAllConcat(apply, s, a, b');
      assert (a + b)[..|a + b| - 1] == a + b';
    }
  }

  /** A Go loop `for _, x := range xs` that sends one statement per element and
      returns at the first rejected one. */
  function Each<T, W>(f: T -> W, xs: seq<T>): (s: Script<W>)
    ensures |s.writes| == |xs| && s.stop.None?
    ensures forall i :: 0 <= i < |xs| ==> s.writes[i] == f(xs[i])
  {
    Script(seq(|xs|, i requires 0 <= i < |xs| => f(xs[i])), None)
  }

  /** A loop whose body always sends one statement sends one per element, in order. */
  lemma {:induction false} LoopOfSingles<T, W>(body: T -> Script<W>, f: T -> W, xs: seq<T>)
    requires forall x :: body(x) == Single(f(x))
    ensures Loop(body, xs) == Each(f, xs)
    decreases |xs|
  {
    if xs != [] {
      LoopOfSingles(body, f, xs[1..]);
      assert Loop(body, xs).writes == [f(xs[0])] + Each(f, xs[1..]).writes;
    }
  }

  /** Every statement of `s` satisfies `p`. */
  predicate AllWrites<W>(s: Script<W>, p: W -> bool)
  {
    forall i :: 0 <= i < |s.writes| ==> p(s.writes[i])
  }

  lemma ThenAllWrites<W>(a: Script<W>, b: Script<W>, p: W -> bool)
    requires AllWrites(a, p) && AllWrites(b, p)
    ensures AllWrites(Then(a, b), p)
  {
    if a.stop.None? {
      assert forall i :: |a.writes| <= i < |a.writes| + |b.writes| ==> Then(a, b).writes[i] == b.writes[i - |a.writes|];
    }
  }

  /** A loop whose every body sends only statements satisfying `p` sends only such
      statements. */
  lemma {:induction false} LoopAllWrites<T, W>(emit: T -> Script<W>, xs: seq<T>, p: W -> bool)
    requires forall x :: AllWrites(emit(x), p)
    ensures AllWrites(Loop(emit, xs), p)
    decreases |xs|
  {
    if xs != [] {
      LoopAllWrites(emit, xs[1..], p);
      ThenAllWrites(emit(xs[0]), Loop(emit, xs[1..]), p);
    }
  }

  /** The result a handler returns once every statement of `script` was accepted. */
  function Planned<W>(script: Script<W>): Outcome
  {
    if script.stop.None? then Pass else Fail(script.stop.value)
  }

  /** How far a handler got through `script`: the store accepted its first `n`
      statements; if it stopped before the last one, the store had rejected the next
      statement and the handler returned that rejection; otherwise it returned the
      planned result. */
  ghost predicate Performed<W>(script: Script<W>, r: Outcome, n: nat)
  {
    && n <= |script.writes|
    && (n < |script.writes| ==> r == Fail(DbError))
    && (n == |script.writes| ==> r == Planned(script))
  }

  // ---------------------------------------------------------------------------------
  // Proof steps for handlers. A handler planning `full` keeps a ghost `done` (the part
  // it has got through) with `full == Then(done, rest)` for the part still ahead, and its
  // store's tables equal to `ApplyAll(apply, s0, done.writes)` for the tables `s0` it
  // started from. Each step returns the new `done` as a fresh value.

  /** Nothing has run yet. */
  lemma Begin<S, W>(apply: (S, W) -> S, full: Script<W>, s0: S) returns (done: Script<W>)
    ensures done == Done() && full == Then(done, full) && s0 == ApplyAll(apply, s0, done.writes)
  {
    done := Done();
    assert [] + full.writes == full.writes;
  }

  /** One statement sent to the store, as a one-statement script. */
  lemma Ran<S, W>(apply: (S, W) -> S, w: W, r: Outcome, mid: S, fin: S) returns (m: nat)
    requires (r == Pass && fin == apply(mid, w)) || (r == Fail(DbError) && fin == mid)
    ensures Performed(Single(w), r, m) && fin == ApplyAll(apply, mid, Single(w).writes[..m])
  {
    m := if r.Pass? then 1 else 0;
    if r.Pass? {
      assert Single(w).writes[..m] == [] + [w];
      ApplyAllSnoc(apply, mid, [], w);
    }
  }

  /** The handler performed `m` statements of `step`, the next part of `full`, with
      outcome `r`: on nil it has got through `next`; on an error it returns, having
      performed `n` statements of `full`. */
  lemma Advance<S, W>(apply: (S, W) -> S, full: Script<W>, done: Script<W>, step: Script<W>, rest: Script<W>, r: Outcome, m: nat,
                   s0: S, mid: S, fin: S) returns (next: Script<W>, n: nat)
    requires full == Then(done, Then(step, rest)) && done.stop.None?
    requires Performed(step, r, m) && mid == ApplyAll(apply, s0, done.writes) && fin == ApplyAll(apply, mid, step.writes[..m])
    ensures r.Pass? ==> full == Then(next, rest) && next.stop.None? && fin == ApplyAll(apply, s0, next.writes)
    ensures r.Fail? ==> Performed(full, r, n) && fin == ApplyAll(apply, s0, full.writes[..n])
    ensures next == Then(done, step)
  {
    next := Then(done, step);
    n := |done.writes| + m;
    ApplyAllConcat(apply, s0, done.writes, step.writes[..m]);
    if m == |step.writes| {
      assert step.writes[..m] == step.writes;
    }
    if r.Fail? {
      assert full.writes[..n] == done.writes + step.writes[..m];
    }
  }

  /** The part ahead is an error the handler returns before any statement. */
  lemma Halt<S, W>(apply: (S, W) -> S, full: Script<W>, done: Script<W>, e: Error, s0: S, fin: S) returns (n: nat)
    requires full == Then(done, Stop(e)) && done.stop.None? && fin == ApplyAll(apply, s0, done.writes)
    ensures Performed(full, Fail(e), n) && fin == ApplyAll(apply, s0, full.writes[..n])
  {
    n := |done.writes|;
    assert done.writes + [] == done.writes;
    assert full.writes[..n] == full.writes;
  }

  /** Nothing is ahead: the handler returns nil, having performed all of `full`. */
  lemma Finish<S, W>(apply: (S, W) -> S, full: Script<W>, done: Script<W>, s0: S, fin: S) returns (n: nat)
    requires full == Then(done, Done()) && done.stop.None? && fin == ApplyAll(apply, s0, done.writes)
    ensures Performed(full, Pass, n) && fin == ApplyAll(apply, s0, full.writes[..n])
  {
    n := |done.writes|;
    assert done.writes + [] == done.writes;
    assert full.writes[..n] == full.writes;
  }

  /** One more element of an `Each` loop was sent: `i` statements were accepted
      before it. */
  lemma EachRan<S, T, W>(apply: (S, W) -> S, f: T -> W, xs: seq<T>, i: nat, r: Outcome, s0: S, mid: S, fin: S)
    requires i < |xs| && mid == ApplyAll(apply, s0, Each(f, xs).writes[..i])
    requires (r == Pass && fin == apply(mid, f(xs[i]))) || (r == Fail(DbError) && fin == mid)
    ensures r.Pass? ==> fin == ApplyAll(apply, s0, Each(f, xs).writes[..i + 1])
    ensures r.Fail? ==> Performed(Each(f, xs), r, i) && fin == ApplyAll(apply, s0, Each(f, xs).writes[..i])
  {
    assert Each(f, xs).writes[..i + 1] == Each(f, xs).writes[..i] + [f(xs[i])];
    ApplyAllSnoc(apply, s0, Each(f, xs).writes[..i], f(xs[i]));
  }

  /** An `Each` loop that got to the end returns nil. */
  lemma EachDone<S, T, W>(apply: (S, W) -> S, f: T -> W, xs: seq<T>, s0: S, fin: S)
    requires fin == ApplyAll(apply, s0, Each(f, xs).writes[..|xs|])
    ensures Performed(Each(f, xs), Pass, |xs|) && fin == ApplyAll(apply, s0, Each(f, xs).writes)
  {
    assert Each(f, xs).writes[..|xs|] == Each(f, xs).writes;
  }

  /** Nothing before a step leaves the step as it is. */
  lemma NothingFirst<W>(a: Script<W>)
    ensures Then(Done(), a) == a
  {
    assert [] + a.writes == a.writes;
  }

  /** Nothing after the last step of a handler. */
  lemma ThenDone<W>(a: Script<W>)
    ensures Then(a, Done()) == a
  {
    assert a.writes + [] == a.writes;
  }

  /** The statements chosen by `kept`, for loops that ignore a rejected statement and go on. */
  function Kept<W>(ws: seq<W>, kept: seq<bool>): seq<W>
    requires |kept| == |ws|
    decreases |ws|
  {
    if ws == [] then [] else Kept(ws[..|ws| - 1], kept[..|ws| - 1]) + (if kept[|ws| - 1] then [ws[|ws| - 1]] else [])
  }

  lemma KeptSnoc<W>(ws: seq<W>, kept: seq<bool>, w: W, k: bool)
    requires |kept| == |ws|
    ensures Kept(ws + [w], kept + [k]) == Kept(ws, kept) + (if k then [w] else [])
  {
    assert (ws + [w])[..|ws|] == ws;
    assert (kept + [k])[..|ws|] == kept;
  }

  /** The statements kept are some of the planned ones, in order; when every one was
      kept, they are all of them. */
  lemma {:induction false} KeptSubset<W>(ws: seq<W>, kept: seq<bool>)
    requires |kept| == |ws|
    ensures |Kept(ws, kept)| <= |ws|
    ensures forall w :: w in Kept(ws, kept) ==> w in ws
    ensures (forall i :: 0 <= i < |kept| ==> kept[i]) ==> Kept(ws, kept) == ws
    decreases |ws|
  {
    if ws != [] {
      var ws', kept', last := ws[..|ws| - 1], kept[..|ws| - 1], ws[|ws| - 1];
      var tail := if kept[|ws| - 1] then [last] else [];
      KeptSubset(ws', kept');
      assert ws == ws' + [last];
      assert Kept(ws, kept) == Kept(ws', kept') + tail;
      forall w | w in Kept(ws, kept)
        ensures w in ws
      {
        if w in Kept(ws', kept') {
          assert w in ws';
        }
      }
      if forall i :: 0 <= i < |kept| ==> kept[i] {
        assert forall i :: 0 <= i < |kept'| ==> kept'[i] by {
          forall i | 0 <= i < |kept'| ensures kept'[i] { assert kept'[i] == kept[i]; }
        }
        assert kept[|ws| - 1];
      }
    }
  }

  /** A loop that ignores a rejected statement and goes on: one more statement. */
  lemma Keep<S, W>(apply: (S, W) -> S, s0: S, planned: seq<W>, kept: seq<bool>, w: W, r: Outcome, mid: S, fin: S)
    requires |kept| == |planned| && mid == ApplyAll(apply, s0, Kept(planned, kept))
    requires (r == Pass && fin == apply(mid, w)) || (r == Fail(DbError) && fin == mid)
    ensures fin == ApplyAll(apply, s0, Kept(planned + [w], kept + [r.Pass?]))
  {
    KeptSnoc(planned, kept, w, r.Pass?);
    if r.Pass? {
      ApplyAllSnoc(apply, s0, Kept(planned, kept), w);
    } else {
      assert Kept(planned + [w], kept + [false]) == Kept(planned, kept) + [];
      assert Kept(planned, kept) + [] == Kept(planned, kept);
    }
  }
}
