/** `useYield` (src/useYield.mjs): the state cell with its initial-state check,
    `getState`, `updateState`, and the runner `run` that classifies what a
    state changer returns and drains a generator yield by yield. */
module UseYield {
  import opened JsValues
  import opened MergeLaws

  const INITIAL_STATE_MESSAGE := "useAsyncState only accepts object as initialState"

  /** The setup check: `typeof v === 'object' && v instanceof Object`. It lets
      arrays and objects with a prototype through and stops null, every
      primitive, functions and null-prototype objects. */
  function AcceptsInitialState(v: Value): (ok: bool)
    ensures ok <==> v.Arr? || (v.Obj? && !v.proto.NullProto?)
  {
    TypeOf(v) == "object" && InstanceOfObject(v)
  }

  /** A cancellation controller; its signal's `aborted` flag is set once and
      stays set. */
  class AbortController {
    var aborted: bool

    constructor ()
      ensures !aborted
    {
      aborted := false;
    }

    method Abort()
      modifies this
      ensures aborted
    {
      aborted := true;
    }
  }

  /** What a state changer hands back: the returned value, together with
      what its methods deliver if `run` calls them: the partials that
      successive `next()` calls resolve with, and the value `then` resolves
      with. Which of these `run` uses is decided by the value alone. */
  datatype ChangerResult = ChangerResult(value: Value, steps: seq<Value>, resolved: Value)

  /** A state changer, called with the state snapshot and the action argument. */
  type Changer = (Value, Value) -> ChangerResult

  /** The object an async generator function returns. */
  const ASYNC_GENERATOR := Obj(map[], ClassProto("AsyncGenerator"))

  /** A changer that is an async generator function yielding `steps`. */
  function Generator(steps: seq<Value>): Changer
  {
    (getState, action) => ChangerResult(ASYNC_GENERATOR, steps, Undefined)
  }

  /** The three ways `run` treats a changer's result. */
  datatype Path = Sequence(steps: seq<Value>) | Deferred(resolved: Value) | Immediate(plain: Value)

  /** The partials a path merges later: every yield, or the one resolved value. */
  function Later(p: Path): seq<Value>
  {
    match p
    case Sequence(steps) => steps
    case Deferred(resolved) => [resolved]
    case Immediate(_) => []
  }

  /** Whether calling the value's `next` hands back something with a `then`.
      The built-in `next` of a synchronous generator hands back a plain
      `{ value, done }` record; any other callable `next` is taken to follow
      the async iterator protocol. */
  predicate NextGivesPromise(v: Value)
  {
    !(v.Obj? && v.proto == ClassProto("Generator") && "next" !in v.fields)
  }

  /** The shape test of `run` on the value the changer returned. Reading
      `next` of null or undefined throws. A truthy `next` makes a generator,
      whatever `then` is; `pull` then calls it and calls `then` on what it
      returns, so a `next` that is not a function, or one that does not give
      a promise, throws. Otherwise a truthy `then` makes a promise, and one
      that is not a function throws when called. Anything else is a plain
      value. */
  function Classify(res: ChangerResult): (p: Result<Path, Thrown>)
    ensures p.Failure? ==> p.error == TypeError
    ensures res.value.Null? || res.value.Undefined? ==> p.Failure?
    ensures p.Success? && p.value.Sequence? ==> p.value.steps == res.steps
    ensures p.Success? && p.value.Deferred? ==> p.value == Deferred(res.resolved)
    ensures p.Success? && p.value.Immediate? ==> p.value == Immediate(res.value)
  {
    var next := Property(res.value, "next");
    if next.Failure? then Failure(next.error)
    else if Truthy(next.value) then
      if next.value.Func? && NextGivesPromise(res.value) then Success(Sequence(res.steps))
      else Failure(TypeError)
    else
      var thenMember := Property(res.value, "then").value;
      if Truthy(thenMember) then
        if thenMember.Func? then Success(Deferred(res.resolved)) else Failure(TypeError)
      else Success(Immediate(res.value))
  }

  /** The shape is read off the returned value: two results with the same
      value take the same path, whatever their methods would deliver. */
  lemma ShapeIsReadOffTheValue(v: Value, steps: seq<Value>, resolved: Value, steps': seq<Value>, resolved': Value)
    ensures Classify(ChangerResult(v, steps, resolved)).Success?
            <==> Classify(ChangerResult(v, steps', resolved')).Success?
    ensures Classify(ChangerResult(v, steps, resolved)).Success? ==>
              && (Classify(ChangerResult(v, steps, resolved)).value.Sequence?
                  <==> Classify(ChangerResult(v, steps', resolved')).value.Sequence?)
              && (Classify(ChangerResult(v, steps, resolved)).value.Deferred?
                  <==> Classify(ChangerResult(v, steps', resolved')).value.Deferred?)
  {
  }

  /** Any value other than null and undefined whose `next` and `then` read
      falsy (a record such as a state partial, an array, a string, a number,
      a function, a class instance without those members) is merged at once,
      unchanged. */
  lemma FalsyMembersMergeAtOnce(v: Value, steps: seq<Value>, resolved: Value)
    requires !(v.Null? || v.Undefined?)
    requires !Truthy(Property(v, "next").value)
    requires !Truthy(Property(v, "then").value)
    ensures Classify(ChangerResult(v, steps, resolved)) == Success(Immediate(v))
  {
  }

  /** A value with a truthy `next` or `then` is never merged as it is: it
      starts a generator or a promise, or `run` throws a TypeError. `next`
      is tested first: a value with a truthy `next` that does not throw is
      a generator whatever its `then`, and only a value whose `next` reads
      falsy can be a promise. */
  lemma ProbedValuesAreNeverMerged(res: ChangerResult)
    requires !(res.value.Null? || res.value.Undefined?)
    requires Truthy(Property(res.value, "next").value) || Truthy(Property(res.value, "then").value)
    ensures Classify(res).Failure? || !Classify(res).value.Immediate?
    ensures Truthy(Property(res.value, "next").value) && Classify(res).Success? ==>
              Classify(res) == Success(Sequence(res.steps))
    ensures !Truthy(Property(res.value, "next").value) && Classify(res).Success? ==>
              Classify(res) == Success(Deferred(res.resolved))
    ensures Classify(res).Failure? <==>
              if Truthy(Property(res.value, "next").value)
              then !Property(res.value, "next").value.Func? || !NextGivesPromise(res.value)
              else !Property(res.value, "then").value.Func?
  {
  }

  /** What an async generator function returns is started as a generator. */
  lemma AsyncGeneratorStarts(steps: seq<Value>, resolved: Value)
    ensures Classify(ChangerResult(ASYNC_GENERATOR, steps, resolved)) == Success(Sequence(steps))
  {
    assert "next" in InheritedMethods(ASYNC_GENERATOR.proto);
  }

  /** A generator object with a `then` of its own is still a generator, and
      a promise is a promise. */
  lemma ThenableShapes(steps: seq<Value>, resolved: Value)
    ensures Classify(ChangerResult(Obj(map["then" := Func(1)], ClassProto("AsyncGenerator")), steps, resolved))
            == Success(Sequence(steps))
    ensures Classify(ChangerResult(Obj(map[], ClassProto("Promise")), steps, resolved)) == Success(Deferred(resolved))
  {
    assert "next" in InheritedMethods(ClassProto("AsyncGenerator"));
    assert "next" !in InheritedMethods(ClassProto("Promise"));
    assert "then" in InheritedMethods(ClassProto("Promise"));
  }

  /** The shapes on which `run` throws: a pagination cursor `{next: "page2"}`,
      a record with `then: 1`, and a synchronous generator, whose `next()`
      result has no `then`. */
  lemma ThrowingShapes(steps: seq<Value>, resolved: Value)
    ensures Classify(ChangerResult(Obj(map["next" := Str("page2")], ObjectProto), steps, resolved)) == Failure(TypeError)
    ensures Classify(ChangerResult(Obj(map["then" := Num(1)], ObjectProto), steps, resolved)) == Failure(TypeError)
    ensures Classify(ChangerResult(Obj(map[], ClassProto("Generator")), steps, resolved)) == Failure(TypeError)
  {
    assert "next" in InheritedMethods(ClassProto("Generator"));
  }

  /** The second argument of `run`; `aborter` is what the source reads,
      `abortable` what the compiled build reads instead. */
  datatype RunOptions = RunOptions(aborter: Option<AbortController>, abortable: Option<AbortController>, action: Value)

  /** `options?.aborter`. */
  function Aborter(options: Option<RunOptions>): Option<AbortController>
  {
    if options.Some? then options.value.aborter else None
  }

  /** The asynchronous work a run leaves behind: nothing, or partials still to
      be merged under the run's signal. */
  datatype Task = Settled | Pending(partials: seq<Value>, signal: AbortController)

  /** What `run` hands back (the controller, or null) and the work it left. */
  datatype Started = Started(controller: AbortController?, task: Task)

  function Controllers(r: Result<Started, Thrown>): set<AbortController>
  {
    if r.Success? && r.value.controller != null then {r.value.controller} else {}
  }

  /** The outcome of the synchronous part of `run` on the result `res`, with
      `chosen` the controller passed in (None: `run` makes a new one). A
      throwing shape and the generator and promise shapes leave the cell as it
      was; the latter two return the controller and leave their partials
      pending under its signal; a plain value is merged at once WITHOUT a
      signal, so no abort can block it, and `run` returns null. */
  twostate predicate Launched(cell: YieldCell, res: ChangerResult, chosen: Option<AbortController>, new r: Result<Started, Thrown>)
    reads cell, Controllers(r)
  {
    var path := Classify(res);
    && (path.Failure? ==>
          r == Failure(path.error) && cell.Snapshot() == old(cell.Snapshot()))
    && (path.Success? && path.value.Immediate? ==>
          r == Success(Started(null, Settled))
          && cell.Snapshot() == Update(old(cell.Snapshot()), path.value.plain, false))
    && (path.Success? && !path.value.Immediate? ==>
          && r.Success? && r.value.controller != null
          && r.value.task == Pending(Later(path.value), r.value.controller)
          && cell.Snapshot() == old(cell.Snapshot())
          && (chosen.Some? ==> r.value.controller == chosen.value)
          && (chosen.None? ==> fresh(r.value.controller) && !r.value.controller.aborted))
  }

  /** The cell behind one `useYield` call. */
  class YieldCell {
    var current: Value   // state.current
    var counter: nat     // the counter behind setCounter

    ghost predicate Valid()
      reads this
    {
      AcceptsInitialState(current)
    }

    function Snapshot(): CellState
      reads this
    {
      CellState(current, counter)
    }

    constructor (initialState: Value)
      requires AcceptsInitialState(initialState)
      ensures Valid() && current == initialState && counter == 0
    {
      current := initialState;
      counter := 0;
    }

    /** `getState`: a new plain object with the stored record's entries; for a
        plain-object record it equals the record. */
    function GetState(): (r: Value)
      reads this
      ensures IsPlainObject(r) && r.fields == Spread(current)
      ensures IsPlainObject(current) ==> r == current
    {
      Obj(Spread(current), ObjectProto)
    }

    /** `updateState(partial, signal)`. */
    method UpdateState(partial: Value, signal: AbortController?) returns (r: Value)
      requires Valid()
      modifies this
      ensures Valid()
      ensures Snapshot() == Update(old(Snapshot()), partial, signal != null && signal.aborted)
      ensures signal != null && signal.aborted ==> current == old(current) && counter == old(counter)
      ensures Merged(old(current), partial) == old(current) ==> current == old(current) && counter == old(counter)
      ensures (signal == null || !signal.aborted) && Merged(old(current), partial) != old(current) ==>
                current == Merged(old(current), partial) && counter == old(counter) + 1
      ensures r == current
    {
      if signal != null && signal.aborted {
        return current;
      }
      var newState := Merged(current, partial);
      if newState == current {
        return current;
      }
      current := newState;
      counter := counter + 1;
      return newState;
    }

    /** The branch on the changer's result that both builds share. */
    method Launch(res: ChangerResult, controller: AbortController) returns (r: Result<Started, Thrown>)
      requires Valid()
      modifies this
      ensures Valid()
      ensures Launched(this, res, Some(controller), r)
    {
      var path := Classify(res);
      if path.Failure? {
        return Failure(path.error);
      }
      match path.value
      case Sequence(steps) =>
        r := Success(Started(controller, Pending(steps, controller)));
      case Deferred(resolved) =>
        r := Success(Started(controller, Pending([resolved], controller)));
      case Immediate(plain) =>
        var _ := UpdateState(plain, null);
        r := Success(Started(null, Settled));
    }

    /** `run(stateChanger, options)`: the controller is `options.aborter` when
        given, else a new one; the changer gets the snapshot and NO action
        argument. */
    method Run(changer: Changer, options: Option<RunOptions>) returns (r: Result<Started, Thrown>)
      requires Valid()
      modifies this
      ensures Valid()
      ensures Launched(this, changer(old(GetState()), Undefined), Aborter(options), r)
    {
      var controller: AbortController;
      if Aborter(options).Some? {
        controller := Aborter(options).value;
      } else {
        controller := new AbortController();
      }
      var res := changer(GetState(), Undefined);
      r := Launch(res, controller);
    }

    /** `pull`/`onYield`: every partial is merged in yield order under the one
        signal; the environment aborts the run just before the partial at
        `abortAt` (or after the last one, if `abortAt` is past the end). The
        generator is still pulled after the abort, but each later merge meets
        the abort gate, so only the live prefix reaches the cell. */
    method Drain(partials: seq<Value>, signal: AbortController, abortAt: Option<nat>)
      requires Valid()
      modifies this, signal
      ensures Valid()
      ensures Snapshot() == Gated(old(Snapshot()), partials, AbortFlags(old(signal.aborted), abortAt, |partials|))
      ensures Snapshot() == Feed(old(Snapshot()), partials[..Live(old(signal.aborted), abortAt, |partials|)])
      ensures signal.aborted == (old(signal.aborted) || abortAt.Some?)
    {
      ghost var start := Snapshot();
      ghost var abortedAtStart := signal.aborted;
      ghost var flags := AbortFlags(abortedAtStart, abortAt, |partials|);
      var i := 0;
      while i < |partials|
        invariant 0 <= i <= |partials|
        invariant Valid()
        invariant signal.aborted == (abortedAtStart || (abortAt.Some? && abortAt.value < i))
        invariant Snapshot() == Gated(start, partials[..i], flags[..i])
      {
        if abortAt == Some(i) {
          signal.Abort();
        }
        assert signal.aborted == flags[i];
        var _ := UpdateState(partials[i], signal);
        assert partials[..i + 1][..i] == partials[..i];
        assert flags[..i + 1][..i] == flags[..i];
        i := i + 1;
      }
      if abortAt.Some? && abortAt.value >= |partials| {
        signal.Abort();
      }
      assert partials[..|partials|] == partials && flags[..|partials|] == flags;
      DrainedFlags(abortedAtStart, abortAt, |partials|);
      GatedIsLivePrefix(start, partials, flags, Live(abortedAtStart, abortAt, |partials|));
    }
  }

  /** `useYield(initialState)`: the setup check, then a cell holding
      `initialState` with the counter at zero. */
  method Mount(initialState: Value) returns (r: Result<YieldCell, Thrown>)
    ensures r.Success? <==> AcceptsInitialState(initialState)
    ensures r.Failure? ==> r.error == Error(INITIAL_STATE_MESSAGE)
    ensures r.Success? ==> fresh(r.value) && r.value.Valid() && r.value.Snapshot() == CellState(initialState, 0)
  {
    if !AcceptsInitialState(initialState) {
      return Failure(Error(INITIAL_STATE_MESSAGE));
    }
    var cell := new YieldCell(initialState);
    return Success(cell);
  }

  function Posts(v: seq<Value>, u: seq<Value>): Value
  {
    Obj(map["posts" := Arr(v), "users" := Arr(u)], ObjectProto)
  }

  function FirstYield(): Value
  {
    Obj(map["posts" := Arr([Num(1), Num(2)])], ObjectProto)
  }

  function SecondYield(): Value
  {
    Obj(map["users" := Arr([Num(3)])], ObjectProto)
  }

  /** The merges of the example page's two-yield scenario
      (examples/UseYieldTest.jsx:22-36), with concrete lists: from
      `{posts: [], users: []}`, the yield `{posts: [1, 2]}` alone gives
      `{posts: [1, 2], users: []}` after one render, and followed by
      `{users: [3]}` gives `{posts: [1, 2], users: [3]}` after two. */
  lemma PostsThenUsersMerges()
    ensures Feed(CellState(Posts([], []), 0), [FirstYield()])
            == CellState(Posts([Num(1), Num(2)], []), 1)
    ensures Feed(CellState(Posts([], []), 0), [FirstYield(), SecondYield()])
            == CellState(Posts([Num(1), Num(2)], [Num(3)]), 2)
  {
    var s0 := CellState(Posts([], []), 0);
    var s1 := CellState(Posts([Num(1), Num(2)], []), 1);
    var s2 := CellState(Posts([Num(1), Num(2)], [Num(3)]), 2);
    assert Merged(s0.state, FirstYield()).fields == s1.state.fields;
    assert s1.state != s0.state by {
      assert s1.state.fields["posts"] != s0.state.fields["posts"];
    }
    assert Update(s0, FirstYield(), false) == s1;
    assert [FirstYield()][..0] == [];
    assert Merged(s1.state, SecondYield()).fields == s2.state.fields;
    assert s2.state != s1.state by {
      assert s2.state.fields["users"] != s1.state.fields["users"];
    }
    assert Update(s1, SecondYield(), false) == s2;
    assert [FirstYield(), SecondYield()][..1] == [FirstYield()];
  }

  /** The end-to-end scenario run through the cell: the generator is started
      by `run` and drained, either to the end or with the abort falling
      between its two yields. */
  method PostsThenUsers(abortBetween: bool) returns (finalState: Value, renders: nat)
    ensures finalState == Posts([Num(1), Num(2)], if abortBetween then [] else [Num(3)])
    ensures renders == if abortBetween then 1 else 2
  {
    var partials := [FirstYield(), SecondYield()];
    var cell := new YieldCell(Posts([], []));
    AsyncGeneratorStarts(partials, Undefined);
    var r := cell.Run(Generator(partials), None);
    var task := r.value.task;
    cell.Drain(task.partials, task.signal, if abortBetween then Some(1) else None);
    PostsThenUsersMerges();
    if abortBetween {
      assert partials[..1] == [FirstYield()];
    } else {
      assert partials[..2] == partials;
    }
    finalState, renders := cell.current, cell.counter;
  }

  /** A plain changer returning a pagination cursor `{next: "page2"}`: `run`
      takes it for a generator, calling its `next` throws a TypeError, and
      the record is left as it was. */
  method CursorThrows(initialState: Value) returns (r: Result<Started, Thrown>, before: CellState, after: CellState)
    requires AcceptsInitialState(initialState)
    ensures r == Failure(TypeError)
    ensures after == before
  {
    var cell := new YieldCell(initialState);
    before := cell.Snapshot();
    var cursor := Obj(map["next" := Str("page2")], ObjectProto);
    ThrowingShapes([], Undefined);
    r := cell.Run((getState, action) => ChangerResult(cursor, [], Undefined), None);
    after := cell.Snapshot();
  }
}
