/** `useYieldReducer(stateChanger, deps, initialState)` (src/useYieldReducer.mjs):
    a one-slot register for the pending action and a dispatch counter beside
    the memoized changer. `dispatch` stores the raw action and bumps the
    counter; the effect, which re-runs when the memoized changer or the
    counter changes, aborts the previous run, copies the pending action into
    `options.action`, starts a run and then clears the slot. */
module UseYieldReducer {
  import opened JsValues
  import opened MergeLaws
  import opened UseYield
  import opened ReactHooks

  const COPY_ERROR_PREFIX := "useYieldReducer can't use this type of action: "

  /** The kinds of action `copy` accepts: null, booleans, strings, numbers,
      undefined, arrays and every object whose prototype chain reaches
      `Object.prototype` (class instances included). */
  predicate Copyable(v: Value)
  {
    v.Null? || v.Bool? || v.Str? || v.Num? || v.Undefined? || v.Arr? || (v.Obj? && !v.proto.NullProto?)
  }

  /** `copy(val)`: primitives and null come back as they are, an array as a
      new array of the same elements in order, an object as a new plain
      object with the same own entries; functions, symbols, bigints and
      null-prototype objects throw, naming their `typeof`. */
  function Copy(v: Value): (r: Result<Value, Thrown>)
    ensures r.Success? <==> Copyable(v)
    ensures r.Failure? ==> r.error == Error(COPY_ERROR_PREFIX + TypeOf(v))
    ensures r.Success? && !v.Obj? ==> r.value == v
    ensures r.Success? && v.Obj? ==> IsPlainObject(r.value) && r.value.fields == v.fields
  {
    if v.Null? then Success(Null)
    else if TypeOf(v) in ["boolean", "string", "number", "undefined"] then Success(v)
    else if TypeOf(v) == "object" && v.Arr? then Success(Arr(v.elems))
    else if TypeOf(v) == "object" && InstanceOfObject(v) then Success(Obj(Spread(v), ObjectProto))
    else Failure(Error(COPY_ERROR_PREFIX + TypeOf(v)))
  }

  /** A copy is copyable again and copying it changes nothing more, and it
      has the same own entries as the original. */
  lemma CopyIsStable(v: Value)
    requires Copyable(v)
    ensures Copy(Copy(v).value) == Copy(v)
    ensures Spread(Copy(v).value) == Spread(v)
  {
  }

  class ReducerBinding {
    const cell: YieldCell
    var pending: Value                 // action.current
    var dispatchCount: nat
    var memo: Option<Changer>          // useCallback(stateChanger, deps)
    var memoId: nat                    // the identity of the memoized function
    var mounted: bool
    var lastDeps: Option<seq<Value>>   // the deps given at the previous render
    var lastCount: nat                 // the dispatch count the effect last saw
    var held: AbortController?         // the controller the registered cleanup aborts

    ghost predicate Valid()
      reads this, cell
    {
      cell.Valid() && (mounted ==> memo.Some?)
    }

    /** The slot starts as undefined and the counter at zero. */
    constructor (cell: YieldCell)
      requires cell.Valid()
      ensures Valid() && this.cell == cell
      ensures !mounted && memo.None? && held == null
      ensures pending == Undefined && dispatchCount == 0
    {
      this.cell := cell;
      pending := Undefined;
      dispatchCount := 0;
      memo := None;
      memoId := 0;
      mounted := false;
      lastDeps := None;
      lastCount := 0;
      held := null;
    }

    /** The identity of the function `useCallback` hands out at a render
        that passes the changer `changerId` with these deps. */
    function NextMemoId(changerId: nat, deps: Option<seq<Value>>): nat
      reads this
    {
      if DepsChanged(mounted, lastDeps, deps) then changerId else memoId
    }

    /** Whether the effect runs at the next commit: the memoized function's
        identity or the dispatch count changed. */
    predicate EffectDue(changerId: nat, deps: Option<seq<Value>>)
      reads this
    {
      IdentityChanged(mounted, memoId, NextMemoId(changerId, deps)) || dispatchCount != lastCount
    }

    /** `dispatch(action)`: the raw action overwrites the slot (an earlier,
        undelivered one is lost) and the counter rises by one; nothing is
        copied, checked or thrown here. */
    method Dispatch(action: Value)
      modifies this
      ensures pending == action && dispatchCount == old(dispatchCount) + 1
      ensures memo == old(memo) && memoId == old(memoId) && mounted == old(mounted) && lastDeps == old(lastDeps)
      ensures lastCount == old(lastCount) && held == old(held)
    {
      pending := action;
      dispatchCount := dispatchCount + 1;
    }

    /** One render and its commit, `changerId` being the identity of the
        changer this render passes. When the effect is due, the previous
        cleanup aborts its controller, the pending action is copied (a copy
        that throws leaves the slot as it was and starts nothing), the
        memoized changer is run with the copy as `options.action`, and only
        then is the slot reset to undefined. `read` is the copy handed to
        `run`. */
    method Render(changer: Changer, changerId: nat, deps: Option<seq<Value>>)
      returns (state: Value, ran: Option<Result<Started, Thrown>>, read: Option<Value>)
      requires Valid()
      modifies this, cell, held
      ensures Valid() && mounted && lastDeps == deps && lastCount == dispatchCount
      ensures dispatchCount == old(dispatchCount)
      ensures state == old(cell.current)
      ensures DepsChanged(old(mounted), old(lastDeps), deps) ==> memo == Some(changer) && memoId == changerId
      ensures !DepsChanged(old(mounted), old(lastDeps), deps) ==> memo == old(memo) && memoId == old(memoId)
      ensures ran.Some? <==> old(EffectDue(changerId, deps))
      ensures ran.None? ==> read.None? && pending == old(pending) && held == old(held)
                            && cell.Snapshot() == old(cell.Snapshot())
      ensures ran.None? && held != null ==> held.aborted == old(held.aborted)
      ensures ran.Some? && old(held) != null ==> old(held).aborted
      ensures ran.Some? && !Copyable(old(pending)) ==>
                && ran.value == Failure(Copy(old(pending)).error) && read.None?
                && pending == old(pending) && held == null && cell.Snapshot() == old(cell.Snapshot())
      ensures ran.Some? && Copyable(old(pending)) ==>
                && read == Some(Copy(old(pending)).value)
                && Launched(cell, memo.value(old(cell.GetState()), Undefined), None, ran.value)
                && pending == (if ran.value.Success? then Undefined else old(pending))
                && held == (if ran.value.Success? then ran.value.value.controller else null)
    {
      state := cell.current;
      var due := EffectDue(changerId, deps);
      if DepsChanged(mounted, lastDeps, deps) {
        memo, memoId := Some(changer), changerId;
      }
      mounted, lastDeps, lastCount := true, deps, dispatchCount;
      if !due {
        return state, None, None;
      }
      if held != null {
        held.Abort();
      }
      held := null;
      var copied := Copy(pending);
      if copied.Failure? {
        return state, Some(Failure(copied.error)), None;
      }
      read := Some(copied.value);
      var r := cell.Run(memo.value, Some(RunOptions(None, None, copied.value)));
      ran := Some(r);
      if r.Success? {
        pending := Undefined;
        held := r.value.controller;
      }
    }

    /** Unmounting runs the registered cleanup. */
    method Teardown()
      modifies held
      ensures held != null ==> held.aborted
    {
      if held != null {
        held.Abort();
      }
    }
  }

  /** `useYieldReducer` on mount: the setup check of `useYield`, then the binding. */
  method Mount(initialState: Value) returns (r: Result<ReducerBinding, Thrown>)
    ensures r.Success? <==> AcceptsInitialState(initialState)
    ensures r.Failure? ==> r.error == Error(INITIAL_STATE_MESSAGE)
    ensures r.Success? ==> fresh(r.value) && r.value.Valid() && !r.value.mounted
                           && r.value.pending == Undefined && r.value.cell.Snapshot() == CellState(initialState, 0)
  {
    var cell := UseYield.Mount(initialState);
    if cell.Failure? {
      return Failure(cell.error);
    }
    var binding := new ReducerBinding(cell.value);
    return Success(binding);
  }

  /** The life of a dispatched action. The mount run reads undefined. Two
      dispatches before the next commit cause one run, which reads a copy of
      the later action only. A render with nothing new runs nothing. A run
      caused by a deps change alone reads undefined again: the action was
      read at most once. A copy that throws surfaces in the effect, never in
      `dispatch`, and leaves the slot uncleared, so an effect run after it
      would read the same action again. */
  method DispatchIsReadOnce(initialState: Value, earlier: Value, action: Value, deps: seq<Value>, newDeps: seq<Value>)
    returns (atMount: Option<Value>, afterDispatch: Option<Value>, idle: bool, afterDepsChange: Option<Value>)
    requires AcceptsInitialState(initialState)
    requires deps != newDeps
    ensures atMount == Some(Undefined)
    ensures afterDispatch == if Copyable(action) then Some(Copy(action).value) else None
    ensures idle
    ensures afterDepsChange == if Copyable(action) then Some(Undefined) else None
  {
    var cell := new YieldCell(initialState);
    var binding := new ReducerBinding(cell);
    var changer := Generator([]);
    var _, _, read := binding.Render(changer, 1, Some(deps));
    atMount := read;
    binding.Dispatch(earlier);
    binding.Dispatch(action);
    var _, _, second := binding.Render(changer, 1, Some(deps));
    afterDispatch := second;
    var _, third, _ := binding.Render(changer, 1, Some(deps));
    idle := third.None?;
    var _, _, fourth := binding.Render(Generator([]), 2, Some(newDeps));
    afterDepsChange := fourth;
  }

  /** As written, the source `run` never passes `options.action` on: a
      changer that stores the action it receives stores undefined, whatever
      was dispatched. */
  method DispatchedActionNeverReachesChanger(initialState: Value, action: Value, deps: seq<Value>)
    returns (stored: Value)
    requires AcceptsInitialState(initialState)
    requires Copyable(action)
    ensures stored == Undefined
  {
    var cell := new YieldCell(initialState);
    var binding := new ReducerBinding(cell);
    var echo: Changer := (getState, act) => ChangerResult(ASYNC_GENERATOR, [Obj(map["action" := act], ObjectProto)], Undefined);
    AsyncGeneratorStarts([Obj(map["action" := Undefined], ObjectProto)], Undefined);
    var _, _, _ := binding.Render(echo, 1, Some(deps));
    binding.Dispatch(action);
    var _, ran, read := binding.Render(echo, 1, Some(deps));
    var task := ran.value.value.task;
    cell.Drain(task.partials, task.signal, None);
    assert task.partials[..1] == task.partials;
    stored := cell.current.fields["action"];
  }
}
