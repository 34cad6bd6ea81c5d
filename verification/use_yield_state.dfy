/** `useYieldState(stateChanger, deps, initialState)` (src/useYieldState.mjs):
    the changer is memoized on the caller's deps, an effect that depends only
    on `run` and that memoized changer starts a run without options, and its
    cleanup aborts that run's controller. Only the state record is returned. */
module UseYieldState {
  import opened JsValues
  import opened MergeLaws
  import opened UseYield
  import opened ReactHooks

  class StateBinding {
    const cell: YieldCell
    var memo: Option<Changer>          // useCallback(stateChanger, deps)
    var memoId: nat                    // the identity of the memoized function
    var mounted: bool
    var lastDeps: Option<seq<Value>>   // the deps given at the previous render
    var held: AbortController?         // the controller the registered cleanup aborts

    ghost predicate Valid()
      reads this, cell
    {
      cell.Valid() && (mounted ==> memo.Some?)
    }

    constructor (cell: YieldCell)
      requires cell.Valid()
      ensures Valid() && this.cell == cell
      ensures !mounted && memo.None? && held == null
    {
      this.cell := cell;
      memo := None;
      memoId := 0;
      mounted := false;
      lastDeps := None;
      held := null;
    }

    /** One render and its commit, `changerId` being the identity of the
        changer this render passes. The render returns the stored record as
        it stands; when the deps changed, `useCallback` hands out this
        render's changer. The effect runs on mount and whenever the memoized
        function's identity changed: the previous run's controller is
        aborted (a null one, left by a plain changer, is skipped) and a new
        run starts with a fresh controller, which the new cleanup holds.
        Otherwise nothing changes, so a changer of stable identity is not
        restarted by new deps. */
    method Render(changer: Changer, changerId: nat, deps: Option<seq<Value>>)
      returns (state: Value, ran: Option<Result<Started, Thrown>>)
      requires Valid()
      modifies this, cell, held
      ensures Valid() && mounted && lastDeps == deps
      ensures state == old(cell.current)
      ensures DepsChanged(old(mounted), old(lastDeps), deps) ==> memo == Some(changer) && memoId == changerId
      ensures !DepsChanged(old(mounted), old(lastDeps), deps) ==> memo == old(memo) && memoId == old(memoId)
      ensures ran.Some? <==> IdentityChanged(old(mounted), old(memoId), memoId)
      ensures ran.None? ==> held == old(held) && cell.Snapshot() == old(cell.Snapshot())
      ensures ran.None? && held != null ==> held.aborted == old(held.aborted)
      ensures ran.Some? && old(held) != null ==> old(held).aborted
      ensures ran.Some? ==> Launched(cell, changer(old(cell.GetState()), Undefined), None, ran.value)
      ensures ran.Some? ==> held == if ran.value.Success? then ran.value.value.controller else null
    {
      state := cell.current;
      var previousId := memoId;
      if DepsChanged(mounted, lastDeps, deps) {
        memo, memoId := Some(changer), changerId;
      }
      var due := IdentityChanged(mounted, previousId, memoId);
      mounted, lastDeps := true, deps;
      if !due {
        return state, None;
      }
      if held != null {
        held.Abort();
      }
      held := null;
      var r := cell.Run(memo.value, None);
      ran := Some(r);
      if r.Success? {
        held := r.value.controller;
      }
    }

    /** Unmounting runs the registered cleanup. */
    method Teardown()
      modifies held
      ensures held != null ==> held.aborted
    {
      if held != null {
        held.Abort();
      }
    }
  }

  /** `useYieldState` on mount: the setup check of `useYield`, then the binding. */
  method Mount(initialState: Value) returns (r: Result<StateBinding, Thrown>)
    ensures r.Success? <==> AcceptsInitialState(initialState)
    ensures r.Failure? ==> r.error == Error(INITIAL_STATE_MESSAGE)
    ensures r.Success? ==> fresh(r.value) && r.value.Valid() && !r.value.mounted
                           && r.value.cell.Snapshot() == CellState(initialState, 0)
  {
    var cell := UseYield.Mount(initialState);
    if cell.Failure? {
      return Failure(cell.error);
    }
    var binding := new StateBinding(cell.value);
    return Success(binding);
  }

  /** A superseded run cannot write: a generator started for the first deps
      is aborted when the deps change and a new changer is passed, so
      whatever it still yields afterwards leaves the record and the render
      count as they were. */
  method SupersededRunIsSilenced(initialState: Value, first: seq<Value>, second: seq<Value>, deps: seq<Value>, newDeps: seq<Value>)
    returns (before: CellState, after: CellState)
    requires AcceptsInitialState(initialState)
    requires deps != newDeps
    ensures after == before
  {
    var cell := new YieldCell(initialState);
    var binding := new StateBinding(cell);
    AsyncGeneratorStarts(first, Undefined);
    AsyncGeneratorStarts(second, Undefined);
    var _, ranFirst := binding.Render(Generator(first), 1, Some(deps));
    var stale := ranFirst.value.value.task;
    var _, ranSecond := binding.Render(Generator(second), 2, Some(newDeps));
    before := cell.Snapshot();
    cell.Drain(stale.partials, stale.signal, None);
    after := cell.Snapshot();
  }

  /** New deps alone do not restart a changer of stable identity (a
      module-level function, or one the caller memoized): `useCallback` hands
      out the same function, so the effect does not re-run and the first
      run goes on. A changer of another identity with the same new deps does
      restart it. */
  method StableChangerIsNotRestarted(initialState: Value, steps: seq<Value>, deps: seq<Value>, newDeps: seq<Value>, newerDeps: seq<Value>)
    returns (sameRestarted: bool, firstStillLive: bool, otherRestarted: bool)
    requires AcceptsInitialState(initialState)
    requires deps != newDeps && newDeps != newerDeps
    ensures !sameRestarted && firstStillLive && otherRestarted
  {
    var cell := new YieldCell(initialState);
    var binding := new StateBinding(cell);
    AsyncGeneratorStarts(steps, Undefined);
    var _, first := binding.Render(Generator(steps), 1, Some(deps));
    var controller := first.value.value.controller;
    var _, same := binding.Render(Generator(steps), 1, Some(newDeps));
    sameRestarted, firstStillLive := same.Some?, !controller.aborted;
    var _, other := binding.Render(Generator(steps), 2, Some(newerDeps));
    otherRestarted := other.Some?;
  }
}
