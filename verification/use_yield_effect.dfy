/** `useYieldEffect(initialState, stateChanger, deps)` (src/useYieldEffect.mjs):
    an effect over exactly the caller's deps calls `run(stateChanger)` with no
    options and no memoization, and its cleanup aborts the controller of the
    run it started. Only the state record is returned. */
module UseYieldEffect {
  import opened JsValues
  import opened MergeLaws
  import opened UseYield
  import opened ReactHooks

  class EffectBinding {
    const cell: YieldCell
    var mounted: bool
    var lastDeps: Option<seq<Value>>   // the deps given at the previous render
    var held: AbortController?         // the controller the registered cleanup aborts

    ghost predicate Valid()
      reads this, cell
    {
      cell.Valid()
    }

    constructor (cell: YieldCell)
      requires cell.Valid()
      ensures Valid() && this.cell == cell
      ensures !mounted && held == null
    {
      this.cell := cell;
      mounted := false;
      lastDeps := None;
      held := null;
    }

    /** One render and its commit: when the deps changed, the previous
        cleanup aborts its controller and the changer of THIS render is run
        with a fresh controller; otherwise nothing changes. */
    method Render(changer: Changer, deps: Option<seq<Value>>) returns (state: Value, ran: Option<Result<Started, Thrown>>)
      requires Valid()
      modifies this, cell, held
      ensures Valid() && mounted && lastDeps == deps
      ensures state == old(cell.current)
      ensures ran.Some? <==> DepsChanged(old(mounted), old(lastDeps), deps)
      ensures ran.None? ==> held == old(held) && cell.Snapshot() == old(cell.Snapshot())
      ensures ran.None? && held != null ==> held.aborted == old(held.aborted)
      ensures ran.Some? && old(held) != null ==> old(held).aborted
      ensures ran.Some? ==> Launched(cell, changer(old(cell.GetState()), Undefined), None, ran.value)
      ensures ran.Some? ==> held == if ran.value.Success? then ran.value.value.controller else null
    {
      state := cell.current;
      var changed := DepsChanged(mounted, lastDeps, deps);
      mounted, lastDeps := true, deps;
      if !changed {
        return state, None;
      }
      if held != null {
        held.Abort();
      }
      held := null;
      var r := cell.Run(changer, None);
      ran := Some(r);
      if r.Success? {
        held := r.value.controller;
      }
    }

    /** Unmounting runs the registered cleanup. */
    method Teardown()
      modifies held
      ensures held != null ==> held.aborted
    {
      if held != null {
        held.Abort();
      }
    }
  }

  /** `useYieldEffect` on mount: the setup check of `useYield`, then the binding. */
  method Mount(initialState: Value) returns (r: Result<EffectBinding, Thrown>)
    ensures r.Success? <==> AcceptsInitialState(initialState)
    ensures r.Failure? ==> r.error == Error(INITIAL_STATE_MESSAGE)
    ensures r.Success? ==> fresh(r.value) && r.value.Valid() && !r.value.mounted
                           && r.value.cell.Snapshot() == CellState(initialState, 0)
  {
    var cell := UseYield.Mount(initialState);
    if cell.Failure? {
      return Failure(cell.error);
    }
    var binding := new EffectBinding(cell.value);
    return Success(binding);
  }

  /** Without a dependency list the effect runs on every render, each run
      aborting the one before; a generator stopped by unmounting merges
      nothing more. */
  method EveryRenderRestarts(initialState: Value, steps: seq<Value>)
    returns (firstRan: bool, secondRan: bool, firstAborted: bool, before: CellState, after: CellState)
    requires AcceptsInitialState(initialState)
    ensures firstRan && secondRan && firstAborted
    ensures after == before
  {
    var cell := new YieldCell(initialState);
    var binding := new EffectBinding(cell);
    var _, first := binding.Render(Generator(steps), None);
    var firstTask := first.value.value.task;
    var _, second := binding.Render(Generator(steps), None);
    var secondTask := second.value.value.task;
    firstRan, secondRan, firstAborted := first.Some?, second.Some?, firstTask.signal.aborted;
    binding.Teardown();
    before := cell.Snapshot();
    cell.Drain(secondTask.partials, secondTask.signal, None);
    after := cell.Snapshot();
  }
}
