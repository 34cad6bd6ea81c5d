/** The compiled `useYield` shipped in lib/useYield.js. Its setup check and its
    `updateState` are those of the source (only the setup message differs), so
    it shares the cell of module UseYield; its `run` differs: it takes the
    controller from `options.abortable`, passes `options.action` to the
    changer, and dereferences `options` without a guard. */
module LibUseYield {
  import opened JsValues
  import opened MergeLaws
  import opened UseYield

  const LIB_INITIAL_STATE_MESSAGE := "useYield only accepts object as initialState"

  /** The compiled setup: the same check as the source, its own message. */
  method Mount(initialState: Value) returns (r: Result<YieldCell, Thrown>)
    ensures r.Success? <==> AcceptsInitialState(initialState)
    ensures r.Failure? ==> r.error == Error(LIB_INITIAL_STATE_MESSAGE)
    ensures r.Success? ==> fresh(r.value) && r.value.Valid() && r.value.Snapshot() == CellState(initialState, 0)
  {
    if !AcceptsInitialState(initialState) {
      return Failure(Error(LIB_INITIAL_STATE_MESSAGE));
    }
    var cell := new YieldCell(initialState);
    return Success(cell);
  }

  /** `options?.abortable`. */
  function Abortable(options: Option<RunOptions>): Option<AbortController>
  {
    if options.Some? then options.value.abortable else None
  }

  /** The compiled `run`: without options it throws a TypeError before the
      changer can touch the cell; with options the changer receives
      `options.action` and the controller is `options.abortable` or a new one. */
  method LibRun(cell: YieldCell, changer: Changer, options: Option<RunOptions>) returns (r: Result<Started, Thrown>)
    requires cell.Valid()
    modifies cell
    ensures cell.Valid()
    ensures options.None? ==> r == Failure(TypeError) && cell.Snapshot() == old(cell.Snapshot())
    ensures options.Some? ==>
              Launched(cell, changer(old(cell.GetState()), options.value.action), Abortable(options), r)
  {
    var controller: AbortController;
    if Abortable(options).Some? {
      controller := Abortable(options).value;
    } else {
      controller := new AbortController();
    }
    if options.None? {
      return Failure(TypeError);
    }
    var res := changer(cell.GetState(), options.value.action);
    r := cell.Launch(res, controller);
  }

  /** A changer that yields, as its one partial, the action it was given. */
  function EchoAction(): Changer
  {
    (getState, action) => ChangerResult(ASYNC_GENERATOR, [Obj(map["action" := action], ObjectProto)], Undefined)
  }

  /** The two builds side by side on one action: the compiled `run` hands the
      action to the changer, the source `run` hands it `undefined`, so a
      changer that stores its action leaves `action` in the record as given
      by the compiled build and as `undefined` by the source. Called without
      options, only the compiled `run` throws. */
  method ActionReachesChangerOnlyInLib(initialState: Value, action: Value)
    returns (fromLib: Value, fromSrc: Value, libWithoutOptions: Result<Started, Thrown>)
    requires AcceptsInitialState(initialState)
    ensures fromLib.Obj? && "action" in fromLib.fields && fromLib.fields["action"] == action
    ensures fromSrc.Obj? && "action" in fromSrc.fields && fromSrc.fields["action"] == Undefined
    ensures libWithoutOptions == Failure(TypeError)
  {
    var options := Some(RunOptions(None, None, action));
    AsyncGeneratorStarts([Obj(map["action" := action], ObjectProto)], Undefined);
    AsyncGeneratorStarts([Obj(map["action" := Undefined], ObjectProto)], Undefined);

    var libCell := new YieldCell(initialState);
    var r := LibRun(libCell, EchoAction(), options);
    var task := r.value.task;
    libCell.Drain(task.partials, task.signal, None);
    assert task.partials[..1] == task.partials;
    fromLib := libCell.current;

    var srcCell := new YieldCell(initialState);
    r := srcCell.Run(EchoAction(), options);
    task := r.value.task;
    srcCell.Drain(task.partials, task.signal, None);
    assert task.partials[..1] == task.partials;
    fromSrc := srcCell.current;

    libWithoutOptions := LibRun(libCell, EchoAction(), None);
  }

  /** Options naming an `aborter`: the source reuses it as the run's
      controller, the compiled build (which looks for `abortable`) ignores
      it and makes a new, live controller. */
  method AborterIgnoredByLib(initialState: Value, steps: seq<Value>, aborter: AbortController)
    returns (fromSrc: AbortController?, fromLib: AbortController?)
    requires AcceptsInitialState(initialState)
    ensures fromSrc == aborter
    ensures fromLib != null && fromLib != aborter && !fromLib.aborted
  {
    var options := Some(RunOptions(Some(aborter), None, Undefined));
    var srcCell := new YieldCell(initialState);
    var r := srcCell.Run(Generator(steps), options);
    fromSrc := r.value.controller;
    var libCell := new YieldCell(initialState);
    r := LibRun(libCell, Generator(steps), options);
    fromLib := r.value.controller;
  }
}
