/** The rules of the host framework that the bindings rely on. */
module ReactHooks {
  import opened JsValues

  /** When an effect over `deps` re-runs, and when `useCallback` hands out
      the function of the current render instead of the memoized one: on
      mount, on every render that gives no dependency list, and whenever the
      list differs from the one given at the previous render. */
  predicate DepsChanged(mounted: bool, previous: Option<seq<Value>>, deps: Option<seq<Value>>)
  {
    !mounted || deps.None? || previous != deps
  }

  /** When an effect whose only changing dependency is a memoized function
      re-runs: on mount, and whenever `useCallback` hands out a function of
      another identity than at the previous render. A function's identity is
      a number here. */
  predicate IdentityChanged(mounted: bool, previous: nat, current: nat)
  {
    !mounted || previous != current
  }
}
