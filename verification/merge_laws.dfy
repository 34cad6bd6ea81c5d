/** The merge discipline of the state cell of `useYield`, stated on values:
    one `updateState` call, a run of them in yield order, and the laws they
    obey (right-biased overwrite, suppression of no-op merges, the abort gate,
    idempotence, exact render counting). */
module MergeLaws {
  import opened JsValues

  /** The cell as the hook holds it: the stored record (`state.current`) and
      the render counter behind `setCounter`. The identity of `state.current`
      changes exactly when the counter rises, so the counter also stands for it. */
  datatype CellState = CellState(state: Value, renders: nat)

  /** `{ ...current, ...partial }`: a new plain object holding every key of
      `partial` with the partial's value and every other key of `current`
      with its old value. */
  function Merged(current: Value, partial: Value): (r: Value)
    ensures IsPlainObject(r)
    ensures r.fields.Keys == Spread(current).Keys + Spread(partial).Keys
    ensures forall k :: k in Spread(partial) ==> r.fields[k] == Spread(partial)[k]
    ensures forall k :: k in Spread(current) && k !in Spread(partial) ==> r.fields[k] == Spread(current)[k]
  {
    Obj(Spread(current) + Spread(partial), ObjectProto)
  }

  /** One `updateState(partial, signal)` call, `aborted` being
      `signal && signal.aborted`: an aborted call and a call whose merge
      deep-equals the stored record leave the cell alone; any other call
      replaces the record and counts one render. */
  function Update(c: CellState, partial: Value, aborted: bool): CellState
  {
    if aborted then c
    else
      var next := Merged(c.state, partial);
      if next == c.state then c else CellState(next, c.renders + 1)
  }

  /** A single call counts a render exactly when the record changes, and a
      live call leaves the record's entries overwritten by the partial's. */
  lemma UpdateLaws(c: CellState, partial: Value, aborted: bool)
    ensures Update(c, partial, aborted).renders
            == c.renders + (if Update(c, partial, aborted).state == c.state then 0 else 1)
    ensures !aborted ==> Spread(Update(c, partial, aborted).state) == Spread(c.state) + Spread(partial)
  {
  }

  /** Applying the same partial twice in a row: the second call is a no-op
      and counts no render. */
  lemma UpdateIdempotent(c: CellState, partial: Value)
    ensures Update(Update(c, partial, false), partial, false) == Update(c, partial, false)
  {
  }

  /** The partials a live run merges, applied in yield order. */
  function Feed(c: CellState, partials: seq<Value>): CellState
    decreases |partials|
  {
    if partials == [] then c
    else Update(Feed(c, partials[..|partials| - 1]), partials[|partials| - 1], false)
  }

  /** A record overwritten, in order, by the entries of each partial. */
  function Overlay(record: map<string, Value>, partials: seq<Value>): map<string, Value>
    decreases |partials|
  {
    if partials == [] then record
    else Overlay(record, partials[..|partials| - 1]) + Spread(partials[|partials| - 1])
  }

  /** One merge per partial, each under the abort flag its signal shows at
      that step: the `pull`/`onYield` loop as written, which keeps merging
      after an abort and leaves the refusal to `updateState`. */
  function Gated(c: CellState, partials: seq<Value>, aborted: seq<bool>): CellState
    requires |aborted| == |partials|
    decreases |partials|
  {
    if partials == [] then c
    else
      var n := |partials| - 1;
      Update(Gated(c, partials[..n], aborted[..n]), partials[n], aborted[n])
  }

  /** An abort flag read at successive steps: once set, it stays set. */
  predicate StaysAborted(aborted: seq<bool>)
  {
    forall i, j :: 0 <= i <= j < |aborted| && aborted[i] ==> aborted[j]
  }

  /** The flag a signal shows at each of `n` steps when it starts as
      `abortedAtStart` and the environment aborts it just before step
      `abortAt` (if any). */
  function AbortFlags(abortedAtStart: bool, abortAt: Option<nat>, n: nat): (flags: seq<bool>)
    ensures |flags| == n
  {
    seq(n, i => abortedAtStart || (abortAt.Some? && abortAt.value <= i))
  }

  /** How many leading steps of `n` see those flags clear. */
  function Live(abortedAtStart: bool, abortAt: Option<nat>, n: nat): (k: nat)
    ensures k <= n
  {
    if abortedAtStart then 0
    else match abortAt
      case None => n
      case Some(at) => if at < n then at else n
  }

  /** The abort gate: under a signal that stays aborted once aborted, merging
      every partial under its step's flag comes to merging, live, exactly the
      partials before the first aborted step; every later merge is a no-op. */
  lemma {:induction false} GatedIsLivePrefix(c: CellState, partials: seq<Value>, aborted: seq<bool>, k: nat)
    requires |aborted| == |partials| && StaysAborted(aborted)
    requires k <= |partials|
    requires forall i :: 0 <= i < k ==> !aborted[i]
    requires k < |partials| ==> aborted[k]
    ensures Gated(c, partials, aborted) == Feed(c, partials[..k])
    decreases |partials|
  {
    if partials != [] {
      var n := |partials| - 1;
      var prefix, flags := partials[..n], aborted[..n];
      assert StaysAborted(flags) by {
        forall i, j | 0 <= i <= j < |flags| && flags[i] ensures flags[j] {
          assert aborted[i] && flags[j] == aborted[j];
        }
      }
      if k == |partials| {
        GatedIsLivePrefix(c, prefix, flags, n);
        assert prefix[..n] == prefix;
        assert partials[..k] == partials;
        assert !aborted[n];
      } else {
        assert aborted[n];
        GatedIsLivePrefix(c, prefix, flags, k);
        assert prefix[..k] == partials[..k];
      }
    }
  }

  /** The live prefix of a drained run: the signal's flags stay set once set,
      and they are clear at exactly the first `Live` steps. */
  lemma DrainedFlags(abortedAtStart: bool, abortAt: Option<nat>, n: nat)
    ensures StaysAborted(AbortFlags(abortedAtStart, abortAt, n))
    ensures forall i :: 0 <= i < n ==> (AbortFlags(abortedAtStart, abortAt, n)[i] <==> i >= Live(abortedAtStart, abortAt, n))
  {
  }

  /** After a run of merges the stored record holds exactly the initial
      entries overwritten, in order, by every partial: whether a step
      replaced the record or was suppressed, no entry is lost or added. */
  lemma {:induction false} FeedRecord(c: CellState, partials: seq<Value>)
    ensures Spread(Feed(c, partials).state) == Overlay(Spread(c.state), partials)
  {
    if partials != [] {
      var prefix := partials[..|partials| - 1];
      FeedRecord(c, prefix);
      UpdateLaws(Feed(c, prefix), partials[|partials| - 1], false);
    }
  }

  /** A run of merges counts at most one render per partial, and a run that
      counted no render left the record untouched. */
  lemma {:induction false} FeedRenders(c: CellState, partials: seq<Value>)
    ensures c.renders <= Feed(c, partials).renders <= c.renders + |partials|
    ensures Feed(c, partials).renders == c.renders ==> Feed(c, partials).state == c.state
  {
    if partials != [] {
      var prefix := partials[..|partials| - 1];
      FeedRenders(c, prefix);
      UpdateLaws(Feed(c, prefix), partials[|partials| - 1], false);
    }
  }

  /** When every partial changes the record built so far, every merge
      renders: the count is exactly the number of partials. */
  lemma {:induction false} FeedCountsEveryChange(c: CellState, partials: seq<Value>)
    requires forall i :: 0 <= i < |partials| ==>
               Overlay(Spread(c.state), partials[..i + 1]) != Overlay(Spread(c.state), partials[..i])
    ensures Feed(c, partials).renders == c.renders + |partials|
  {
    if partials != [] {
      var n := |partials| - 1;
      var prefix := partials[..n];
      forall i | 0 <= i < |prefix|
        ensures Overlay(Spread(c.state), prefix[..i + 1]) != Overlay(Spread(c.state), prefix[..i])
      {
        assert prefix[..i + 1] == partials[..i + 1];
        assert prefix[..i] == partials[..i];
      }
      FeedCountsEveryChange(c, prefix);
      FeedRecord(c, prefix);
      assert partials[..n + 1] == partials;
      var before := Feed(c, prefix);
      var after := Merged(before.state, partials[n]);
      assert Spread(after) == Overlay(Spread(c.state), partials);
      assert Spread(before.state) == Overlay(Spread(c.state), partials[..n]);
      assert after != before.state;
    }
  }

  /** Merging `xs` and then `ys` is merging `xs + ys`: the runs of one
      generator compose in yield order. */
  lemma {:induction false} FeedAppend(c: CellState, xs: seq<Value>, ys: seq<Value>)
    ensures Feed(c, xs + ys) == Feed(Feed(c, xs), ys)
    decreases |ys|
  {
    if ys == [] {
      assert xs + ys == xs;
    } else {
      var n := |ys| - 1;
      FeedAppend(c, xs, ys[..n]);
      assert (xs + ys)[..|xs + ys| - 1] == xs + ys[..n];
    }
  }

  /** An entry that no partial mentions keeps its initial presence and value. */
  lemma {:induction false} OverlayKeepsUntouched(record: map<string, Value>, partials: seq<Value>, k: string)
    requires forall i :: 0 <= i < |partials| ==> k !in Spread(partials[i])
    ensures k in Overlay(record, partials) <==> k in record
    ensures k in record ==> Overlay(record, partials)[k] == record[k]
    decreases |partials|
  {
    if partials != [] {
      var prefix := partials[..|partials| - 1];
      forall i | 0 <= i < |prefix| ensures k !in Spread(prefix[i]) {
        assert prefix[i] == partials[i];
      }
      OverlayKeepsUntouched(record, prefix, k);
      assert k !in Spread(partials[|partials| - 1]);
    }
  }
}
