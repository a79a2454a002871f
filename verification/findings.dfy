/**
 * An accepted event without a target runs the observers, exit and the
 * reducer, and then throws the computed context away: the context is only
 * stored inside the branch for a truthy target. The repository's own guard
 * test counts with exactly such events and expects the count to change. This
 * module shows the discrepancy on that counter and gives the corrected
 * send, which commits the context of an internal transition.
 */
module Findings {
  import opened Wrappers
  import opened Definition
  import opened Engine
  import opened Runs

  /** No event of any state names a truthy target. */
  ghost predicate Targetless<C, P>(m: Machine<C, P>) {
    forall s, e :: s in m.cfg.states && e in m.cfg.states[s].on ==> !Truthy(m.cfg.states[s].on[e].target)
  }

  /** As written, a machine whose events all lack targets never changes its controller. */
  lemma {:induction false} TargetlessNeverChanges<C, P>(m: Machine<C, P>, c: Controller<C>, inputs: seq<Input<P>>)
    requires Targetless(m)
    ensures Run(m, c, inputs) == c
    decreases |inputs|
  {
    if inputs != [] {
      var evt := inputs[0].evt;
      if Accepted(m, c, evt) {
        assert !Truthy(m.cfg.states[c.current.value].on[evt].target);
      }
      TargetlessNeverChanges(m, c, inputs[1..]);
    }
  }

  /** The counter of the guard test: INCREMENT up to 5, DECREMENT down to 0, no targets. */
  function CounterMachine(): Machine<int, int> {
    var cfg := Config(
      0,
      ["idle"],
      map["idle" := StateConfig(None, None,
        map[
          "INCREMENT" := EventConfig(None, Some((n: int) => n < 5), Some((n: int, p: Option<int>) => n + 1)),
          "DECREMENT" := EventConfig(None, Some((n: int) => n > 0), Some((n: int, p: Option<int>) => n - 1))
        ],
        None)]);
    NewMachine(cfg)
  }

  const Inc: Input<int> := Input("INCREMENT", None)
  const Dec: Input<int> := Input("DECREMENT", None)

  function Repeat<P>(input: Input<P>, k: nat): (r: seq<Input<P>>)
    ensures |r| == k && forall i :: 0 <= i < k ==> r[i] == input
  {
    seq(k, i => input)
  }

  /** As written, six INCREMENTs leave the count at 0 although the first one is accepted. */
  lemma ReducerResultDiscarded()
    ensures var m := CounterMachine();
            && Accepted(m, Start(m), "INCREMENT")
            && Run(m, Start(m), Repeat(Inc, 6)).context == 0
  {
    TargetlessNeverChanges(CounterMachine(), Start(CounterMachine()), Repeat(Inc, 6));
  }

  /** `send` with the evidently intended treatment of internal transitions. */
  function SendIntended<C, P>(m: Machine<C, P>, c: Controller<C>, evt: string, payload: Option<P>): (r: SendResult<C, P>)
    // an internal transition commits exit-then-reducer of the context and keeps state, previous state and history
    ensures Accepted(m, c, evt) && !Truthy(Handler(m, c, evt).value.target) ==>
              var h := Handler(m, c, evt).value;
              && r.Done?
              && r.ctl.current == c.current
              && r.ctl.previous == c.previous
              && r.ctl.hist == c.hist
              && r.ctl.context == Reduce(h.reducer, Apply(m.cfg.states[c.current.value].exit, c.context), payload)
              && r.calls == Send(m, c, evt, payload).calls
    // every other send behaves as the code does
    ensures !(Accepted(m, c, evt) && !Truthy(Handler(m, c, evt).value.target)) ==> r == Send(m, c, evt, payload)
  {
    if !KnownState(m, c) then Thrown(CurrentStateMissing(c.current), [])
    else
      var cur := c.current.value;
      var state := m.cfg.states[cur];
      if evt !in state.on then Done(c, [])
      else
        var event := state.on[evt];
        if !Allows(event.guard, c.context) then Done(c, [])
        else
          var calls := Notify(m.mw, evt, c.context, payload);
          var ctx := Reduce(event.reducer, Apply(state.exit, c.context), payload);
          if !Truthy(event.target) then Done(c.(context := ctx), calls)
          else if event.target.value !in m.cfg.states then Thrown(TargetStateMissing(event.target.value), calls)
          else
            var next := Apply(m.cfg.states[event.target.value].entry, ctx);
            Done(Controller(event.target, next, c.current, c.hist + [Entry(cur, c.context)]), calls)
  }

  function StepIntended<C, P>(m: Machine<C, P>, c: Controller<C>, input: Input<P>): Controller<C> {
    After(SendIntended(m, c, input.evt, input.payload), c)
  }

  function RunIntended<C, P>(m: Machine<C, P>, c: Controller<C>, inputs: seq<Input<P>>): Controller<C>
    decreases |inputs|
  {
    if inputs == [] then c
    else RunIntended(m, StepIntended(m, c, inputs[0]), inputs[1..])
  }

  /** The history entries of the inputs that commit a transition under the corrected send. */
  function CommittedIntended<C, P>(m: Machine<C, P>, c: Controller<C>, inputs: seq<Input<P>>): seq<Entry<C>>
    decreases |inputs|
  {
    if inputs == [] then []
    else
      (if Commits(m, c, inputs[0].evt) then [Entry(c.current.value, c.context)] else [])
      + CommittedIntended(m, StepIntended(m, c, inputs[0]), inputs[1..])
  }

  /** Every event of every state names a truthy target. */
  ghost predicate AllTargeted<C, P>(m: Machine<C, P>) {
    forall s, e :: s in m.cfg.states && e in m.cfg.states[s].on ==> Truthy(m.cfg.states[s].on[e].target)
  }

  /** On a machine whose events all have targets the correction changes nothing. */
  lemma {:induction false} IntendedAgreesWhenTargeted<C, P>(m: Machine<C, P>, c: Controller<C>, inputs: seq<Input<P>>)
    requires AllTargeted(m)
    ensures RunIntended(m, c, inputs) == Run(m, c, inputs)
    decreases |inputs|
  {
    if inputs != [] {
      IntendedAgreesWhenTargeted(m, Step(m, c, inputs[0]), inputs[1..]);
    }
  }

  /** Under the corrected send too, history grows only by one entry per committed transition. */
  lemma {:induction false} IntendedHistoryAfterRun<C, P>(m: Machine<C, P>, c: Controller<C>, inputs: seq<Input<P>>)
    ensures GetHistory(RunIntended(m, c, inputs)) == GetHistory(c) + CommittedIntended(m, c, inputs)
    decreases |inputs|
  {
    if inputs != [] {
      var c' := StepIntended(m, c, inputs[0]);
      IntendedHistoryAfterRun(m, c', inputs[1..]);
      assert c'.hist == c.hist + (if Commits(m, c, inputs[0].evt) then [Entry(c.current.value, c.context)] else []);
    }
  }

  /** The corrected send keeps the controller path-shaped. */
  lemma IntendedKeepsPath<C, P>(m: Machine<C, P>, c: Controller<C>, evt: string, payload: Option<P>)
    requires PathShaped(m, c)
    ensures PathShaped(m, After(SendIntended(m, c, evt, payload), c))
  {
  }

  /** Every controller reachable by corrected sends from a path-shaped one is path-shaped. */
  lemma {:induction false} RunIntendedKeepsPath<C, P>(m: Machine<C, P>, c: Controller<C>, inputs: seq<Input<P>>)
    requires PathShaped(m, c)
    ensures PathShaped(m, RunIntended(m, c, inputs))
    decreases |inputs|
  {
    if inputs != [] {
      IntendedKeepsPath(m, c, inputs[0].evt, inputs[0].payload);
      RunIntendedKeepsPath(m, StepIntended(m, c, inputs[0]), inputs[1..]);
    }
  }

  /**
   * The correction gives up the part of the invariant that only the code as
   * written keeps: one INCREMENT changes the context with the history still empty.
   */
  lemma IntendedLeavesInitialContext()
    ensures var m := CounterMachine();
            var c := StepIntended(m, Start(m), Inc);
            && PathShaped(m, c)
            && c.hist == []
            && c.context == 1
            && !Coherent(m, c)
  {
  }

  lemma {:induction false} RunIntendedAppend<C, P>(m: Machine<C, P>, c: Controller<C>, a: seq<Input<P>>, b: seq<Input<P>>)
    ensures RunIntended(m, c, a + b) == RunIntended(m, RunIntended(m, c, a), b)
    decreases |a|
  {
    if a != [] {
      assert (a + b)[0] == a[0] && (a + b)[1..] == a[1..] + b;
      RunIntendedAppend(m, StepIntended(m, c, a[0]), a[1..], b);
    } else {
      assert a + b == b;
    }
  }

  /** The idle counter holding `n`, with the history of a fresh store. */
  function Idle(n: int): Controller<int> {
    Controller(Some("idle"), n, None, [])
  }

  /** Corrected: INCREMENT counts up and its guard stops the count at 5. */
  lemma {:induction false} IncrementsSaturate(n: int, k: nat)
    requires 0 <= n <= 5
    ensures RunIntended(CounterMachine(), Idle(n), Repeat(Inc, k)) == Idle(if n + k < 5 then n + k else 5)
    decreases k
  {
    if k > 0 {
      var m := CounterMachine();
      var next := if n < 5 then n + 1 else n;
      assert StepIntended(m, Idle(n), Inc) == Idle(next);
      assert Repeat(Inc, k)[1..] == Repeat(Inc, k - 1);
      IncrementsSaturate(next, k - 1);
    }
  }

  /** Corrected: DECREMENT counts down and its guard stops the count at 0. */
  lemma {:induction false} DecrementsSaturate(n: int, k: nat)
    requires 0 <= n
    ensures RunIntended(CounterMachine(), Idle(n), Repeat(Dec, k)) == Idle(if n - k > 0 then n - k else 0)
    decreases k
  {
    if k > 0 {
      var m := CounterMachine();
      var next := if n > 0 then n - 1 else n;
      assert StepIntended(m, Idle(n), Dec) == Idle(next);
      assert Repeat(Dec, k)[1..] == Repeat(Dec, k - 1);
      DecrementsSaturate(next, k - 1);
    }
  }

  /** Corrected: the guard test's expectations, 5 after six INCREMENTs and 0 after six DECREMENTs. */
  lemma GuardTestIntended()
    ensures var m := CounterMachine();
            && RunIntended(m, Start(m), Repeat(Inc, 6)).context == 5
            && RunIntended(m, Start(m), Repeat(Inc, 6) + Repeat(Dec, 6)).context == 0
  {
    var m := CounterMachine();
    assert Start(m) == Idle(0);
    IncrementsSaturate(0, 6);
    RunIntendedAppend(m, Start(m), Repeat(Inc, 6), Repeat(Dec, 6));
    DecrementsSaturate(5, 6);
  }
}
