/**
 * Sequences of sends on one controller, and what the machine promises
 * across them: the history only ever grows by one entry per committed
 * transition, the controller stays coherent, observers never influence the
 * outcome, and `reset` forgets everything but the observers.
 */
module Runs {
  import opened Wrappers
  import opened Definition
  import opened Hierarchy
  import opened Engine

  /** One `send(evt, payload)` call. */
  datatype Input<P> = Input(evt: string, payload: Option<P>)

  /** The controller after one send; a send that throws leaves it as it was. */
  function Step<C, P>(m: Machine<C, P>, c: Controller<C>, input: Input<P>): Controller<C> {
    After(Send(m, c, input.evt, input.payload), c)
  }

  /** The controller after each input is sent in turn, an error being caught by the caller. */
  function Run<C, P>(m: Machine<C, P>, c: Controller<C>, inputs: seq<Input<P>>): Controller<C>
    decreases |inputs|
  {
    if inputs == [] then c else Run(m, Step(m, c, inputs[0]), inputs[1..])
  }

  /** The history entries of the inputs that commit a transition, in order. */
  function Committed<C, P>(m: Machine<C, P>, c: Controller<C>, inputs: seq<Input<P>>): seq<Entry<C>>
    decreases |inputs|
  {
    if inputs == [] then []
    else
      (if Commits(m, c, inputs[0].evt) then [Entry(c.current.value, c.context)] else [])
      + Committed(m, Step(m, c, inputs[0]), inputs[1..])
  }

  /**
   * A send on a coherent controller meets an undefined current state only
   * when the configuration has no states at all, and keeps it coherent.
   */
  lemma SendKeepsCoherent<C, P>(m: Machine<C, P>, c: Controller<C>, evt: string, payload: Option<P>)
    requires Coherent(m, c)
    ensures Send(m, c, evt, payload) == Thrown(CurrentStateMissing(c.current), []) <==> m.cfg.states.Keys == {}
    ensures Coherent(m, After(Send(m, c, evt, payload), c))
  {
  }

  /** Every controller reachable from a coherent one by sends is coherent. */
  lemma {:induction false} RunKeepsCoherent<C, P>(m: Machine<C, P>, c: Controller<C>, inputs: seq<Input<P>>)
    requires Coherent(m, c)
    ensures Coherent(m, Run(m, c, inputs))
    decreases |inputs|
  {
    if inputs != [] {
      SendKeepsCoherent(m, c, inputs[0].evt, inputs[0].payload);
      RunKeepsCoherent(m, Step(m, c, inputs[0]), inputs[1..]);
    }
  }

  /** The history after a run is the history before it plus one entry per committed transition. */
  lemma {:induction false} HistoryAfterRun<C, P>(m: Machine<C, P>, c: Controller<C>, inputs: seq<Input<P>>)
    ensures GetHistory(Run(m, c, inputs)) == GetHistory(c) + Committed(m, c, inputs)
    decreases |inputs|
  {
    if inputs != [] {
      var c' := Step(m, c, inputs[0]);
      HistoryAfterRun(m, c', inputs[1..]);
      assert c'.hist == c.hist + (if Commits(m, c, inputs[0].evt) then [Entry(c.current.value, c.context)] else []);
    }
  }

  /** Only a committing send changes what a snapshot reports. */
  lemma SnapshotAfterSend<C, P>(m: Machine<C, P>, c: Controller<C>, evt: string, payload: Option<P>)
    ensures !Commits(m, c, evt) ==> GetSnapshot(After(Send(m, c, evt, payload), c)) == GetSnapshot(c)
    ensures Commits(m, c, evt) ==>
              GetSnapshot(After(Send(m, c, evt, payload), c)).state == Handler(m, c, evt).value.target
  {
  }

  /** A new observer is called last, and only on accepted events; nothing else about the send changes. */
  lemma UseAppendsObserver<C, P>(m: Machine<C, P>, fn: ObserverId, c: Controller<C>, evt: string, payload: Option<P>)
    ensures After(Send(Use(m, fn), c, evt, payload), c) == After(Send(m, c, evt, payload), c)
    ensures Send(Use(m, fn), c, evt, payload).calls ==
              Send(m, c, evt, payload).calls + (if Accepted(m, c, evt) then [Call(fn, evt, c.context, payload)] else [])
  {
  }

  /** Registering an observer keeps every coherent controller coherent. */
  lemma UseKeepsCoherent<C, P>(m: Machine<C, P>, fn: ObserverId, c: Controller<C>)
    requires Coherent(m, c)
    ensures Coherent(Use(m, fn), c)
  {
  }

  /** Observers never influence where a run of sends leads. */
  lemma {:induction false} ObserversDoNotSteer<C, P>(m: Machine<C, P>, fn: ObserverId, c: Controller<C>, inputs: seq<Input<P>>)
    ensures Run(Use(m, fn), c, inputs) == Run(m, c, inputs)
    decreases |inputs|
  {
    if inputs != [] {
      UseAppendsObserver(m, fn, c, inputs[0].evt, inputs[0].payload);
      ObserversDoNotSteer(m, fn, Step(m, c, inputs[0]), inputs[1..]);
    }
  }

  /** After `reset` a controller behaves exactly like a fresh one, whatever it went through before. */
  lemma ResetForgetsRun<C, P>(m: Machine<C, P>, c: Controller<C>, before: seq<Input<P>>, after: seq<Input<P>>)
    requires ValidMachine(m)
    ensures GetHistory(Reset(m, Run(m, c, before))) == []
    ensures Coherent(m, Reset(m, Run(m, c, before)))
    ensures Run(m, Reset(m, Run(m, c, before)), after) == Run(m, Start(m), after)
  {
  }
}
