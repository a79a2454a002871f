/**
 * The `Machine` class and the store it hands out. The machine keeps the
 * configuration, the initial state name and context, and the observer list;
 * the controller is the state one store holds (current state, context,
 * previous state) together with the machine's transition history, which the
 * model keeps beside it because one controller is modelled per machine.
 * Every operation is a pure function: `Send` returns the next controller
 * and the observer calls it made instead of mutating anything.
 */
module Engine {
  import opened Wrappers
  import opened Definition
  import opened Hierarchy

  /** Observers are identified by a handle; the same handle may be registered twice. */
  type ObserverId = nat

  datatype Machine<!C, !P> = Machine(
    cfg: Config<C, P>,
    init: Option<string>,
    initCtx: C,
    mw: seq<ObserverId>)

  /** One history record: the state left and the context it held before the transition. */
  datatype Entry<C> = Entry(state: string, ctx: C)

  datatype Controller<C> = Controller(
    current: Option<string>,
    context: C,
    previous: Option<string>,
    hist: seq<Entry<C>>)

  /** One call of a registered observer. */
  datatype Call<C, P> = Call(observer: ObserverId, evt: string, ctx: C, payload: Option<P>)

  /** The two ways `send` throws: the current or the target state is not defined. */
  datatype SendError = CurrentStateMissing(current: Option<string>) | TargetStateMissing(target: string)

  /**
   * The outcome of one `send`: it returns normally with the next controller,
   * or throws; either way the observers already called are reported.
   */
  datatype SendResult<C, P> =
    | Done(ctl: Controller<C>, calls: seq<Call<C, P>>)
    | Thrown(error: SendError, calls: seq<Call<C, P>>)

  datatype Snapshot<C> = Snapshot(state: Option<string>, context: C)

  /** What the constructor establishes about a machine. */
  ghost predicate ValidMachine<C, P>(m: Machine<C, P>) {
    && WellFormed(m.cfg)
    && m.init == FirstKey(m.cfg)
    && m.initCtx == m.cfg.context
  }

  /**
   * The shape of every controller a store can reach: before the first
   * committed transition it is in the initial state with no previous state;
   * afterwards the history is a walk through the transition graph that
   * starts in the initial state, `previous` is its last state, and an edge
   * leads from there to `current`.
   */
  ghost predicate PathShaped<C, P>(m: Machine<C, P>, c: Controller<C>) {
    && ValidMachine(m)
    && (c.current.Some? ==> c.current.value in m.cfg.states)
    && (c.hist == [] ==> c.current == m.init && c.previous == None)
    && (c.hist != [] ==>
          && m.init == Some(c.hist[0].state)
          && c.previous == Some(c.hist[|c.hist| - 1].state)
          && c.current.Some?
          && Edge(m.cfg.states, c.hist[|c.hist| - 1].state, c.current.value))
    && (forall i, j :: 0 <= i && j == i + 1 && j < |c.hist| ==>
          Edge(m.cfg.states, c.hist[i].state, c.hist[j].state))
  }

  /**
   * The invariant of every controller a store can reach with `send` as
   * written: it is path-shaped, and since only a committed transition stores
   * a context, the context is the initial one until the first transition,
   * which records the initial context in the first history entry.
   */
  ghost predicate Coherent<C, P>(m: Machine<C, P>, c: Controller<C>) {
    && PathShaped(m, c)
    && (c.hist == [] ==> c.context == m.initCtx)
    && (c.hist != [] ==> c.hist[0].ctx == m.initCtx)
  }

  /** `new Machine(config)`: the first key is the initial state; the context is copied. */
  function NewMachine<C, P>(cfg: Config<C, P>): (m: Machine<C, P>)
    requires WellFormed(cfg)
    ensures ValidMachine(m)
    ensures m.mw == []
    ensures m.init.None? <==> cfg.states.Keys == {}
    ensures m.init.Some? ==> m.init.value in cfg.states
  {
    assert |cfg.keys| > 0 ==> cfg.keys[0] in cfg.states;
    assert |cfg.keys| == 0 ==> forall k :: k !in cfg.states.Keys;
    Machine(cfg, FirstKey(cfg), cfg.context, [])
  }

  /** `use(fn)`: registers an observer after those already registered. */
  function Use<C, P>(m: Machine<C, P>, fn: ObserverId): (r: Machine<C, P>)
    // the new observer comes after every earlier one, which keep their places
    ensures |r.mw| == |m.mw| + 1 && r.mw[..|m.mw|] == m.mw && r.mw[|m.mw|] == fn
    // the configuration and the initial values are untouched
    ensures r.cfg == m.cfg && r.init == m.init && r.initCtx == m.initCtx
    ensures ValidMachine(m) ==> ValidMachine(r)
  {
    m.(mw := m.mw + [fn])
  }

  /** `store()`: a fresh controller holding the initial values. */
  function Start<C, P>(m: Machine<C, P>): (c: Controller<C>)
    ensures ValidMachine(m) ==> Coherent(m, c) && c.hist == []
  {
    Controller(m.init, m.initCtx, None, [])
  }

  /** The current state is defined, so `send` can look it up. */
  predicate KnownState<C, P>(m: Machine<C, P>, c: Controller<C>) {
    c.current.Some? && c.current.value in m.cfg.states
  }

  /** The event handler of the current state for `evt`, if there is one. */
  function Handler<C, P>(m: Machine<C, P>, c: Controller<C>, evt: string): Option<EventConfig<C, P>> {
    if KnownState(m, c) && evt in m.cfg.states[c.current.value].on
    then Some(m.cfg.states[c.current.value].on[evt])
    else None
  }

  /** `evt` has a handler whose guard admits the call-time context. */
  predicate Accepted<C, P>(m: Machine<C, P>, c: Controller<C>, evt: string) {
    Handler(m, c, evt).Some? && Allows(Handler(m, c, evt).value.guard, c.context)
  }

  /** `evt` is accepted and names a defined target: the send commits a transition. */
  predicate Commits<C, P>(m: Machine<C, P>, c: Controller<C>, evt: string) {
    && Accepted(m, c, evt)
    && Truthy(Handler(m, c, evt).value.target)
    && Handler(m, c, evt).value.target.value in m.cfg.states
  }

  /** The observer calls of one accepted event, in registration order. */
  function Notify<C, P>(mw: seq<ObserverId>, evt: string, ctx: C, payload: Option<P>): seq<Call<C, P>> {
    seq(|mw|, i requires 0 <= i < |mw| => Call(mw[i], evt, ctx, payload))
  }

  /** `send(evt, payload)`. */
  function Send<C, P>(m: Machine<C, P>, c: Controller<C>, evt: string, payload: Option<P>): (r: SendResult<C, P>)
    // looking up an undefined current state throws before anything else happens
    ensures !KnownState(m, c) <==> r == Thrown(CurrentStateMissing(c.current), [])
    // no handler, or a guard that refuses the call-time context: nothing happens
    ensures KnownState(m, c) && !Accepted(m, c, evt) ==> r == Done(c, [])
    // an accepted event calls every observer once, in order, with the context before the send
    ensures Accepted(m, c, evt) ==>
              && |r.calls| == |m.mw|
              && forall i :: 0 <= i < |m.mw| ==> r.calls[i] == Call(m.mw[i], evt, c.context, payload)
    // without a truthy target nothing is committed
    ensures Accepted(m, c, evt) && !Truthy(Handler(m, c, evt).value.target) ==> r.Done? && r.ctl == c
    // an undefined target throws after the observers ran, with nothing committed
    ensures Accepted(m, c, evt) && Truthy(Handler(m, c, evt).value.target) && !Commits(m, c, evt) ==>
              r == Thrown(TargetStateMissing(Handler(m, c, evt).value.target.value), r.calls)
    // a committed transition moves to the target and remembers where it came from
    ensures Commits(m, c, evt) ==>
              && r.Done?
              && r.ctl.current == Handler(m, c, evt).value.target
              && r.ctl.previous == c.current
              && r.ctl.hist == c.hist + [Entry(c.current.value, c.context)]
    // its context is exit of the old state, then the reducer, then entry of the new state
    ensures Commits(m, c, evt) ==>
              var h := Handler(m, c, evt).value;
              r.Done? && r.ctl.context ==
                Apply(m.cfg.states[h.target.value].entry,
                      Reduce(h.reducer, Apply(m.cfg.states[c.current.value].exit, c.context), payload))
    // a send that returns normally either changes nothing or commits
    ensures r.Done? && r.ctl != c ==> Commits(m, c, evt)
  {
    if !KnownState(m, c) then Thrown(CurrentStateMissing(c.current), [])
    else
      var cur := c.current.value;
      var state := m.cfg.states[cur];
      if evt !in state.on then Done(c, [])
      else
        var event := state.on[evt];
        if !Allows(event.guard, c.context) then Done(c, [])
        else
          var calls := Notify(m.mw, evt, c.context, payload);
          var ctx := Reduce(event.reducer, Apply(state.exit, c.context), payload);
          if !Truthy(event.target) then Done(c, calls)
          else if event.target.value !in m.cfg.states then Thrown(TargetStateMissing(event.target.value), calls)
          else
            var next := Apply(m.cfg.states[event.target.value].entry, ctx);
            Done(Controller(event.target, next, c.current, c.hist + [Entry(cur, c.context)]), calls)
  }

  /** The controller after a send: unchanged when the send threw. */
  function After<C, P>(r: SendResult<C, P>, c: Controller<C>): Controller<C> {
    if r.Done? then r.ctl else c
  }

  /** `getSnapshot()`. */
  function GetSnapshot<C>(c: Controller<C>): (r: Snapshot<C>)
    // a read of the store's state name and context; previous state and history play no part
    ensures r.state == c.current && r.context == c.context
  {
    Snapshot(c.current, c.context)
  }

  /** `matches(name)`: the current state or any name on its parent chain. */
  function Matches<C, P>(m: Machine<C, P>, c: Controller<C>, name: string): (r: bool)
    ensures r <==> c.current == Some(name) || (c.current.Some? && OnChain(m.cfg.states, c.current.value, name))
  {
    match c.current
    case None => false
    case Some(cur) =>
      OnChainBounded(m.cfg.states, cur, name);
      cur == name || WalkFrom(m.cfg.states, cur, name, |m.cfg.states|)
  }

  /** `reset()`: the initial values again and an empty history. */
  function Reset<C, P>(m: Machine<C, P>, c: Controller<C>): (r: Controller<C>)
    ensures r == Start(m)
  {
    Controller(m.init, m.initCtx, None, [])
  }

  /** `getHistory()`. */
  function GetHistory<C>(c: Controller<C>): (r: seq<Entry<C>>)
    // a copy holding the same entries in the same order
    ensures |r| == |c.hist| && forall i :: 0 <= i < |r| ==> r[i] == c.hist[i]
  {
    c.hist
  }
}
