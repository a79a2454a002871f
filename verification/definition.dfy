/**
 * The declarative description a machine is built from: events, states and
 * the whole configuration, together with the small helpers that give the
 * optional hooks their meaning (an absent hook is skipped).
 */
module Definition {
  import opened Wrappers

  /**
   * One entry of a state's `on` table. The type makes `target` mandatory,
   * but the engine only acts on it when it is truthy, so the model keeps it
   * optional and treats the empty name like an absent one.
   */
  datatype EventConfig<!C, !P> = EventConfig(
    target: Option<string>,
    guard: Option<C -> bool>,
    reducer: Option<(C, Option<P>) -> C>)

  /** One state. An absent `on` table behaves exactly like an empty one. */
  datatype StateConfig<!C, !P> = StateConfig(
    entry: Option<C -> C>,
    exit: Option<C -> C>,
    on: map<string, EventConfig<C, P>>,
    parent: Option<string>)

  /**
   * The configuration. `keys` is the order in which the states object
   * enumerates its own keys; its first element is the initial state.
   */
  datatype Config<!C, !P> = Config(
    context: C,
    keys: seq<string>,
    states: map<string, StateConfig<C, P>>)

  /** `keys` lists every state exactly once, as an object's key list does. */
  ghost predicate WellFormed<C, P>(cfg: Config<C, P>) {
    && (forall i, j :: 0 <= i < j < |cfg.keys| ==> cfg.keys[i] != cfg.keys[j])
    && (forall k :: k in cfg.states <==> k in cfg.keys)
  }

  /** The first key of the states object, or `undefined` when it has none. */
  function FirstKey<C, P>(cfg: Config<C, P>): Option<string> {
    if |cfg.keys| == 0 then None else Some(cfg.keys[0])
  }

  /** JavaScript truthiness of an optional state name. */
  predicate Truthy(name: Option<string>) {
    name.Some? && name.value != ""
  }

  /** Applies an `entry` or `exit` hook when it is present. */
  function Apply<C>(hook: Option<C -> C>, ctx: C): C {
    match hook
    case None => ctx
    case Some(f) => f(ctx)
  }

  /** Applies an event's `reducer` when it is present. */
  function Reduce<C, P>(reducer: Option<(C, Option<P>) -> C>, ctx: C, payload: Option<P>): C {
    match reducer
    case None => ctx
    case Some(f) => f(ctx, payload)
  }

  /** An absent guard admits every context. */
  predicate Allows<C>(guard: Option<C -> bool>, ctx: C) {
    match guard
    case None => true
    case Some(g) => g(ctx)
  }

  /** Some event of defined state `a` names the defined state `b` as a truthy target. */
  ghost predicate Edge<C, P>(states: map<string, StateConfig<C, P>>, a: string, b: string) {
    && a in states
    && b != ""
    && b in states
    && exists e :: e in states[a].on && states[a].on[e].target == Some(b)
  }
}
