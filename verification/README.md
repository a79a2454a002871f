# zustand-fsm `Machine` in Dafny

This project models the transition engine of zustand-fsm: the `Machine<T>` class in
`src/machine.ts` and the store it hands out. The model covers these operations:

- the constructor, which takes the first key of `states` as the initial state and copies the initial context;
- `use`, which registers an observer;
- `send`, which does the following in order:
  - looks up the event on the current state;
  - checks the guard;
  - calls the observers with the context from before the send;
  - applies `exit`, then the reducer, then `entry`;
  - appends to the history;
  - commits `previous`, `current` and `context`;
- `matches`, which walks the single-parent chain;
- `reset`;
- `getSnapshot` and `getHistory`.

Everything is a pure function over immutable values:

- A `Config` holds three things: the initial context, the key order of the `states` object, and a map from state name to `StateConfig`.
- User hooks (guard, reducer, entry, exit) are total arrow-typed fields over a generic context `C`. The payload type is generic too (`P`).
- Observers are identified by handles (`ObserverId`). The same handle may be registered twice, as the same function can be. `Send` returns the list of observer calls it made, alongside the next controller.
- A `Controller` holds four fields: `current`, `context`, `previous`, and the machine's history. The model has one controller per machine.
- When `send` throws, `Send` returns `Thrown` together with the observer calls made before the throw. The controller is left unchanged.

Modules:

- `Wrappers`: `Option` (`undefined`/`null` or a value).
- `Definition`: the event, state and configuration types; the meaning of optional hooks; JavaScript truthiness of state names; and the transition graph `Edge`.
- `Hierarchy`: the parent chain (`ParentOf`, `Reach`), the bounded walk of `matches`, and the proof that a walk of at most `|states|` steps gives the same answers as the unbounded walk.
- `Engine`: the machine, the controller, the operations, and the invariants of every reachable controller: `PathShaped` (the history is a path from the initial state ending in `previous`, with an edge on to `current`) and `Coherent` (path-shaped, and the context stays the initial one until the first transition, which only the code as written keeps).
- `Runs`: sequences of sends; history growth; preservation of `Coherent`; how `use` and `reset` relate to `send`.
- `Scenarios`: the traffic light of the repository's tests, and an example that shows the order of the hooks.
- `Findings`: internal (targetless) transitions, as written and as evidently intended.

Behaviour of the code that a reader might not expect, which the model keeps:

- An accepted event without a target does not commit its context. The repository's guard test (tests/machine.test.ts:136-168) expects it to. See Findings below.
- Observers receive `(evt, context, payload)`. They do not receive the current state.
- A target state that does not exist surfaces as the `TypeError` from reading `entry` of `undefined`. This happens after the observers ran. The model calls it `TargetStateMissing`.
- A `parent` naming an undefined state is not an error. It is compared with the requested name, and then the walk ends.
- The parent chain is not checked for cycles. The model's bounded walk agrees with the code wherever the code terminates.
- An empty target or parent name is falsy. It is treated as absent.
- A configuration with no states gives an `undefined` initial state (`None`). Every send on it throws, and `matches` is always false.

## Model

| member | source | states |
|---|---|---|
| Engine.NewMachine | src/machine.ts:38-42 | The initial state is the first key of `states`, and it is a defined state. It is absent exactly when there are no states. The context is the configured one. The observer list starts empty. |
| Engine.Start | src/machine.ts:50-53 | A fresh store satisfies the coherence invariant and has an empty history. With an empty history that means: current is the initial state, the context is the initial context, and previous is null. |
| Runs.UseAppendsObserver | src/machine.ts:44-47 | After `use(fn)`, every accepted event also calls `fn`, after all earlier observers, with the event, the pre-send context and the payload. Rejected events do not call it. The controller a send produces is the same as without `fn`. |
| Engine.Use | src/machine.ts:44-47 | The new observer is placed after every earlier one, which keep their places; the configuration, initial state and initial context are untouched, so a valid machine stays valid. |
| Runs.UseKeepsCoherent | src/machine.ts:44-47 | Registering an observer keeps every coherent controller coherent. |
| Runs.ObserversDoNotSteer | src/machine.ts:62 | For observers that do not mutate their arguments (the model's observers cannot), registering one never changes where any sequence of sends leads. |
| Engine.Send | src/machine.ts:55-79 | An undefined current state throws before anything else, and only then. A missing handler or a refusing guard (on the call-time context) changes nothing and calls no observer. An accepted event calls each observer once, in registration order, with the pre-send context. Without a truthy target nothing is committed. An undefined target throws after the observers. A defined target commits: current becomes the target, previous becomes the old current, one history entry (old state, pre-exit context) is appended, and the context is entry(reducer(exit(ctx), payload)), skipping absent hooks. Any other normal return leaves the controller unchanged. |
| Runs.SendKeepsCoherent | src/machine.ts:56-58 | On a coherent controller, `send` throws for an undefined current state exactly when the configuration has no states. Every send keeps the controller coherent: the history is a path through the transition graph from the initial state, with the initial context in its first entry; previous is its last state; and an edge leads from there to current. |
| Runs.RunKeepsCoherent | src/machine.ts:68-77 | Every controller reachable by sends from a coherent one is coherent. |
| Engine.GetHistory | src/machine.ts:111-113 | `getHistory` returns a copy with the same entries in the same order. |
| Runs.HistoryAfterRun | src/machine.ts:111-113 | The history read after any run is the history before it, plus one entry for each input that commits a transition, in order. Nothing else appends. |
| Engine.GetSnapshot | src/machine.ts:81-84 | A snapshot reports the store's current state name and context; previous state and history play no part. |
| Runs.SnapshotAfterSend | src/machine.ts:81-84 | The snapshot changes only on a committing send. After one, it reports the target state. |
| Engine.Matches | src/machine.ts:86-98 | `matches(name)` is true iff `name` is the current state or `name` is compared somewhere on the unbounded parent chain from the current state. |
| Hierarchy.WalkFrom | src/machine.ts:92-95 | A walk with `fuel` comparisons is true iff the name is among the first `fuel` parents on the chain. |
| Hierarchy.OnChainBounded | src/machine.ts:92-95 | A name appears on the unbounded chain iff it appears within as many steps as there are states. |
| Hierarchy.ShortenChain | src/machine.ts:92-95 | Any name the unbounded walk compares is already compared within as many steps as there are states, even on a cyclic chain. |
| Hierarchy.AcyclicWalkEnds | src/machine.ts:92-95 | When no state reaches itself through parents, the chain ends within as many steps as there are states, so the loop of `matches` terminates. |
| Engine.Reset | src/machine.ts:100-107 | Reset gives exactly the controller of a fresh store, whatever the controller was before. |
| Runs.ResetForgetsRun | src/machine.ts:100-107 | After any run, reset leaves an empty history and a coherent controller. Every later run behaves as it would from a fresh store. |
| Scenarios.HookOrder | src/machine.ts:64-70 | With exit, reducer and entry each logging their name, one transition logs exitA, reduce, entryB in that order. |
| Scenarios.TrafficStartsRed | tests/machine.test.ts:55-64 | A fresh traffic light is in red, with duration 1000 and colour red, no previous state and no history. |
| Scenarios.TrafficCycle | tests/machine.test.ts:75-85 | Three NEXT events return to red with colour red. The history records red, green and yellow, each with its pre-exit context. |
| Scenarios.TrafficHistory | tests/machine.test.ts:87-98 | Two NEXT events leave two history entries: red, then green. |
| Scenarios.TrafficEmergency | tests/machine.test.ts:100-107 | EMERGENCY moves to flashing. Flashing matches itself and its parent red, but not green. |
| Scenarios.TrafficWatch | tests/machine.test.ts:109-118 | An observer registered with `use` is called once with NEXT and the pre-send context. |
| Scenarios.TrafficReset | tests/machine.test.ts:120-134 | After two transitions and a reset, the light is red with the initial context and an empty history. |
| Findings.TargetlessNeverChanges | src/machine.ts:62-78 | As written, a machine none of whose events has a truthy target never changes its controller, whatever is sent. |
| Findings.ReducerResultDiscarded | tests/machine.test.ts:136-168 | As written, on the guard test's counter the first INCREMENT is accepted, yet six INCREMENTs leave the count at 0 (the test expects 5). |
| Findings.SendIntended | src/machine.ts:64-78 | Corrected send, written out in full. It differs from the code only on an accepted internal transition: there it commits exit-then-reducer of the context, keeps current, previous and history, and calls the same observers as the code. Every other send returns exactly what the code's send returns. |
| Findings.IntendedAgreesWhenTargeted | src/machine.ts:68-78 | On any machine whose events all name a truthy target, such as the traffic light, every run under the corrected send ends where the code's run ends. |
| Findings.IntendedHistoryAfterRun | src/machine.ts:72 | Under the corrected send, the history after any run is the old history plus one entry per committing input, in order: internal transitions never append. |
| Findings.IntendedKeepsPath | src/machine.ts:64-78 | The corrected send keeps every path-shaped controller path-shaped. |
| Findings.RunIntendedKeepsPath | src/machine.ts:64-78 | Every controller reachable by corrected sends from a path-shaped one is path-shaped. |
| Findings.IntendedLeavesInitialContext | tests/machine.test.ts:157-161 | On the guard test's counter, one corrected INCREMENT gives count 1 with an empty history: path-shaped but not `Coherent`, whose initial-context part holds only for the code as written. |
| Findings.IncrementsSaturate | tests/machine.test.ts:157-161 | Corrected: k INCREMENTs from a count n in 0..5 give min(n + k, 5). The guard stops at 5. |
| Findings.DecrementsSaturate | tests/machine.test.ts:163-167 | Corrected: k DECREMENTs from a count n >= 0 give max(n - k, 0). The guard stops at 0. |
| Findings.GuardTestIntended | tests/machine.test.ts:136-168 | Corrected: the guard test's expectations hold. Six INCREMENTs give 5, and six more DECREMENTs give 0. |

## Left out

- Engine.Matches: where the code loops forever, the model returns false. This happens only on a cyclic parent chain that does not contain the requested name. Everywhere else the answers agree (Hierarchy.ShortenChain, Hierarchy.AcyclicWalkEnds).
- The zustand store (`create`, `set`, `get`) and its subscriber notification (src/machine.ts:1, 50, 73) are external. The store is the `Controller` value that `Send` returns.
- Store middleware and console logging (tests/machine.test.ts:170-191) are not modelled. `store()` takes no middleware argument, so the source has nothing to model.
- `createMachine` and `machine.watch`, used by the test file, are not defined in `src/machine.ts`. The scenarios use the constructor and `use` instead.
- Unregistering an observer is not modelled, because the code offers no way to do it.
- The effects of an observer are not modelled. Observers are handles, and only their calls are recorded. An observer, guard, reducer, entry or exit hook that throws is also not modelled: hooks are total pure functions.
- JavaScript object copying and aliasing (the spreads at src/machine.ts:41, 52, 64, 103) are not modelled. Dafny values cannot alias.
- A history shared by several stores of one machine is not modelled. The model has one controller per machine.
- The enumeration order of object keys (integer-like keys first) is not modelled. It is taken as given in `Config.keys`.
- Property names inherited from `Object.prototype` (such as `constructor` or `__proto__`) are treated as undefined states and events.
- `Runs.Run` lets the caller catch a thrown send and carry on with the unchanged controller. The code itself does not define a sequence of sends.
- jest.config.js and tsup.config.ts are build and test tooling only.

## Findings

| source | as written | input that shows it | evidently intended | confidence | as-written member | corrected member |
|---|---|---|---|---|---|---|
| src/machine.ts:64-78 | An accepted event without a target runs the observers, `exit` and the reducer. The resulting context is stored only inside `if (event.target)`, so it is discarded. | The guard test's counter: one state `idle` whose INCREMENT and DECREMENT events carry guards and reducers but no target. INCREMENT from count 0 leaves the count at 0. | Commit the reduced context on an internal transition, and leave current, previous and history alone. The test at tests/machine.test.ts:136-168 expects 5 and then 0. | not executed; high | Findings.ReducerResultDiscarded | Findings.SendIntended |

The rest of the model keeps the code's behaviour, so that it can be read line by line against `src/machine.ts`. `Findings.SendIntended` and `Findings.RunIntended` are the corrected counterparts. For every machine, the corrected send keeps controllers path-shaped, appends history only on committed transitions, and agrees with the code on machines whose events all have targets. The guard test's expectations are proved about it on the counter.
