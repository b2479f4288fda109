# Run-lifecycle state machine

A model of the run-lifecycle state machine of the trigger.dev web app
(`apps/webapp/app/v3/engine/machine/`). The model has three parts.

- `state_machine.dfy`, module `StateMachines`, models the generic
  `StateMachine` class.
  - The class holds a fixed list of declared states and a fixed list of
    declared transitions. Each transition has an optional `from` list and a
    target `to`.
  - The current state is mutable and starts out unset.
  - `SetInitialState` accepts only a declared state. The source throws on any
    other state; the model returns `InvalidState`.
  - `Transition(to)` scans the transitions in declaration order (`Find`,
    specified by `FirstMatch`). If one matches, it overwrites the current
    state with the requested `to`.
  - The pure function `Apply` gives what one call returns and the state it
    leaves. The lemmas about the machine are stated over `Apply`.
  - States are strings, as in the source. `IsSet` writes out JavaScript's
    truthiness test: an empty-string state counts as "no state".
- `run_state_machine.dfy`, module `RunStateMachine`, models the run catalog.
  - It has the fourteen `TaskRunStatus` values and their string names.
  - It has the transitions `cancelRun`, `expireRun` and `executeRun`. Each is
    allowed only from PENDING.
  - `NewRunMachine` builds the `runMachine` singleton.
  - It has the draft compound `State` and its `pending` and `executing`
    constants.
- `run_engine.dfy`, module `RunEngines`, models the `RunEngine` class.
  - The constructor seeds the shared machine.
  - `CancelRun` requests CANCELED and always reports `true`.

The model follows what the code does, including three behaviours a reader
might not expect:

- A transition that has a `from` list never compares its target with the
  requested one. So from PENDING, `transition(x)` succeeds for every `x`,
  through `cancelRun`.
- The new state is the requested target, not the target of the transition
  that matched.
- The requested target is never checked against the declared states.

The TypeScript module-level singleton `runMachine` is an object that the
caller builds with `NewRunMachine` and passes to every `RunEngine`. That is
how the sharing between engines is represented.

## Model

| member | source | states |
|---|---|---|
| `StateMachines.IsSet` | apps/webapp/app/v3/engine/machine/stateMachine.server.ts:47 | JavaScript's `!this.state`: a state counts as set only when it is defined and not the empty string. |
| `StateMachines.Matches` | apps/webapp/app/v3/engine/machine/stateMachine.server.ts:46-50 | The `find` callback. A restricted transition matches only when a current state is set and listed in `from`; the target is not compared. An unrestricted one matches when `t.to == to`. With no state set, only an unrestricted transition whose target is `to` matches. |
| `StateMachines.FirstMatch` | apps/webapp/app/v3/engine/machine/stateMachine.server.ts:45-51 | The chosen index is the first transition, in declaration order, that satisfies the `find` callback. `None` means no declared transition satisfies it. |
| `StateMachines.Find` | apps/webapp/app/v3/engine/machine/stateMachine.server.ts:45 | The linear scan returns exactly the first matching transition (`FirstMatch`). |
| `StateMachines.Apply` | apps/webapp/app/v3/engine/machine/stateMachine.server.ts:44-61 | A call succeeds iff some declared transition matches. On success it returns the requested `to` and makes `to` current. On failure the state is unchanged and the error carries the current state and `to`. |
| `StateMachines.NoMatchKeepsState` | apps/webapp/app/v3/engine/machine/stateMachine.server.ts:52-57 | A call fails exactly when no transition matches, and then the current state is unchanged. |
| `StateMachines.SuccessWritesRequestedTarget` | apps/webapp/app/v3/engine/machine/stateMachine.server.ts:59-60 | On success some transition matched, the result is `Success(to)`, and the new state is the requested `to`. |
| `StateMachines.UnsetStateNeedsUnrestricted` | apps/webapp/app/v3/engine/machine/stateMachine.server.ts:46-50 | With no current state (or an empty string), restricted transitions never match. A call then succeeds iff an unrestricted transition targets `to`. |
| `StateMachines.UnrestrictedMatchesByTarget` | apps/webapp/app/v3/engine/machine/stateMachine.server.ts:50 | If every transition is unrestricted, a call succeeds iff some transition's `to` equals the requested target, whatever the current state. |
| `StateMachines.RestrictedSourceAcceptsAnyTarget` | apps/webapp/app/v3/engine/machine/stateMachine.server.ts:46-48 | If the current state is set and listed in some transition's `from`, then `transition(x)` succeeds for every `x` and moves to `x`. |
| `StateMachines.SuccessIgnoresRestrictedTargets` | apps/webapp/app/v3/engine/machine/stateMachine.server.ts:45-51 | Success depends on the target only through unrestricted transitions. Two targets that no unrestricted transition tells apart both succeed or both fail. |
| `StateMachines.TargetNotCheckedAgainstStates` | apps/webapp/app/v3/engine/machine/stateMachine.server.ts:44-60 | Builds a machine with states A and B and one transition A→B, seeds it with A, and requests Z. The machine ends in the undeclared Z. So "current state is declared" is not an invariant of `transition`. |
| `StateMachines.StateMachine.constructor` | apps/webapp/app/v3/engine/machine/stateMachine.server.ts:28-31 | The machine keeps the given states and transitions and starts with no current state. |
| `StateMachines.StateMachine.CurrentState` | apps/webapp/app/v3/engine/machine/stateMachine.server.ts:40-42 | The `currentState` getter returns the stored state, or `None` when none is set. |
| `StateMachines.StateMachine.SetInitialState` | apps/webapp/app/v3/engine/machine/stateMachine.server.ts:33-42 | A declared state becomes the current state (`CurrentState()` returns it). An undeclared state is refused and leaves the current state unchanged. |
| `StateMachines.StateMachine.Transition` | apps/webapp/app/v3/engine/machine/stateMachine.server.ts:44-61 | The result and the new current state are those given by `Apply` for the old state. |
| `RunStateMachine.Name` | apps/webapp/app/v3/engine/machine/runStateMachine.server.ts:25-40 | Every run status is stored as a non-empty string, so a set status always passes the truthiness test. |
| `RunStateMachine.Parse` | apps/webapp/app/v3/engine/machine/runStateMachine.server.ts:25-40 | A helper, the inverse of `Name`. It reads a stored name back as a status and is used only to state that names are distinct. |
| `RunStateMachine.ParseName` | apps/webapp/app/v3/engine/machine/runStateMachine.server.ts:25-40 | Reading a status's name back gives the status again, so distinct statuses have distinct names. |
| `RunStateMachine.NewRunMachine` | apps/webapp/app/v3/engine/machine/runStateMachine.server.ts:24-42 | The singleton is built from the run states and the run catalog, with no current state. |
| `RunStateMachine.RunStatesAreStatusNames` | apps/webapp/app/v3/engine/machine/runStateMachine.server.ts:25-40 | `runMachine` declares 14 pairwise distinct states. Each is the name of a run status, and every run status's name is among them. |
| `RunStateMachine.RunCatalog` | apps/webapp/app/v3/engine/machine/runStateMachine.server.ts:4-41 | The catalog is, in order, PENDING→CANCELED, PENDING→EXPIRED, PENDING→EXECUTING. Every `from` is [PENDING] and every target is a declared state. |
| `RunStateMachine.FromPending` | apps/webapp/app/v3/engine/machine/runStateMachine.server.ts:4-41 | From PENDING, `cancelRun` (index 0) is the first match. Every request succeeds and moves the run to the requested state. |
| `RunStateMachine.FromOtherThanPending` | apps/webapp/app/v3/engine/machine/runStateMachine.test.ts:21-26 | From any state other than PENDING, every request fails and the state stays put. This covers every other status, any other string the machine was moved to, and no state. With the target CANCELED it is the failing case of `cancelRun`. |
| `RunStateMachine.CompoundStates` | apps/webapp/app/v3/engine/machine/runStateMachine.server.ts:48-61 | `pending` has run status PENDING and allows only "no attempt". `executing` has run status EXECUTING and allows "no attempt" or an EXECUTING attempt. |
| `RunEngines.RunEngine.constructor` | apps/webapp/app/v3/engine/machine/runEngine.server.ts:5-9 | The engine holds the shared run machine, and that machine's current state becomes the given status. Every status is declared, so this never fails. |
| `RunEngines.RunEngine.CancelRun` | apps/webapp/app/v3/engine/machine/runEngine.server.ts:11-15 | Always returns true. From PENDING the machine ends in CANCELED; from any other state it is unchanged. |
| `RunEngines.SecondEngineOverwritesFirst` | apps/webapp/app/v3/engine/machine/runEngine.server.ts:5-9 | Two engines share one machine. Building the second engine overwrites the state the first one sees. |

## Left out

- The `id` fields of `cancelRun`, `expireRun` and `executeRun`. The machine never reads them; the Dafny constants carry the names instead.
- The type-level machinery: `PossibleTransitionIds`, `RunTransitionIds`, `type T`, and the `as const` typing. `PossibleTransitionIds` is imported from `stateMachine.server.ts`, which does not define it.
- The text of the error message at `stateMachine.server.ts:55`. `TransitionError` carries the two values the message reports.
- `setInitialState` throws; the model returns an `InvalidState` outcome instead.
- `RunEngine.cancelRun` is `async`. It never awaits, so it is modelled as a plain method returning `bool`.
- `TaskRunAttemptStatus` comes from the database package, which is not part of this model. Its constructors here (PENDING, EXECUTING, PAUSED, FAILED, CANCELED, COMPLETED) are assumed; only EXECUTING is used.
- The Prisma database layer, and the schema file `apps/integrations/src/integrations/notion/endpoints/schemas/common.ts`. That file only declares API parameters and has no behaviour.
- The invariant "the current state is a declared state" is not proved, because `transition` does not keep it (see `TargetNotCheckedAgainstStates`).
- `runStateMachine.test.ts` calls `transition` with two arguments, but the method takes one. Only the test's expected outcomes are modelled (`FromPending`, `FromOtherThanPending`). For the call as written at `runStateMachine.test.ts:12`, "PENDING" is the requested target. By `FromPending` that call succeeds and leaves the state at PENDING, so the expectations of CANCELED at `runStateMachine.test.ts:17-18` do not hold for the code. This follows from the model; it was not run.
