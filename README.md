# Okteto context store

A model of the state of the Okteto Docker Desktop extension's context store
(`OktetoProvider` in `client/src/contexts/Okteto.context.tsx`) and the
properties its operations keep.

The store has five fields: the current Okteto context, the list of contexts
the `okteto` CLI reports, the launched environment (a manifest file and an
optional dashboard link), a `loading` flag raised while a CLI command runs,
and a `ready` flag raised by the first poll. A timer polls the CLI for its
context list. A tick is skipped while `loading` is set; otherwise the list
is stored. The user counts as logged in when the list holds the Okteto
Cloud context (`https://cloud.okteto.com`). When logged out, the current
context is cleared. When logged in, the first entry flagged `current`
becomes the current context; with no such entry nothing changes. The user
operations are login, logout, selectContext, selectEnvironment and
stopEnvironment.

Layout:

- `wrappers.dfy` — `Wrappers.Option`, for an absent value. A context that
  may be `null`, a namespace that may be `null` or `undefined`, and a CLI
  answer whose `value` may be `undefined` each use it.
- `okteto_context.dfy` — module `OktetoContext`: the `Context` and
  `Environment` records, `Array.prototype.find` (`Find`), the reconciliation
  of a polled list into the current context (`Reconcile`), `isOktetoInstance`
  and the dashboard link (`EnvironmentLink`, with its inverse `SpaceOfLink`).
- `store_spec.dfy` — module `StoreSpec`: the store's state as a value, one
  `Step` per event, runs of events, and lemmas about single steps, whole
  runs, the store invariant `Consistent` and concrete scenarios, among them
  a login overlapping a selectContext.
- `okteto_store.dfy` — module `OktetoProvider`: the class `OktetoStore` with
  the five fields. Each method updates them in place. Every method except
  `RefreshContext` is proved to take exactly the `StoreSpec.Step` of its
  event and to keep `Valid()`. `RefreshContext` is the first half of
  `PollTick`. It leaves a list in a store that is not yet ready, so it is
  specified field by field, without the invariant.

Each async operation is split in two methods. `Begin…` raises `loading` and
returns the CLI call it issues. `End…` is given the call's result, applies
it and clears `loading`. Login discards the value `contextUse` returns, so
`EndLogin` takes no result. A poll tick (`PollTick`) is one method: the source's
poll never raises `loading` itself. It takes the CLI's answer as a parameter
and returns the call it made (`None` when skipped).

`new URL(name).protocol` (URL parsing, from the WHATWG URL Standard) is not
modelled. It is a function `urlProtocol: string -> Option<string>`, where
`None` stands for the constructor throwing. The store gets it once, as a
constant field set by its constructor. `Step` and `Run` take it as a
parameter, so all steps of a run parse names the same way.

Behaviour one might expect but the code does not have, which the model
follows as written:

- One might expect an on-premises context to link to its own dashboard. The
  code always builds `https://cloud.okteto.com/#/spaces/` + namespace, for
  every context whose name parses as an http(s) URL. The source itself
  doubts this test: the TODO at `client/src/contexts/Okteto.context.tsx:65`
  asks whether `isOktetoInstance` is the proper way to recognise an Okteto
  context. `EnvironmentLink` models the test as written.
- One might expect "no current context while the default context is absent
  from the list" to hold in every state. It does not. `selectContext` adopts
  whatever context `contextUse` returns, whatever the list holds. The rule
  holds only right after a poll that ran (`StoreSpec.Poll`,
  `StoreSpec.PollLoggedOutClearsContext`). `StoreSpec.SelectContextWhileLoggedOut`
  shows a run that ends with a current context, a list without the default
  context, and the invariant `Consistent` still true.
- selectContext leaves a launched environment and its link alone, although
  the link was computed for the previous context. The TODO at
  `client/src/contexts/Okteto.context.tsx:77` leaves that case open; in the
  model, `Step` changes the environment only on selectEnvironment,
  stopEnvironment and a completed logout.
- Failed CLI calls have no handling in the code, so the model has none
  either (see "Left out").

## Model

| member | source | states |
|---|---|---|
| `OktetoContext.Find` | client/src/contexts/Okteto.context.tsx:95-96 | `list.find(p)`: None exactly when no element satisfies `p`; otherwise an element satisfying `p` with none before it satisfying `p` |
| `OktetoContext.Reconcile` | client/src/contexts/Okteto.context.tsx:94-101 | without the default context in the list the result is null whatever the `current` flags; when logged in with some entry flagged current, the first such entry; when logged in with no entry flagged, the previous context |
| `OktetoContext.ReconcileFirstCurrentWins` | client/src/contexts/Okteto.context.tsx:96-100 | logged in and `list[k]` the first entry flagged current ⇒ the new current context is exactly `list[k]` |
| `OktetoContext.ReconcileResultOrigin` | client/src/contexts/Okteto.context.tsx:97-101 | the new current context is null, the previous one, or an entry of the list flagged current |
| `OktetoContext.SpaceOfLink` | client/src/contexts/Okteto.context.tsx:67 | a string is a dashboard link iff it starts with `https://cloud.okteto.com/#/spaces/`, and then it is that prefix followed by the namespace returned |
| `OktetoContext.EnvironmentLink` | client/src/contexts/Okteto.context.tsx:66-68 | a link exists iff there is a current context whose name parses with protocol `http:` or `https:` (isOktetoInstance); the link then reads back as the context's namespace, or `""` when it has none |
| `OktetoContext.IsOktetoInstance` | client/src/contexts/Okteto.context.tsx:34-42 | true iff `new URL(name)` succeeds with protocol `http:` or `https:`; false when it throws |
| `OktetoContext.UnparsableNameHasNoLink` | client/src/contexts/Okteto.context.tsx:36-40 | a name on which `new URL` throws gives no link |
| `Wrappers.Option.GetOr` | client/src/contexts/Okteto.context.tsx:67 | `x ?? d`: the value when there is one, else the default `d` |
| `StoreSpec.ListOrEmpty` | client/src/contexts/Okteto.context.tsx:91 | the stored list is the CLI's `value`, or empty when that value is `undefined` |
| `StoreSpec.Poll` | client/src/contexts/Okteto.context.tsx:104-109 | while loading, the state is unchanged; otherwise the store becomes ready, stays not loading, keeps its environment and stores the list; right after such a poll, a list without the default context means no current context |
| `StoreSpec.Step` | client/src/contexts/Okteto.context.tsx:51-109 | only a poll that ran changes the list; only such a poll or a completed selectContext changes the current context; only selectEnvironment, stopEnvironment and a completed logout change the environment; poll ticks and environment changes never change `loading` |
| `StoreSpec.CallOf` | client/src/contexts/Okteto.context.tsx:51-91 | a CLI call is made exactly by a poll that runs (`contextList`) and by the first step of login, logout and selectContext; the only context ever deleted is the default one |
| `StoreSpec.SelectEnvironment` | client/src/contexts/Okteto.context.tsx:64-74 | stores an environment with the given file, with a link iff the current context is an Okteto instance, and changes no other field |
| `StoreSpec.CallsOf` | client/src/contexts/Okteto.context.tsx:51-91 | a run makes at most one CLI call per event, and every `contextDelete` along any run is of the default context |
| `StoreSpec.CallsOfAppend` | client/src/contexts/Okteto.context.tsx:51-109 | the calls of two runs in sequence are the calls of the first, then those of the second from the state the first ends in |
| `StoreSpec.PollWhileLoadingIsSkipped` | client/src/contexts/Okteto.context.tsx:104-107 | a tick while loading issues no CLI call and leaves every field unchanged |
| `StoreSpec.PollStoresList` | client/src/contexts/Okteto.context.tsx:91-92 | a tick that runs calls `contextList`, stores the returned list (empty when no value), becomes ready, and leaves the environment and `loading` unchanged |
| `StoreSpec.PollLoggedOutClearsContext` | client/src/contexts/Okteto.context.tsx:95-98 | after a poll whose list lacks the default context, the current context is null |
| `StoreSpec.PollFirstCurrentWins` | client/src/contexts/Okteto.context.tsx:96-100 | after a poll whose list holds the default context, the first entry flagged current is the current context |
| `StoreSpec.PollNoCurrentKeepsContext` | client/src/contexts/Okteto.context.tsx:99-101 | after a poll whose list holds the default context and no entry flagged current, the current context is unchanged |
| `StoreSpec.LoginKeepsContext` | client/src/contexts/Okteto.context.tsx:51-55 | login raises `loading`, calls `contextUse` with the default name, and ends with only `loading` cleared: the current context, list, environment and readiness are untouched |
| `StoreSpec.LogoutClearsEnvironment` | client/src/contexts/Okteto.context.tsx:57-62 | logout raises `loading`, calls `contextDelete` with the default name, and ends with no environment and `loading` cleared, everything else unchanged |
| `StoreSpec.SelectContextSetsReturned` | client/src/contexts/Okteto.context.tsx:76-84 | selectContext calls `contextUse(name)`; the current context changes only to a context the CLI returned and always to it when one is returned; it ends not loading with list, environment and readiness unchanged |
| `StoreSpec.SelectContextWhileLoggedOut` | client/src/contexts/Okteto.context.tsx:76-84 | after a poll of an empty list, selectContext answered with a context `dev` leaves `dev` current while the list lacks the default context, and the store is still `Consistent` |
| `StoreSpec.StopEnvironmentIdempotent` | client/src/contexts/Okteto.context.tsx:86-88 | stopEnvironment clears the environment and nothing else; a second one changes nothing; with no environment it changes nothing |
| `StoreSpec.SelectEnvironmentStoresFile` | client/src/contexts/Okteto.context.tsx:64-74 | selectEnvironment stores an environment with the given file and the link of the current context, and changes no other field |
| `StoreSpec.StepReady` | client/src/contexts/Okteto.context.tsx:106-108 | after any step the store is ready iff it was ready before, or the step was a poll tick that was not skipped |
| `StoreSpec.RunKeepsReady` | client/src/contexts/Okteto.context.tsx:49 | once ready, the store stays ready along every run of events |
| `StoreSpec.RunEndingInPollIsReady` | client/src/contexts/Okteto.context.tsx:107-108 | any run ending in a tick that finds the store not loading ends ready |
| `StoreSpec.InitialConsistent` | client/src/contexts/Okteto.context.tsx:45-49 | the initial state is neither loading nor ready and satisfies the invariant |
| `StoreSpec.StepConsistent` | client/src/contexts/Okteto.context.tsx:51-109 | every operation keeps the invariant: the list is empty until the store is ready, and every stored link is a dashboard link |
| `StoreSpec.RunConsistent` | client/src/contexts/Okteto.context.tsx:44-109 | every run of events from a consistent state ends consistent |
| `StoreSpec.TicksWhileLoadingAreSkipped` | client/src/contexts/Okteto.context.tsx:105-106 | any number of ticks while an operation is in flight change nothing and issue no CLI call |
| `StoreSpec.FirstPollOfEmptyList` | client/src/contexts/Okteto.context.tsx:90-108 | from the initial state, a poll returning `[]` leaves an empty list, no current context, and a ready store |
| `StoreSpec.LoginThenPoll` | client/src/contexts/Okteto.context.tsx:51-101 | login followed by a poll that reports the default context as current ends with it as current context, not loading, ready |
| `StoreSpec.LoginFinishedDuringSelectContext` | client/src/contexts/Okteto.context.tsx:51-55 | login's `setLoading(false)` clears `loading` while a selectContext started after it is still waiting: the state is the starting one with `loading` false, after calls `contextUse(default)` and `contextUse(name)` |
| `StoreSpec.LoginOverlapsSelectContext` | client/src/contexts/Okteto.context.tsx:51-108 | in that overlap the next tick is not skipped: it calls `contextList`, stores the list and sets `ready`; selectContext's answer then still becomes the current context, not loading, and the invariant holds; the calls are `contextUse(default)`, `contextUse(name)`, `contextList` |
| `StoreSpec.SelectEnvironmentOnCloud` | client/src/contexts/Okteto.context.tsx:64-74 | with current context `https://cloud.okteto.com` in namespace `ns1`, selecting `foo.yaml` gives the link `https://cloud.okteto.com/#/spaces/ns1` |
| `StoreSpec.SelectEnvironmentOnPremises` | client/src/contexts/Okteto.context.tsx:34-42 | with current context `my-onprem-cluster` (not a URL), selecting `foo.yaml` gives no link |
| `OktetoProvider.OktetoStore.constructor` | client/src/contexts/Okteto.context.tsx:45-49 | the store starts with no context, empty list, no environment, neither loading nor ready, and keeps the URL parser it is given for its lifetime |
| `OktetoProvider.OktetoStore.RefreshContext` | client/src/contexts/Okteto.context.tsx:90-102 | stores the list (empty when no value) and sets the current context as `Reconcile` prescribes; environment, `loading` and `ready` unchanged |
| `OktetoProvider.OktetoStore.PollTick` | client/src/contexts/Okteto.context.tsx:104-109 | takes the poll step and keeps the invariant; while loading it calls nothing and changes nothing; `ready` never goes back to false |
| `OktetoProvider.OktetoStore.BeginLogin` | client/src/contexts/Okteto.context.tsx:52-53 | raises `loading` and issues `contextUse` with the default context name |
| `OktetoProvider.OktetoStore.EndLogin` | client/src/contexts/Okteto.context.tsx:54 | clears `loading`, leaves the current context as it was |
| `OktetoProvider.OktetoStore.BeginLogout` | client/src/contexts/Okteto.context.tsx:58-59 | raises `loading` and issues `contextDelete` with the default context name |
| `OktetoProvider.OktetoStore.EndLogout` | client/src/contexts/Okteto.context.tsx:60-61 | clears the environment and `loading` |
| `OktetoProvider.OktetoStore.BeginSelectContext` | client/src/contexts/Okteto.context.tsx:78-79 | raises `loading` and issues `contextUse` with the given name |
| `OktetoProvider.OktetoStore.EndSelectContext` | client/src/contexts/Okteto.context.tsx:80-83 | adopts the returned context if there is one, else keeps the current one; clears `loading` |
| `OktetoProvider.OktetoStore.SelectEnvironment` | client/src/contexts/Okteto.context.tsx:64-74 | stores the file with the link `EnvironmentLink` gives for the current context under the store's own URL parser; keeps the invariant |
| `OktetoProvider.OktetoStore.StopEnvironment` | client/src/contexts/Okteto.context.tsx:86-88 | clears the environment and nothing else |
| `OktetoProvider.LoginWithPolls` | client/src/contexts/Okteto.context.tsx:51-109 | returns the call and state of a tick during a login: no call, and the state before the login with only `loading` raised; after the login, a tick reporting the default context as current makes it the current context, not loading, ready |

## Left out

- `client/src/components/Link.tsx` is not part of this model. It is a
  presentational component whose only logic hands `href` to the desktop
  host's `openExternal`, a foreign host call.
- React wiring: `createContext`/`useContext`, the provider's rendering
  (lines 111-127) and the error `useOkteto` throws outside a provider
  (lines 130-135). None of it changes the store's state.
- The `use-interval` timer and its 3000 ms period. A tick is one call of
  `PollTick`; clock time is not modelled.
- Interleaving inside a step. Overlapping operations are covered at the
  level of their start and completion steps: any order of events is a run
  (`StoreSpec.LoginOverlapsSelectContext` is one). Two cases are not: a
  poll tick is one atomic step, so a poll whose `contextList()` is still
  pending when a user operation starts is not modelled; and React closures
  that read a stale `loading` or `currentContext` are not modelled.
- The `okteto` CLI API (`../api/okteto`). Its answers are method parameters
  and its calls are returned values (`CliCall`).
- Rejected promises. The source does not handle them, so no failure path is
  modelled.
- WHATWG URL parsing beyond the protocol it yields. It is the `urlProtocol`
  parameter.
- A CLI answer whose `value` is `null` rather than `undefined`. The
  destructuring default would not replace it, and the following `find`
  would throw. `StoreSpec.ListOrEmpty` models only a present or an
  `undefined` value.
