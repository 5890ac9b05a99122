# history-observer, modelled in Dafny

`history-observer` watches the browser's navigation state — `location.pathname`,
`location.search` and `history.state` — and tells subscribers when it changes.
Browsers do not report every change, so the observer polls: while its interval
runs, each tick takes a snapshot (`LocationCast`) of the host, compares it with
the stored one and, on a difference, stores the new snapshot and calls every
subscriber with it. `subscribe` registers a callback under a fresh uuid and
returns a closure that unsubscribes it; `push` forwards to `history.pushState`.

The model has six modules:

- `Json` (json.dfy): the history state as a JSON-like datatype, and `DeepEqual`,
  the structural equality `lodash/isEqual` computes on such values, proved to be
  datatype equality.
- `Snapshot` (snapshot.dfy): the `LocationCast` value, its constructor
  `Capture` and its predicate `IsUpdated`.
- `Registry` (registry.dfy): the subscriber object as an insertion-ordered
  sequence of `(id, callback)` pairs, with `Object.keys`, property read,
  property assignment and `delete`.
- `ObserverModel` (observer_model.dfy): the observer and the part of the host it
  touches as one value, `Model`, with one function per operation, and the
  invariant `Inv` every operation keeps: keys are distinct and generated, the
  held interval handle is one the host gave out, the host runs exactly that
  interval (so at most one exists), and no interval runs while the registry is
  empty.
- `ObserverProperties` (observer_properties.dfy): lemmas over several calls —
  the polling lifecycle as coded, the fan-out of one tick, and scenarios.
- `Observer` (observer.dfy): the class `HistoryObserver`, whose methods update
  its fields in place and are each specified by the `ObserverModel` transition
  they perform (`State() == ObserverModel.Subscribe(old(State()), id, cb)`).

Host values are explicit: the browser's location and history state are the
fields `hostLocation` and `hostState`; `setInterval` is a handle counter
`handlesIssued` (handles start at 1, so a held handle is always truthy) plus the
table `liveTimers` of intervals not yet cleared; `clearInterval` removes from
that table; `pushState` appends to `pushLog`; invoking a callback appends an
`(id, callback, snapshot)` entry to `notified`. The uuid generator is the `id`
parameter of `Subscribe`, required to be outside the set `issued` of ids
generated so far. The closure `subscribe` returns is `Unsubscriber(id)`;
calling it is `Unsubscribe(id)`.

The lifecycle follows the code, not the intended rule "polling iff someone is
subscribed": `updateWatcher` stops a running interval whenever one is held, so
every `subscribe` flips polling (`ObserverProperties.SubscribeParity`), a
second subscriber turns it off, and calling a stale unsubscribe closure can
still start or stop it. Only the half "no polling with an empty registry"
holds, and it is part of `Inv`. The class keeps this as-written rule because it
is what the observer does; the corrected rule is given beside it
(`ObserverModel.SyncWatcher`, and `SubscribeSynced` and `UnsubscribeSynced`
built on it) with its property proved, see Findings.

## Model

| member | source | states |
|---|---|---|
| `Json.DeepEqualIsEquality` | src/index.ts:25-28 | deep structural equality of two state values holds exactly when they are the same value, so datatype equality stands for `isEqual` |
| `Snapshot.Capture` | src/index.ts:17-21 | the snapshot holds the history state, the search string and the pathname exactly as the host gave them; it never fails |
| `Snapshot.LocationCast.IsUpdated` | src/index.ts:23-28 | true exactly when the pathname differs, or the search differs, or the state is not deeply equal; equivalently, when a fresh snapshot of the host would differ from this one |
| `Snapshot.CaptureIsNotUpdated` | src/index.ts:17-28 | a snapshot is never updated against the very values it was taken from |
| `Snapshot.NestedStateChangeIsUpdated` | src/index.ts:23-28 | changing one field inside an object state, with path and query unchanged, is detected |
| `Registry.Keys` | src/index.ts:84 | `Object.keys` lists one id per entry, the i-th entry's id at position i |
| `Registry.Insert` | src/index.ts:45 | assigning `obj[id]` adds `id` at the end if new and keeps the key order otherwise, reads back the new value, and leaves every other key's value alone |
| `Registry.Delete` | src/index.ts:55 | `delete obj[id]` leaves exactly the other keys with their values; with `id` absent the object is unchanged |
| `Registry.LookupFound` | src/index.ts:86 | reading `obj[id]` (`Registry.Lookup`) for a present key gives the value of an entry stored under `id` |
| `Registry.LookupAt` | src/index.ts:86 | with distinct keys, reading the i-th key gives the i-th callback |
| `Registry.InsertKeepsDistinct` | src/index.ts:45 | assignment keeps keys distinct |
| `Registry.DeleteKeepsDistinct` | src/index.ts:55 | deletion keeps keys distinct and removes exactly one entry when the key was present |
| `Registry.DeleteIdempotent` | src/index.ts:55 | deleting a key twice is deleting it once |
| `ObserverModel.Initial` | src/index.ts:33-41 | the new observer holds a snapshot of the host, an empty registry, no handle, and satisfies the invariant |
| `ObserverModel.StartWatcher` | src/index.ts:67-69 | a new, never-issued handle is held and its interval is added to the host's running intervals; the invariant is kept when no handle was held |
| `ObserverModel.StopWatcher` | src/index.ts:71-74 | the handle is dropped and, under the invariant, the host runs no interval afterwards |
| `ObserverModel.UpdateWatcher` | src/index.ts:59-65 | as coded: afterwards a handle is held exactly when none was held and the registry is non-empty; only timer fields change; the timer invariant is kept |
| `ObserverModel.SyncWatcher` | src/index.ts:59-65 | the corrected rule: afterwards a handle is held exactly when the registry is non-empty |
| `ObserverModel.SubscribeSynced` | src/index.ts:43-49 | `subscribe` under the corrected rule: adds `id` to the key order, afterwards polling is always on, and the invariant is kept for a fresh id |
| `ObserverModel.UnsubscribeSynced` | src/index.ts:54-57 | `unsubscribe` under the corrected rule: exactly the other keys remain, afterwards polling is on exactly when the registry is non-empty, and the invariant is kept |
| `ObserverModel.Subscribe` | src/index.ts:43-49 | adds exactly `id -> cb` (appended to the key order), leaves other entries, flips polling, touches neither snapshot nor logs, and keeps the invariant for a fresh id |
| `ObserverModel.Unsubscribe` | src/index.ts:54-57 | removes only `id`, an absent id leaves the registry unchanged, afterwards polling runs exactly when the registry is non-empty and none ran before, and the invariant is kept |
| `ObserverModel.Invocations` | src/index.ts:84-89 | one invocation per captured key |
| `ObserverModel.InvocationsExtend` | src/index.ts:84-89 | handling one more captured key appends exactly the invocation of the callback read under it, with the shared snapshot |
| `ObserverModel.InvocationsAt` | src/index.ts:84-89 | the i-th invocation is for the i-th captured key, with the callback read under it |
| `ObserverModel.FanOut` | src/index.ts:84-89 | the fan-out over `Object.keys` of the registry makes one invocation per entry |
| `ObserverModel.FanOutAt` | src/index.ts:84-89 | with distinct keys, the i-th invocation is the i-th entry's callback under its id, with the shared snapshot |
| `ObserverModel.FanOutIds` | src/index.ts:84-89 | every invocation of a fan-out carries the shared snapshot and an id that is a registry key |
| `ObserverModel.CallSubscribers` | src/index.ts:84-89 | one notification per entry is appended after the earlier ones, each with the shared snapshot and a registered id; nothing but the notification log changes |
| `ObserverModel.Watch` | src/index.ts:76-82 | unchanged host: nothing changes; changed host: the stored snapshot becomes a snapshot of the host and the fan-out is appended to the log; afterwards the snapshot matches the host; registry, timer and push log never change |
| `ObserverModel.Push` | src/index.ts:92-94 | exactly one `pushState(state, '', path)` is logged after the earlier ones; snapshot, registry, timer and notifications are untouched |
| `ObserverProperties.AtMostOneTimer` | src/index.ts:59-74 | between calls at most one interval runs, and only while the registry is non-empty |
| `ObserverProperties.SubscribeParity` | src/index.ts:43-65 | after n subscriptions polling is on exactly when it was off and n is odd, or on and n is even |
| `ObserverProperties.SecondSubscribeStopsPolling` | src/index.ts:43-65 | from an idle observer, the first subscription starts polling and the second stops it, leaving two subscribers and no interval |
| `ObserverProperties.UnsubscribeOneOfTwoStopsPolling` | src/index.ts:54-65 | with two subscribers and polling on, unsubscribing one leaves one subscriber and no interval |
| `ObserverProperties.StaleUnsubscribeTogglesPolling` | src/index.ts:48-65 | a closure whose id is gone leaves the registry unchanged but starts polling when subscribers remain and none ran |
| `ObserverProperties.UnsubscribeTwiceSameRegistry` | src/index.ts:48-57 | calling a closure twice leaves the registry as calling it once |
| `ObserverProperties.LastUnsubscribeStopsPolling` | src/index.ts:54-65 | unsubscribing the only subscriber empties the registry and leaves no interval |
| `ObserverProperties.UnsubscribeAllStopsPolling` | src/index.ts:54-65 | unsubscribing every registered id, in any order and with stale ids mixed in, ends with an empty registry and no interval |
| `ObserverProperties.FanOutNotifiesEachOnce` | src/index.ts:84-89 | the notified ids are exactly the registry keys in order, all with the one snapshot, and (keys being distinct) each with its own callback |
| `ObserverProperties.WatchIdempotent` | src/index.ts:76-82 | a second tick with no host change between does nothing |
| `ObserverProperties.NavigationScenario` | src/index.ts:39-89 | start at "/a"; subscribe; host moves to "/b"; the tick invokes the callback once with a "/b" snapshot |
| `ObserverProperties.TwoSubscriptions` | src/index.ts:43-65 | two subscriptions on an idle observer hold both entries in order and leave no interval running |
| `ObserverProperties.TickWithTwoSubscribers` | src/index.ts:76-89 | a tick that sees a change with two entries invokes both, in order, with the same fresh snapshot |
| `ObserverProperties.TwoSubscribersScenario` | src/index.ts:43-89 | two subscribers leave no running interval; a tick after a state change invokes both, in order, with the same snapshot |
| `ObserverProperties.SubscribeUnsubscribeScenario` | src/index.ts:43-82 | subscribe then unsubscribe before any tick: polling off, and a tick after a host change invokes nothing |
| `ObserverProperties.RepeatedUnsubscribeScenario` | src/index.ts:43-65 | after two subscriptions, unsubscribing the first turns polling on; calling the same closure again changes no entry but turns it off |
| `ObserverProperties.SyncWatcherPollsIffSubscribed` | src/index.ts:43-65 | under the corrected rule, two subscriptions keep exactly one interval running, and unsubscribing both empties the registry and leaves no interval |
| `ObserverProperties.PushDoesNotNotify` | src/index.ts:92-94 | `push` itself invokes no callback |
| `ObserverProperties.PushThenTick` | src/index.ts:76-94 | after `push` and the host's update to the pushed path and state, a tick stores the pushed location and notifies every subscriber with it when path or state differ from the stored snapshot, and notifies nobody otherwise; someone is notified exactly when there is a difference and a subscriber |
| `Observer.HistoryObserver.constructor` | src/index.ts:39-41 | the object starts in `ObserverModel.Initial` of the host's values |
| `Observer.HistoryObserver.Subscribe` | src/index.ts:43-49 | performs `ObserverModel.Subscribe`, keeps the invariant, returns the closure bound to `id` |
| `Observer.HistoryObserver.Listen` | src/index.ts:52 | the same as `Subscribe` |
| `Observer.HistoryObserver.Unsubscribe` | src/index.ts:54-57 | performs `ObserverModel.Unsubscribe` and keeps the invariant |
| `Observer.HistoryObserver.UpdateWatcher` | src/index.ts:59-65 | performs `ObserverModel.UpdateWatcher` |
| `Observer.HistoryObserver.StartWatcher` | src/index.ts:67-69 | performs `ObserverModel.StartWatcher` |
| `Observer.HistoryObserver.StopWatcher` | src/index.ts:71-74 | performs `ObserverModel.StopWatcher` |
| `Observer.HistoryObserver.Watch` | src/index.ts:76-82 | performs `ObserverModel.Watch` and keeps the invariant |
| `Observer.HistoryObserver.CallSubscribers` | src/index.ts:84-89 | the loop over the captured keys, reading each callback under its key, appends exactly `ObserverModel.FanOut` of the registry to the notification log and changes nothing else |
| `Observer.HistoryObserver.Push` | src/index.ts:92-94 | performs `ObserverModel.Push` |

## Left out

- The browser itself: `window.location`, `window.history` and the timer functions are host fields, as described above; the host's reaction to `pushState` is `ObserverModel.HostAfterPush`, which sets the host's state and location to the pushed ones for a path without a query string; resolving a relative URL, a query string in the path and the browser's history stack are not modelled.
- Timing: the 100 ms cadence is not modelled; a tick is an explicit call of `Watch`, and the model does not tie calls of `Watch` to a running interval (`liveTimers` says whether one could fire).
- `uuid/v4` is a foreign call: the id is a parameter, and its freshness is the precondition `id !in issued`.
- `lodash/isEqual` is library code: `Json.DeepEqual` stands for it on acyclic JSON-like values; `undefined`, `NaN`, `-0`, Dates, Maps, class instances and cyclic values are not modelled, and numbers are unbounded integers.
- `lodash/isEmpty` on the registry object is `subscribers != []`.
- Callback bodies: a callback is an opaque value that is recorded when invoked. A callback that subscribes or unsubscribes during the fan-out, one that throws, and the `TypeError` the source raises when a callback has deleted a later key before its turn are not modelled.
- The guard `this.location &&` in `watch` is always true once the constructor has run, and is modelled as such.
- Registry.Delete: its contract states which keys remain and their values, not that the remaining keys keep their relative order (the body does keep it).
- `Object.keys` lists integer-like keys first in numeric order; uuid strings are never integer-like, so the model uses plain insertion order.
- `updateWatcher` is evidently meant to keep polling on exactly while someone is subscribed; the code does not do that, and the model follows the code (see Findings).

## Findings

| source | as written | input that shows it | evidently intended | confidence | as-written member | corrected member |
|---|---|---|---|---|---|---|
| src/index.ts:59-65 | `else if (this.watcherInterval)` stops the interval whenever a handle is held, even while subscribers remain | on an idle observer, `subscribe(a)` then `subscribe(b)`: two subscribers and no interval, so neither is notified of navigation until another subscribe or unsubscribe call | start when the registry is non-empty and no handle is held; stop only when the registry is empty | high; not executed | `ObserverModel.UpdateWatcher`, shown by `ObserverProperties.SecondSubscribeStopsPolling` | `ObserverModel.SyncWatcher` with `ObserverModel.SubscribeSynced` and `ObserverModel.UnsubscribeSynced`, proved by their contracts and `ObserverProperties.SyncWatcherPollsIffSubscribed` |
