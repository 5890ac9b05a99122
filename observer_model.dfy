/**
 * The `HistoryObserver` state machine as values: its own fields (registry,
 * interval handle, current snapshot) together with the parts of the host it
 * reads and writes (current location and state, the interval table, the log
 * of `pushState` calls and the log of callback invocations). Each operation is
 * a function from the old state to the new one.
 */
module ObserverModel {
  import opened Json
  import opened Snapshot
  import opened Registry

  datatype Option<T> = None | Some(value: T)

  /** One invocation `callback(snapshot)` made while fanning out a change. */
  datatype Notification<Cb> = Notification(id: Id, callback: Cb, snapshot: LocationCast)

  /** One call `history.pushState(state, title, url)`. */
  datatype PushCall = PushCall(state: Json, title: string, url: string)

  datatype Model<Cb> = Model(
    // the observer's fields
    subscribers: seq<(Id, Cb)>,
    watcherInterval: Option<nat>,
    location: LocationCast,
    // the host
    hostLocation: Location,
    hostState: Json,
    handlesIssued: nat,  // setInterval hands out 1, 2, 3, ...
    liveTimers: set<nat>,  // handles of intervals not yet cleared
    pushLog: seq<PushCall>,
    notified: seq<Notification<Cb>>,
    issued: set<Id>  // every id the id generator has produced so far
  )

  /** The host intervals that exist while the observer holds `w`. */
  function TimerSet(w: Option<nat>): set<nat>
  {
    if w.Some? then {w.value} else {}
  }

  /** The registry is a well-formed object whose ids all came from the generator. */
  ghost predicate RegistryInv<Cb>(m: Model<Cb>)
  {
    && Distinct(Keys(m.subscribers))
    && (forall k :: k in Keys(m.subscribers) ==> k in m.issued)
  }

  /**
   * The handle is one the host gave out (so it is a positive number, and
   * truthy), and the host has exactly that interval running: no interval is
   * leaked and at most one exists.
   */
  ghost predicate TimerInv<Cb>(m: Model<Cb>)
  {
    && (m.watcherInterval.Some? ==> 0 < m.watcherInterval.value <= m.handlesIssued)
    && m.liveTimers == TimerSet(m.watcherInterval)
  }

  /**
   * What holds between any two calls into the observer. Polling is never on
   * with an empty registry; the converse does not hold (see
   * SecondSubscribeStopsPolling).
   */
  ghost predicate Inv<Cb>(m: Model<Cb>)
  {
    && RegistryInv(m)
    && TimerInv(m)
    && (m.subscribers == [] ==> m.watcherInterval.None?)
  }

  /** The constructor: snapshot the host once; empty registry, no interval. */
  function Initial<Cb>(hostLocation: Location, hostState: Json, handlesIssued: nat): (r: Model<Cb>)
    ensures Inv(r)
    ensures r.location == Capture(hostState, hostLocation)
    ensures r.subscribers == [] && r.watcherInterval.None?
  {
    Model([], None, Capture(hostState, hostLocation), hostLocation, hostState,
          handlesIssued, {}, [], [], {})
  }

  /** `startWatcher`: `setInterval` allocates the next handle, which the observer keeps. */
  function StartWatcher<Cb>(m: Model<Cb>): (r: Model<Cb>)
    ensures r.watcherInterval.Some? && r.watcherInterval.value > m.handlesIssued
    ensures r.liveTimers == m.liveTimers + {r.watcherInterval.value}
    ensures TimerInv(m) && m.watcherInterval.None? ==> TimerInv(r)
  {
    var handle := m.handlesIssued + 1;
    m.(watcherInterval := Some(handle), handlesIssued := handle,
       liveTimers := m.liveTimers + {handle})
  }

  /** `stopWatcher`: `clearInterval` on the held handle, then forget it. */
  function StopWatcher<Cb>(m: Model<Cb>): (r: Model<Cb>)
    ensures r.watcherInterval.None?
    ensures TimerInv(m) ==> TimerInv(r) && r.liveTimers == {}
  {
    var live := if m.watcherInterval.Some? then m.liveTimers - {m.watcherInterval.value} else m.liveTimers;
    m.(watcherInterval := None, liveTimers := live)
  }

  /**
   * `updateWatcher` as written: start when the registry is non-empty and no
   * handle is held; otherwise stop when a handle is held; otherwise nothing.
   * Hence, after it, a handle is held exactly when none was held before and
   * the registry is non-empty, and only the timer fields change.
   */
  function UpdateWatcher<Cb>(m: Model<Cb>): (r: Model<Cb>)
    ensures r.watcherInterval.Some? <==> m.subscribers != [] && m.watcherInterval.None?
    ensures r.(watcherInterval := m.watcherInterval, handlesIssued := m.handlesIssued,
               liveTimers := m.liveTimers) == m
    ensures TimerInv(m) ==> TimerInv(r)
  {
    if m.subscribers != [] && m.watcherInterval.None? then StartWatcher(m)
    else if m.watcherInterval.Some? then StopWatcher(m)
    else m
  }

  /**
   * The lifecycle rule `updateWatcher` evidently means to follow: start when
   * the registry is non-empty and no handle is held, stop when the registry is
   * empty and a handle is held. Afterwards polling is on exactly when the
   * registry is non-empty.
   */
  function SyncWatcher<Cb>(m: Model<Cb>): (r: Model<Cb>)
    ensures r.watcherInterval.Some? <==> m.subscribers != []
    ensures r.(watcherInterval := m.watcherInterval, handlesIssued := m.handlesIssued,
               liveTimers := m.liveTimers) == m
    ensures TimerInv(m) ==> TimerInv(r)
  {
    if m.subscribers != [] && m.watcherInterval.None? then StartWatcher(m)
    else if m.subscribers == [] && m.watcherInterval.Some? then StopWatcher(m)
    else m
  }

  /** `subscribe` with the corrected lifecycle rule. */
  function SubscribeSynced<Cb>(m: Model<Cb>, id: Id, cb: Cb): (r: Model<Cb>)
    ensures Keys(r.subscribers) == if id in Keys(m.subscribers) then Keys(m.subscribers) else Keys(m.subscribers) + [id]
    ensures r.watcherInterval.Some?
    ensures TimerInv(m) ==> TimerInv(r)
    ensures Inv(m) && id !in m.issued ==> Inv(r)
  {
    var inserted := m.(subscribers := Insert(m.subscribers, id, cb), issued := m.issued + {id});
    assert Keys(inserted.subscribers) != [];
    assert Distinct(Keys(m.subscribers)) ==> Distinct(Keys(inserted.subscribers)) by {
      if Distinct(Keys(m.subscribers)) { InsertKeepsDistinct(m.subscribers, id, cb); }
    }
    SyncWatcher(inserted)
  }

  /** `unsubscribe` with the corrected lifecycle rule. */
  function UnsubscribeSynced<Cb>(m: Model<Cb>, id: Id): (r: Model<Cb>)
    ensures forall k :: k in Keys(r.subscribers) <==> k in Keys(m.subscribers) && k != id
    ensures r.watcherInterval.Some? <==> r.subscribers != []
    ensures Inv(m) ==> Inv(r)
  {
    assert Distinct(Keys(m.subscribers)) ==> Distinct(Keys(Delete(m.subscribers, id))) by {
      if Distinct(Keys(m.subscribers)) { DeleteKeepsDistinct(m.subscribers, id); }
    }
    SyncWatcher(m.(subscribers := Delete(m.subscribers, id)))
  }

  /**
   * `subscribe(cb)` with `id` the generated uuid: adds exactly `id -> cb`,
   * leaves every other entry alone, and then runs `updateWatcher`, which
   * always flips polling (the registry is non-empty at that point).
   */
  function Subscribe<Cb>(m: Model<Cb>, id: Id, cb: Cb): (r: Model<Cb>)
    ensures Keys(r.subscribers) == if id in Keys(m.subscribers) then Keys(m.subscribers) else Keys(m.subscribers) + [id]
    ensures Lookup(r.subscribers, id) == cb
    ensures forall k :: k in Keys(m.subscribers) && k != id ==> Lookup(r.subscribers, k) == Lookup(m.subscribers, k)
    ensures r.watcherInterval.Some? <==> m.watcherInterval.None?
    ensures r.location == m.location && r.notified == m.notified && r.pushLog == m.pushLog
    ensures r.hostLocation == m.hostLocation && r.hostState == m.hostState
    ensures Inv(m) && id !in m.issued ==> Inv(r)
  {
    var inserted := m.(subscribers := Insert(m.subscribers, id, cb), issued := m.issued + {id});
    assert Keys(inserted.subscribers) != [];
    assert Distinct(Keys(m.subscribers)) ==> Distinct(Keys(inserted.subscribers)) by {
      if Distinct(Keys(m.subscribers)) { InsertKeepsDistinct(m.subscribers, id, cb); }
    }
    UpdateWatcher(inserted)
  }

  /**
   * `unsubscribe(id)`, the body of the closure `subscribe` returns: removes
   * only `id` (nothing when it is absent) and then runs `updateWatcher`.
   */
  function Unsubscribe<Cb>(m: Model<Cb>, id: Id): (r: Model<Cb>)
    ensures forall k :: k in Keys(r.subscribers) <==> k in Keys(m.subscribers) && k != id
    ensures forall k :: k in Keys(r.subscribers) ==> Lookup(r.subscribers, k) == Lookup(m.subscribers, k)
    ensures id !in Keys(m.subscribers) ==> r.subscribers == m.subscribers
    ensures r.watcherInterval.Some? <==> r.subscribers != [] && m.watcherInterval.None?
    ensures r.location == m.location && r.notified == m.notified && r.pushLog == m.pushLog
    ensures r.hostLocation == m.hostLocation && r.hostState == m.hostState && r.issued == m.issued
    ensures Inv(m) ==> Inv(r)
  {
    assert Distinct(Keys(m.subscribers)) ==> Distinct(Keys(Delete(m.subscribers, id))) by {
      if Distinct(Keys(m.subscribers)) { DeleteKeepsDistinct(m.subscribers, id); }
    }
    UpdateWatcher(m.(subscribers := Delete(m.subscribers, id)))
  }

  /**
   * The invocations `callSubscribers` makes for the captured key list `ids`:
   * for each key in turn, the callback read under it, with `c`.
   */
  function Invocations<Cb>(reg: seq<(Id, Cb)>, ids: seq<Id>, c: LocationCast): (r: seq<Notification<Cb>>)
    requires forall k :: k in ids ==> k in Keys(reg)
    ensures |r| == |ids|
  {
    if ids == [] then []
    else
      var last := ids[|ids| - 1];
      Invocations(reg, ids[..|ids| - 1], c) + [Notification(last, Lookup(reg, last), c)]
  }

  /** The fan-out of one detected change: the invocations for `Object.keys` of the registry. */
  function FanOut<Cb>(reg: seq<(Id, Cb)>, c: LocationCast): (r: seq<Notification<Cb>>)
    ensures |r| == |reg|
  {
    Invocations(reg, Keys(reg), c)
  }

  /** Invoking for one more captured key appends exactly its invocation. */
  lemma InvocationsExtend<Cb>(reg: seq<(Id, Cb)>, ids: seq<Id>, i: nat, c: LocationCast)
    requires forall k :: k in ids ==> k in Keys(reg)
    requires i < |ids|
    ensures Invocations(reg, ids[..i + 1], c)
         == Invocations(reg, ids[..i], c) + [Notification(ids[i], Lookup(reg, ids[i]), c)]
  {
    assert ids[..i + 1][..i] == ids[..i];
  }

  /** The i-th invocation is for the i-th captured key. */
  lemma {:induction false} InvocationsAt<Cb>(reg: seq<(Id, Cb)>, ids: seq<Id>, c: LocationCast, i: nat)
    requires forall k :: k in ids ==> k in Keys(reg)
    requires i < |ids|
    ensures Invocations(reg, ids, c)[i] == Notification(ids[i], Lookup(reg, ids[i]), c)
  {
    var last := |ids| - 1;
    if i < last {
      assert ids[..last][i] == ids[i];
      InvocationsAt(reg, ids[..last], c, i);
    }
  }

  /**
   * With distinct keys, the i-th invocation of a fan-out is the i-th entry's
   * callback, under its id, with `c`.
   */
  lemma FanOutAt<Cb>(reg: seq<(Id, Cb)>, c: LocationCast, i: nat)
    requires Distinct(Keys(reg))
    requires i < |reg|
    ensures FanOut(reg, c)[i] == Notification(reg[i].0, reg[i].1, c)
  {
    InvocationsAt(reg, Keys(reg), c, i);
    LookupAt(reg, i);
  }

  /** Every invocation of a fan-out carries `c` and a registered id. */
  lemma FanOutIds<Cb>(reg: seq<(Id, Cb)>, c: LocationCast)
    ensures forall n :: n in FanOut(reg, c) ==> n.snapshot == c && n.id in Keys(reg)
  {
    forall i | 0 <= i < |reg|
      ensures FanOut(reg, c)[i] == Notification(Keys(reg)[i], Lookup(reg, Keys(reg)[i]), c)
    {
      InvocationsAt(reg, Keys(reg), c, i);
    }
  }

  /** The ids, in order, of a run of notifications. */
  function NotifiedIds<Cb>(ns: seq<Notification<Cb>>): (ids: seq<Id>)
    ensures |ids| == |ns|
    ensures forall i :: 0 <= i < |ns| ==> ids[i] == ns[i].id
  {
    if ns == [] then [] else [ns[0].id] + NotifiedIds(ns[1..])
  }

  /** `callSubscribers(c)`: every registered callback is invoked with `c`. */
  function CallSubscribers<Cb>(m: Model<Cb>, c: LocationCast): (r: Model<Cb>)
    ensures |r.notified| == |m.notified| + |m.subscribers| && r.notified[..|m.notified|] == m.notified
    ensures forall n :: n in r.notified[|m.notified|..] ==> n.snapshot == c && n.id in Keys(m.subscribers)
    ensures r.(notified := m.notified) == m
  {
    FanOutIds(m.subscribers, c);
    m.(notified := m.notified + FanOut(m.subscribers, c))
  }

  /**
   * The poll tick `watch`: when the host differs from the stored snapshot,
   * store a fresh snapshot of the host and fan it out; otherwise nothing.
   */
  function Watch<Cb>(m: Model<Cb>): (r: Model<Cb>)
    ensures !m.location.IsUpdated(m.hostState, m.hostLocation) ==> r == m
    ensures m.location.IsUpdated(m.hostState, m.hostLocation) ==>
              && r.location == Capture(m.hostState, m.hostLocation)
              && r.notified == m.notified + FanOut(m.subscribers, r.location)
    ensures !r.location.IsUpdated(r.hostState, r.hostLocation)
    ensures r.subscribers == m.subscribers && r.watcherInterval == m.watcherInterval
    ensures r.liveTimers == m.liveTimers && r.pushLog == m.pushLog
    ensures Inv(m) ==> Inv(r)
  {
    if m.location.IsUpdated(m.hostState, m.hostLocation) then
      var c := Capture(m.hostState, m.hostLocation);
      CallSubscribers(m.(location := c), c)
    else
      m
  }

  /**
   * `push(path, state)`: one `pushState(state, '', path)` call is recorded and
   * nothing of the observer changes, so no callback runs synchronously.
   */
  function Push<Cb>(m: Model<Cb>, path: string, state: Json): (r: Model<Cb>)
    ensures |r.pushLog| == |m.pushLog| + 1 && r.pushLog[..|m.pushLog|] == m.pushLog
    ensures r.pushLog[|m.pushLog|] == PushCall(state, "", path)
    ensures r.notified == m.notified && r.location == m.location
    ensures r.subscribers == m.subscribers && r.watcherInterval == m.watcherInterval
    ensures Inv(m) ==> Inv(r)
  {
    m.(pushLog := m.pushLog + [PushCall(state, "", path)])
  }

  /**
   * What the host does with a `pushState(state, '', path)` call, for a path
   * without a query string: the history state and the location become the
   * pushed ones.
   */
  function HostAfterPush<Cb>(m: Model<Cb>, path: string, state: Json): Model<Cb>
  {
    m.(hostState := state, hostLocation := Location(path, ""))
  }
}
