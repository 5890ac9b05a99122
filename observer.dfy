/**
 * `HistoryObserver` as an object whose methods update its fields in place.
 * The host (`window`) appears as fields too: the current location and
 * history state, `setInterval`'s handle counter and its table of running
 * intervals, the `pushState` call log and the log of callback invocations.
 * Every method is specified by the corresponding transition of ObserverModel.
 */
module Observer {
  import opened Json
  import opened Snapshot
  import opened Registry
  import M = ObserverModel

  /** The closure `subscribe` returns: it captures the subscription id. */
  datatype Unsubscriber = Unsubscriber(id: Id)

  class HistoryObserver<Cb> {
    var subscribers: seq<(Id, Cb)>
    var watcherInterval: M.Option<nat>
    var location: LocationCast

    var hostLocation: Location
    var hostState: Json
    var handlesIssued: nat
    var liveTimers: set<nat>
    var pushLog: seq<M.PushCall>
    var notified: seq<M.Notification<Cb>>
    ghost var issued: set<Id>

    ghost function State(): M.Model<Cb>
      reads this
    {
      M.Model(subscribers, watcherInterval, location, hostLocation, hostState,
              handlesIssued, liveTimers, pushLog, notified, issued)
    }

    ghost predicate Valid()
      reads this
    {
      M.Inv(State())
    }

    /** Reads the host once; `handlesIssued` is how many intervals the host has handed out. */
    constructor (hostLocation: Location, hostState: Json, handlesIssued: nat)
      ensures Valid()
      ensures State() == M.Initial(hostLocation, hostState, handlesIssued)
    {
      this.subscribers := [];
      this.watcherInterval := M.None;
      this.location := Capture(hostState, hostLocation);
      this.hostLocation := hostLocation;
      this.hostState := hostState;
      this.handlesIssued := handlesIssued;
      this.liveTimers := {};
      this.pushLog := [];
      this.notified := [];
      this.issued := {};
    }

    /** `subscribe`; `id` is the value the uuid generator returns, never seen before. */
    method Subscribe(subscriber: Cb, id: Id) returns (unsubscribe: Unsubscriber)
      requires Valid() && id !in issued
      modifies this
      ensures Valid()
      ensures State() == M.Subscribe(old(State()), id, subscriber)
      ensures unsubscribe == Unsubscriber(id)
    {
      subscribers := Insert(subscribers, id, subscriber);
      issued := issued + {id};
      UpdateWatcher();
      assert State() == M.Subscribe(old(State()), id, subscriber);
      unsubscribe := Unsubscriber(id);
    }

    /** `listen`, the same function as `subscribe`. */
    method Listen(subscriber: Cb, id: Id) returns (unsubscribe: Unsubscriber)
      requires Valid() && id !in issued
      modifies this
      ensures Valid()
      ensures State() == M.Subscribe(old(State()), id, subscriber)
      ensures unsubscribe == Unsubscriber(id)
    {
      unsubscribe := Subscribe(subscriber, id);
    }

    /** `unsubscribe(id)`, which the closure returned by `subscribe` calls. */
    method Unsubscribe(id: Id)
      requires Valid()
      modifies this
      ensures Valid()
      ensures State() == M.Unsubscribe(old(State()), id)
    {
      subscribers := Delete(subscribers, id);
      UpdateWatcher();
      assert State() == M.Unsubscribe(old(State()), id);
    }

    method UpdateWatcher()
      modifies this
      ensures State() == M.UpdateWatcher(old(State()))
    {
      if subscribers != [] && watcherInterval.None? {
        StartWatcher();
      } else if watcherInterval.Some? {
        StopWatcher();
      }
    }

    /** `setInterval(watch, 100)` hands out the next handle and runs that interval. */
    method StartWatcher()
      modifies this
      ensures State() == M.StartWatcher(old(State()))
    {
      handlesIssued := handlesIssued + 1;
      liveTimers := liveTimers + {handlesIssued};
      watcherInterval := M.Some(handlesIssued);
    }

    /** `clearInterval` on the held handle (a no-op on `undefined`), then forget it. */
    method StopWatcher()
      modifies this
      ensures State() == M.StopWatcher(old(State()))
    {
      if watcherInterval.Some? {
        liveTimers := liveTimers - {watcherInterval.value};
      }
      watcherInterval := M.None;
    }

    /** The poll tick. */
    method Watch()
      requires Valid()
      modifies this
      ensures Valid()
      ensures State() == M.Watch(old(State()))
    {
      if location.IsUpdated(hostState, hostLocation) {
        var locationCast := Capture(hostState, hostLocation);
        location := locationCast;
        CallSubscribers(locationCast);
      }
    }

    /** Invokes the callback of every key, in `Object.keys` order, with one shared snapshot. */
    method CallSubscribers(locationCast: LocationCast)
      modifies this
      ensures State() == M.CallSubscribers(old(State()), locationCast)
    {
      var keys := Keys(subscribers);
      var i := 0;
      while i < |keys|
        modifies this`notified
        invariant 0 <= i <= |keys|
        invariant notified == old(notified) + M.Invocations(subscribers, keys[..i], locationCast)
      {
        var id := keys[i];
        var callback := Lookup(subscribers, id);
        M.InvocationsExtend(subscribers, keys, i, locationCast);
        notified := notified + [M.Notification(id, callback, locationCast)];
        i := i + 1;
      }
      assert keys[..i] == keys;
    }

    /** `push(path, state)`: hands `(state, '', path)` to `history.pushState`. */
    method Push(path: string, state: Json)
      requires Valid()
      modifies this
      ensures Valid()
      ensures State() == M.Push(old(State()), path, state)
    {
      pushLog := pushLog + [M.PushCall(state, "", path)];
    }
  }
}
