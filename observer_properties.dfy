/**
 * Properties of the observer state machine over several calls: the polling
 * lifecycle as the code runs it, the fan-out of one tick, and scenarios of
 * typical use.
 */
module ObserverProperties {
  import opened Json
  import opened Snapshot
  import opened Registry
  import opened ObserverModel

  /** Subscribing every id of `ids` in turn, all with callback `cb`. */
  function SubscribeAll<Cb>(m: Model<Cb>, ids: seq<Id>, cb: Cb): Model<Cb>
    decreases |ids|
  {
    if ids == [] then m else SubscribeAll(Subscribe(m, ids[0], cb), ids[1..], cb)
  }

  /** Calling the unsubscribe closures of `ids` in turn. */
  function UnsubscribeAll<Cb>(m: Model<Cb>, ids: seq<Id>): Model<Cb>
    decreases |ids|
  {
    if ids == [] then m else UnsubscribeAll(Unsubscribe(m, ids[0]), ids[1..])
  }

  /** Between calls there is at most one interval, and only while someone is subscribed. */
  lemma AtMostOneTimer<Cb>(m: Model<Cb>)
    requires Inv(m)
    ensures |m.liveTimers| <= 1
    ensures m.liveTimers != {} ==> m.subscribers != []
  {
  }

  lemma FlipParity(before: bool, after: bool, n: nat)
    requires n > 0 && after == !before
    ensures (after <==> (n - 1) % 2 == 0) == (before <==> n % 2 == 0)
  {
  }

  /**
   * Every subscribe toggles polling, so after `n` subscriptions polling is on
   * exactly when it was off before and `n` is odd, or on before and `n` even.
   */
  lemma {:induction false} SubscribeParity<Cb>(m: Model<Cb>, ids: seq<Id>, cb: Cb)
    ensures SubscribeAll(m, ids, cb).watcherInterval.Some? <==> (m.watcherInterval.Some? <==> |ids| % 2 == 0)
    decreases |ids|
  {
    if ids != [] {
      var next := Subscribe(m, ids[0], cb);
      assert SubscribeAll(m, ids, cb).watcherInterval == SubscribeAll(next, ids[1..], cb).watcherInterval;
      SubscribeParity(next, ids[1..], cb);
      FlipParity(m.watcherInterval.Some?, next.watcherInterval.Some?, |ids|);
    }
  }

  /**
   * The "polling iff subscribed" rule fails: from an idle observer, a second
   * subscription while polling runs switches polling off and clears the
   * interval, with two callbacks registered.
   */
  lemma SecondSubscribeStopsPolling<Cb>(m: Model<Cb>, id1: Id, cb1: Cb, id2: Id, cb2: Cb)
    requires Inv(m) && m.subscribers == []
    requires id1 != id2 && id1 !in m.issued && id2 !in m.issued
    ensures Subscribe(m, id1, cb1).watcherInterval.Some?
    ensures var r := Subscribe(Subscribe(m, id1, cb1), id2, cb2);
      && Keys(r.subscribers) == [id1, id2]
      && r.watcherInterval.None? && r.liveTimers == {}
  {
    assert Keys(m.subscribers) == [];
    var m1 := Subscribe(m, id1, cb1);
    assert Keys(m1.subscribers) == [id1];
    assert m1.watcherInterval.Some? && Inv(m1);
    var r := Subscribe(m1, id2, cb2);
    assert Keys(r.subscribers) == [id1, id2];
    assert r.watcherInterval.None? && Inv(r);
  }

  /** Unsubscribing one of two subscribers while polling runs also stops polling. */
  lemma UnsubscribeOneOfTwoStopsPolling<Cb>(m: Model<Cb>, id1: Id, id2: Id)
    requires Inv(m) && Keys(m.subscribers) == [id1, id2] && m.watcherInterval.Some?
    ensures var r := Unsubscribe(m, id1);
      && Keys(r.subscribers) == [id2]
      && r.watcherInterval.None? && r.liveTimers == {}
  {
    var r := Unsubscribe(m, id1);
    assert id1 != id2 by { assert Keys(m.subscribers)[0] != Keys(m.subscribers)[1]; }
    DeleteKeepsDistinct(m.subscribers, id1);
    assert |r.subscribers| == 1;
    assert Keys(r.subscribers)[0] in Keys(r.subscribers);
  }

  /**
   * Calling an unsubscribe closure whose id is gone leaves the registry as it
   * is, but still runs `updateWatcher`, which may start or stop polling.
   */
  lemma StaleUnsubscribeTogglesPolling<Cb>(m: Model<Cb>, id: Id)
    requires Inv(m) && id !in Keys(m.subscribers)
    ensures var r := Unsubscribe(m, id);
      && r.subscribers == m.subscribers
      && (r.watcherInterval.Some? <==> m.subscribers != [] && m.watcherInterval.None?)
  {
  }

  /** Calling the same closure twice leaves the registry as calling it once. */
  lemma UnsubscribeTwiceSameRegistry<Cb>(m: Model<Cb>, id: Id)
    ensures Unsubscribe(Unsubscribe(m, id), id).subscribers == Unsubscribe(m, id).subscribers
  {
  }

  /** Unsubscribing the last subscriber empties the registry and stops polling. */
  lemma LastUnsubscribeStopsPolling<Cb>(m: Model<Cb>, id: Id)
    requires Inv(m) && Keys(m.subscribers) == [id]
    ensures var r := Unsubscribe(m, id);
      && r.subscribers == [] && r.watcherInterval.None? && r.liveTimers == {}
  {
  }

  /**
   * Calling unsubscribe closures for every registered id, in any order and
   * with any extra stale ids among them, ends with an empty registry and no
   * interval.
   */
  lemma {:induction false} UnsubscribeAllStopsPolling<Cb>(m: Model<Cb>, ids: seq<Id>)
    requires Inv(m)
    requires forall k :: k in Keys(m.subscribers) ==> k in ids
    ensures var r := UnsubscribeAll(m, ids);
      && r.subscribers == [] && r.watcherInterval.None? && r.liveTimers == {}
    decreases |ids|
  {
    if ids == [] {
      if m.subscribers != [] {
        assert Keys(m.subscribers)[0] in Keys(m.subscribers);
      }
    } else {
      var next := Unsubscribe(m, ids[0]);
      forall k | k in Keys(next.subscribers) ensures k in ids[1..] {
        assert k in ids && k != ids[0];
      }
      UnsubscribeAllStopsPolling(next, ids[1..]);
    }
  }

  /**
   * One tick that sees a change notifies each registered id exactly once, in
   * key order, all with the one snapshot it stored.
   */
  lemma FanOutNotifiesEachOnce<Cb>(reg: seq<(Id, Cb)>, c: LocationCast)
    ensures NotifiedIds(FanOut(reg, c)) == Keys(reg)
    ensures forall n :: n in FanOut(reg, c) ==> n.snapshot == c
    ensures Distinct(Keys(reg)) ==>
      forall i :: 0 <= i < |reg| ==> FanOut(reg, c)[i] == Notification(reg[i].0, reg[i].1, c)
  {
    var r := FanOut(reg, c);
    forall i | 0 <= i < |reg| ensures r[i] == Notification(Keys(reg)[i], Lookup(reg, Keys(reg)[i]), c) {
      InvocationsAt(reg, Keys(reg), c, i);
    }
    if Distinct(Keys(reg)) {
      forall i | 0 <= i < |reg| ensures r[i] == Notification(reg[i].0, reg[i].1, c) {
        LookupAt(reg, i);
      }
    }
  }

  /** A second tick without a host change in between does nothing. */
  lemma WatchIdempotent<Cb>(m: Model<Cb>)
    ensures Watch(Watch(m)) == Watch(m)
  {
  }

  /**
   * Start at "/a", no query, null state; subscribe; the host navigates to
   * "/b"; the next tick invokes the callback once, with a snapshot of "/b".
   */
  lemma NavigationScenario<Cb>(id: Id, cb: Cb, handlesIssued: nat)
    ensures var m0 := Initial(Location("/a", ""), JNull, handlesIssued);
      var m1 := Subscribe(m0, id, cb);
      var m2 := Watch(m1.(hostLocation := Location("/b", "")));
      && m1.watcherInterval.Some?
      && m2.notified == [Notification(id, cb, LocationCast("/b", "", JNull))]
  {
    var m0 := Initial<Cb>(Location("/a", ""), JNull, handlesIssued);
    var m1 := Subscribe(m0, id, cb);
    assert Keys(m1.subscribers) == [id];
    assert m1.subscribers == [(id, cb)];
  }

  /** Two subscriptions on an idle observer at "/a": both entries in order, no interval left. */
  lemma TwoSubscriptions<Cb>(id1: Id, cb1: Cb, id2: Id, cb2: Cb, handlesIssued: nat)
    requires id1 != id2
    ensures var m2 := Subscribe(Subscribe(Initial(Location("/a", ""), JNull, handlesIssued), id1, cb1), id2, cb2);
      && m2.subscribers == [(id1, cb1), (id2, cb2)]
      && m2.liveTimers == {} && m2.notified == []
      && m2.location == LocationCast("/a", "", JNull)
      && m2.hostLocation == Location("/a", "") && m2.hostState == JNull
  {
    var m0 := Initial<Cb>(Location("/a", ""), JNull, handlesIssued);
    assert Insert(m0.subscribers, id1, cb1) == [(id1, cb1)];
    var m1 := Subscribe(m0, id1, cb1);
    assert m1.subscribers == [(id1, cb1)];
    assert Insert([(id1, cb1)], id2, cb2) == [(id1, cb1)] + Insert([], id2, cb2);
  }

  /**
   * Two subscribers and one change: a tick notifies both with the same
   * snapshot. As coded, though, the second subscription has cleared the
   * interval, so the host has no interval left to run that tick.
   */
  lemma TwoSubscribersScenario<Cb>(id1: Id, cb1: Cb, id2: Id, cb2: Cb, handlesIssued: nat)
    requires id1 != id2
    ensures var m0 := Initial(Location("/a", ""), JNull, handlesIssued);
      var m2 := Subscribe(Subscribe(m0, id1, cb1), id2, cb2);
      var m3 := Watch(m2.(hostState := JBool(true)));
      var c := LocationCast("/a", "", JBool(true));
      && m2.liveTimers == {}
      && m3.notified == [Notification(id1, cb1, c), Notification(id2, cb2, c)]
  {
    TwoSubscriptions(id1, cb1, id2, cb2, handlesIssued);
    var m2 := Subscribe(Subscribe(Initial(Location("/a", ""), JNull, handlesIssued), id1, cb1), id2, cb2);
    TickWithTwoSubscribers(m2.(hostState := JBool(true)), id1, cb1, id2, cb2);
  }

  /** A tick that sees a change, with exactly two entries registered, invokes both in order. */
  lemma TickWithTwoSubscribers<Cb>(m: Model<Cb>, id1: Id, cb1: Cb, id2: Id, cb2: Cb)
    requires id1 != id2 && m.subscribers == [(id1, cb1), (id2, cb2)] && m.notified == []
    requires m.location.IsUpdated(m.hostState, m.hostLocation)
    ensures var c := Capture(m.hostState, m.hostLocation);
      Watch(m).notified == [Notification(id1, cb1, c), Notification(id2, cb2, c)]
  {
    var c := Capture(m.hostState, m.hostLocation);
    assert Keys(m.subscribers) == [id1, id2];
    FanOutAt(m.subscribers, c, 0);
    FanOutAt(m.subscribers, c, 1);
  }

  /**
   * Subscribe and unsubscribe before any tick, then the host changes: polling
   * is off and a tick would invoke nothing.
   */
  lemma SubscribeUnsubscribeScenario<Cb>(id: Id, cb: Cb, handlesIssued: nat)
    ensures var m0 := Initial(Location("/a", ""), JNull, handlesIssued);
      var m1 := Unsubscribe(Subscribe(m0, id, cb), id);
      && m1.watcherInterval.None? && m1.liveTimers == {}
      && Watch(m1.(hostLocation := Location("/b", ""))).notified == []
  {
    var m0 := Initial<Cb>(Location("/a", ""), JNull, handlesIssued);
    LastUnsubscribeStopsPolling(Subscribe(m0, id, cb), id);
  }

  /**
   * Two subscriptions and then one repeated closure call: the first call
   * turns polling back on (the other subscriber remains), the second, a no-op
   * on the registry, turns it off again.
   */
  lemma RepeatedUnsubscribeScenario<Cb>(id1: Id, cb1: Cb, id2: Id, cb2: Cb, handlesIssued: nat)
    requires id1 != id2
    ensures var m0 := Initial(Location("/a", ""), JNull, handlesIssued);
      var m2 := Subscribe(Subscribe(m0, id1, cb1), id2, cb2);
      var m3 := Unsubscribe(m2, id1);
      var m4 := Unsubscribe(m3, id1);
      && m3.watcherInterval.Some? && Keys(m3.subscribers) == [id2]
      && m4.watcherInterval.None? && m4.subscribers == m3.subscribers
  {
    var m0 := Initial<Cb>(Location("/a", ""), JNull, handlesIssued);
    var m2 := Subscribe(Subscribe(m0, id1, cb1), id2, cb2);
    SecondSubscribeStopsPolling(m0, id1, cb1, id2, cb2);
    var m3 := Unsubscribe(m2, id1);
    DeleteKeepsDistinct(m2.subscribers, id1);
    assert Keys(m3.subscribers)[0] in Keys(m3.subscribers);
  }

  /**
   * With the corrected lifecycle rule (`SubscribeSynced`, `UnsubscribeSynced`,
   * whose contracts keep polling on exactly when the registry is non-empty),
   * two subscriptions keep polling on with one live timer, and unsubscribing
   * both switches it off.
   */
  lemma SyncWatcherPollsIffSubscribed<Cb>(m: Model<Cb>, id1: Id, cb1: Cb, id2: Id, cb2: Cb)
    requires Inv(m) && m.subscribers == []
    requires id1 != id2 && id1 !in m.issued && id2 !in m.issued
    ensures var m1 := SubscribeSynced(m, id1, cb1);
      var m2 := SubscribeSynced(m1, id2, cb2);
      var m4 := UnsubscribeSynced(UnsubscribeSynced(m2, id1), id2);
      && m1.watcherInterval.Some? && m2.watcherInterval.Some? && |m2.liveTimers| == 1
      && m4.subscribers == [] && m4.watcherInterval.None? && m4.liveTimers == {}
  {
    var m1 := SubscribeSynced(m, id1, cb1);
    var m2 := SubscribeSynced(m1, id2, cb2);
    assert Keys(m.subscribers) == [];
    assert Inv(m1) && Inv(m2);
    var m3 := UnsubscribeSynced(m2, id1);
    var m4 := UnsubscribeSynced(m3, id2);
    assert Keys(m2.subscribers) == [id1, id2];
    assert |Keys(m4.subscribers)| == 0 by {
      assert forall k :: k !in Keys(m4.subscribers);
    }
  }

  /** `push` itself runs no callback: notifications only come from a later tick. */
  lemma PushDoesNotNotify<Cb>(m: Model<Cb>, path: string, state: Json)
    ensures Push(m, path, state).notified == m.notified
  {
  }

  /**
   * `push` followed by the host's update and one tick: when the pushed path
   * or state differs from the stored snapshot, the tick stores the pushed
   * location and notifies every subscriber with it; otherwise nobody is
   * notified. Someone is notified exactly when there is a difference and a
   * subscriber.
   */
  lemma PushThenTick<Cb>(m: Model<Cb>, path: string, state: Json)
    ensures var r := Watch(HostAfterPush(Push(m, path, state), path, state));
      && (m.location.IsUpdated(state, Location(path, "")) ==>
            && r.location == LocationCast(path, "", state)
            && r.notified == m.notified + FanOut(m.subscribers, r.location))
      && (!m.location.IsUpdated(state, Location(path, "")) ==>
            r.location == m.location && r.notified == m.notified)
      && (r.notified != m.notified <==>
            m.location.IsUpdated(state, Location(path, "")) && m.subscribers != [])
  {
  }
}
