/**
 * The subscription reconciler and event dispatcher of the bot's Twitch
 * side (class `Twitch` of src/twitch.ts).
 *
 * The remote EventSub API is not called: a run reads a snapshot of the
 * remote subscriptions and directory/stream lookups given as maps, and
 * every remote call or bus emission it would make is appended to an
 * effect log. The specification functions below describe a run on a
 * value `Hub` (the handle map, the handle counter and the log); the class
 * `Twitch` at the end performs the same steps imperatively and is proved
 * to end in exactly the state those functions describe.
 */
module Subscriptions {
  import opened Wrappers
  import opened Strings
  import opened Helix

  /** A channel-update subscription handle, as returned by the listener. */
  type Handle = nat

  const StreamOnline: string := "stream.online"
  const StreamOffline: string := "stream.offline"
  const ChannelUpdate: string := "channel.update"

  /** A remote EventSub subscription: its type and the broadcaster_user_id of its condition. */
  datatype Subscription = Subscription(kind: string, broadcasterUserId: Option<UserId>)

  /** What a run does to the outside world, in the order it does it. */
  datatype Effect =
    | Emit(event: Event)                                // streamEvents.emit(...)
    | Unsubscribe(subscription: Subscription)           // subscription.unsubscribe()
    | SubscribeOnline(userId: UserId)                   // listener.subscribeToStreamOnlineEvents
    | SubscribeOffline(userId: UserId)                  // listener.subscribeToStreamOfflineEvents
    | SubscribeUpdate(userId: UserId, handle: Handle)   // listener.subscribeToChannelUpdateEvents
    | StopUpdate(handle: Handle)                        // handle.stop()

  /** The dispatcher's state: the channel-update handles per user, the next fresh handle, the effects so far. */
  datatype Hub = Hub(refs: map<UserId, Handle>, nextHandle: nat, log: seq<Effect>)

  // ---------------------------------------------------------------------
  // Projections of the effect log

  function Collect<X>(log: seq<Effect>, f: Effect -> seq<X>): seq<X>
    decreases |log|
  {
    if log == [] then [] else Collect(log[..|log| - 1], f) + f(log[|log| - 1])
  }

  lemma {:induction false} CollectAppend<X>(a: seq<Effect>, b: seq<Effect>, f: Effect -> seq<X>)
    ensures Collect(a + b, f) == Collect(a, f) + Collect(b, f)
    decreases |b|
  {
    if b == [] {
      assert a + b == a;
    } else {
      assert (a + b)[..|a + b| - 1] == a + b[..|b| - 1];
      CollectAppend(a, b[..|b| - 1], f);
    }
  }

  function EventOf(e: Effect): seq<Event> { if e.Emit? then [e.event] else [] }
  function UnsubscribedOf(e: Effect): seq<Subscription> { if e.Unsubscribe? then [e.subscription] else [] }
  function CreatedOf(e: Effect): seq<Subscription>
  {
    match e
    case SubscribeOnline(id) => [Subscription(StreamOnline, Some(id))]
    case SubscribeOffline(id) => [Subscription(StreamOffline, Some(id))]
    case _ => []
  }

  /** The events emitted on the bus, in order. */
  function Emitted(log: seq<Effect>): seq<Event> { Collect(log, EventOf) }
  /** The remote subscriptions deleted, in order. */
  function Deleted(log: seq<Effect>): seq<Subscription> { Collect(log, UnsubscribedOf) }
  /** The stream.online / stream.offline subscriptions requested, in order. */
  function Created(log: seq<Effect>): seq<Subscription> { Collect(log, CreatedOf) }

  lemma CollectOne<X>(log: seq<Effect>, e: Effect, f: Effect -> seq<X>)
    ensures Collect(log + [e], f) == Collect(log, f) + f(e)
  {
    assert (log + [e])[..|log|] == log;
  }

  /** The channel-update handles that have been subscribed and not stopped. */
  function LiveHandles(log: seq<Effect>): set<Handle>
    decreases |log|
  {
    if log == [] then {}
    else
      var prev := LiveHandles(log[..|log| - 1]);
      match log[|log| - 1]
      case SubscribeUpdate(_, hd) => prev + {hd}
      case StopUpdate(hd) => prev - {hd}
      case _ => prev
  }

  lemma LiveHandlesOne(log: seq<Effect>, e: Effect)
    ensures e.SubscribeUpdate? ==> LiveHandles(log + [e]) == LiveHandles(log) + {e.handle}
    ensures e.StopUpdate? ==> LiveHandles(log + [e]) == LiveHandles(log) - {e.handle}
    ensures !e.SubscribeUpdate? && !e.StopUpdate? ==> LiveHandles(log + [e]) == LiveHandles(log)
  {
    assert (log + [e])[..|log|] == log;
  }

  /** Effects that leave the channel-update subscriptions alone. */
  predicate KeepsUpdates(extra: seq<Effect>)
  {
    forall k :: 0 <= k < |extra| ==> !extra[k].SubscribeUpdate? && !extra[k].StopUpdate?
  }

  lemma {:induction false} LiveHandlesKept(log: seq<Effect>, extra: seq<Effect>)
    requires KeepsUpdates(extra)
    ensures LiveHandles(log + extra) == LiveHandles(log)
    decreases |extra|
  {
    if extra == [] {
      assert log + extra == log;
    } else {
      var init := extra[..|extra| - 1];
      assert log + extra == (log + init) + [extra[|extra| - 1]];
      LiveHandlesOne(log + init, extra[|extra| - 1]);
      LiveHandlesKept(log, init);
    }
  }

  /**
   * The handle map is the local mirror of the live channel-update
   * subscriptions: handles are fresh and distinct, and the handles held
   * are exactly those subscribed and not yet stopped.
   */
  ghost predicate Tracked(h: Hub)
  {
    && (forall id :: id in h.refs ==> h.refs[id] < h.nextHandle)
    && (forall a, b :: a in h.refs && b in h.refs && a != b ==> h.refs[a] != h.refs[b])
    && LiveHandles(h.log) == h.refs.Values
    && (forall id, hd: Handle :: SubscribeUpdate(id, hd) in h.log ==> hd < h.nextHandle)
    && (forall id, hd: Handle :: SubscribeUpdate(id, hd) in h.log && hd in h.refs.Values ==> id in h.refs && h.refs[id] == hd)
  }

  /** Effects that leave the channel-update subscriptions alone keep the handle invariant. */
  lemma TrackedKept(h: Hub, extra: seq<Effect>)
    requires Tracked(h) && KeepsUpdates(extra)
    ensures Tracked(h.(log := h.log + extra))
  {
    LiveHandlesKept(h.log, extra);
    forall id, hd | SubscribeUpdate(id, hd) in h.log + extra ensures SubscribeUpdate(id, hd) in h.log {
      assert SubscribeUpdate(id, hd) !in extra by {
        forall k | 0 <= k < |extra| ensures extra[k] != SubscribeUpdate(id, hd) { }
      }
    }
  }

  // ---------------------------------------------------------------------
  // The dispatcher

  /** Test accounts are ignored in production (`isDevTest`). */
  predicate IsDevTest(environment: string, broadcaster: User)
  {
    environment == "production" && Includes(broadcaster.description, "DevTest")
  }

  /**
   * A broadcaster is a test account exactly when the environment is
   * production and "DevTest" occurs in the description; the event handler
   * ignores exactly those, and does something for everybody else.
   */
  lemma DevTestIgnored(h: Hub, environment: string, broadcaster: User, stream: Option<Stream>,
                       unsubscribe: bool, now: int)
    ensures IsDevTest(environment, broadcaster) <==>
              environment == "production" && exists i :: OccursAt(broadcaster.description, "DevTest", i)
    ensures IsDevTest(environment, broadcaster) <==>
              HandleEvent(h, environment, broadcaster, stream, unsubscribe, now) == h
  {
    if !IsDevTest(environment, broadcaster) {
      assert |HandleEvent(h, environment, broadcaster, stream, unsubscribe, now).log| > |h.log|;
    }
  }

  /** The one event `eventHandler` emits for a broadcaster, an optional stream and the unsubscribe flag. */
  function Dispatch(broadcaster: User, stream: Option<Stream>, unsubscribe: bool, now: int): (e: Event)
    ensures e.user == broadcaster
    ensures e.Online? <==> stream.Some?
    ensures e.Online? ==> e.stream == stream.value && e.date == stream.value.startDate
    ensures e.Unsubscribed? <==> stream.None? && unsubscribe
    ensures e.Offline? <==> stream.None? && !unsubscribe
    ensures !e.Online? ==> e.date == now
  {
    match stream
    case Some(s) => Online(broadcaster, s.startDate, s)
    case None => if unsubscribe then Unsubscribed(broadcaster, now) else Offline(broadcaster, now)
  }

  /**
   * `manageUpdateEventSubscription`: with a handle held, stop and forget it
   * when asked to unsubscribe, otherwise do nothing; with no handle held,
   * subscribe to channel updates and keep the new handle, whatever the flag.
   */
  function ManageUpdate(h: Hub, broadcaster: User, unsubscribe: bool): (r: Hub)
    ensures broadcaster.id in h.refs && unsubscribe ==>
              broadcaster.id !in r.refs && r.log == h.log + [StopUpdate(h.refs[broadcaster.id])]
    ensures broadcaster.id in h.refs && !unsubscribe ==> r == h
    ensures broadcaster.id !in h.refs ==>
              r.refs == h.refs[broadcaster.id := h.nextHandle]
              && r.log == h.log + [SubscribeUpdate(broadcaster.id, h.nextHandle)]
    ensures forall id :: id != broadcaster.id ==>
              (id in r.refs <==> id in h.refs) && (id in h.refs ==> r.refs[id] == h.refs[id])
  {
    var id := broadcaster.id;
    if id in h.refs then
      if unsubscribe then Hub(h.refs - {id}, h.nextHandle, h.log + [StopUpdate(h.refs[id])]) else h
    else
      Hub(h.refs[id := h.nextHandle], h.nextHandle + 1, h.log + [SubscribeUpdate(id, h.nextHandle)])
  }

  /** Managing the channel-update subscription keeps the handle map in step with the live subscriptions. */
  lemma ManageUpdateTracked(h: Hub, broadcaster: User, unsubscribe: bool)
    requires Tracked(h)
    ensures Tracked(ManageUpdate(h, broadcaster, unsubscribe))
  {
    if broadcaster.id in h.refs && unsubscribe {
      StopTracked(h, broadcaster.id);
    } else if broadcaster.id !in h.refs {
      OpenTracked(h, broadcaster.id);
    }
  }

  /** Stopping and forgetting a held handle keeps the handle invariant. */
  lemma StopTracked(h: Hub, id: UserId)
    requires Tracked(h) && id in h.refs
    ensures Tracked(Hub(h.refs - {id}, h.nextHandle, h.log + [StopUpdate(h.refs[id])]))
  {
    var hd := h.refs[id];
    var r := Hub(h.refs - {id}, h.nextHandle, h.log + [StopUpdate(hd)]);
    LiveHandlesOne(h.log, StopUpdate(hd));
    forall v ensures v in r.refs.Values <==> v in h.refs.Values - {hd} {
      if v in r.refs.Values {
        var k :| k in r.refs && r.refs[k] == v;
        assert k in h.refs && h.refs[k] == v;
      }
      if v in h.refs.Values - {hd} {
        var k :| k in h.refs && h.refs[k] == v;
        assert k != id;
        assert k in r.refs && r.refs[k] == v;
      }
    }
    forall u, v | SubscribeUpdate(u, v) in r.log && v in r.refs.Values ensures u in r.refs && r.refs[u] == v {
      assert SubscribeUpdate(u, v) in h.log;
      assert v in h.refs.Values - {hd};
    }
  }

  /** Subscribing a user who holds no handle, under a fresh handle, keeps the handle invariant. */
  lemma OpenTracked(h: Hub, id: UserId)
    requires Tracked(h) && id !in h.refs
    ensures Tracked(Hub(h.refs[id := h.nextHandle], h.nextHandle + 1, h.log + [SubscribeUpdate(id, h.nextHandle)]))
  {
    var r := Hub(h.refs[id := h.nextHandle], h.nextHandle + 1, h.log + [SubscribeUpdate(id, h.nextHandle)]);
    LiveHandlesOne(h.log, SubscribeUpdate(id, h.nextHandle));
    forall v ensures v in r.refs.Values <==> v in h.refs.Values + {h.nextHandle} {
      if v in r.refs.Values {
        var k :| k in r.refs && r.refs[k] == v;
        if k != id { assert k in h.refs && h.refs[k] == v; }
      }
      if v in h.refs.Values {
        var k :| k in h.refs && h.refs[k] == v;
        assert k in r.refs && r.refs[k] == v;
      }
      if v == h.nextHandle {
        assert r.refs[id] == v;
      }
    }
    forall u, v | SubscribeUpdate(u, v) in r.log && v in r.refs.Values ensures u in r.refs && r.refs[u] == v {
      if SubscribeUpdate(u, v) in h.log {
        assert v != h.nextHandle;
        assert v in h.refs.Values;
      }
    }
  }

  /**
   * `eventHandler`: a DevTest broadcaster changes nothing; any other call
   * emits exactly the one event `Dispatch` selects. Without a stream the
   * channel-update step (with unsubscribe) comes first and the event
   * second; with a stream the online event comes first and the
   * channel-update step (without unsubscribe) second.
   */
  function HandleEvent(h: Hub, environment: string, broadcaster: User, stream: Option<Stream>,
                       unsubscribe: bool, now: int): (r: Hub)
    ensures IsDevTest(environment, broadcaster) ==> r == h
    ensures !IsDevTest(environment, broadcaster) ==>
              Emitted(r.log) == Emitted(h.log) + [Dispatch(broadcaster, stream, unsubscribe, now)]
    ensures |r.log| >= |h.log| && r.log[..|h.log|] == h.log
    ensures !IsDevTest(environment, broadcaster) && stream.None? ==>
              |r.log| == |h.log| + 2 && r.log[|h.log| + 1] == Emit(Dispatch(broadcaster, stream, unsubscribe, now))
    ensures !IsDevTest(environment, broadcaster) && stream.Some? ==>
              |r.log| > |h.log| && r.log[|h.log|] == Emit(Dispatch(broadcaster, stream, unsubscribe, now))
              && broadcaster.id in r.refs
    ensures Deleted(r.log) == Deleted(h.log) && Created(r.log) == Created(h.log)
    // the channel-update step: a stream keeps a held handle and opens one otherwise; no stream toggles it
    ensures !IsDevTest(environment, broadcaster) && stream.Some? && broadcaster.id in h.refs ==>
              r.refs == h.refs && r.nextHandle == h.nextHandle
              && r.log == h.log + [Emit(Dispatch(broadcaster, stream, unsubscribe, now))]
    ensures !IsDevTest(environment, broadcaster) && broadcaster.id !in h.refs ==>
              r.refs == h.refs[broadcaster.id := h.nextHandle] && r.nextHandle == h.nextHandle + 1
              && SubscribeUpdate(broadcaster.id, h.nextHandle) in r.log[|h.log|..]
    ensures !IsDevTest(environment, broadcaster) && stream.None? && broadcaster.id in h.refs ==>
              r.refs == h.refs - {broadcaster.id} && r.nextHandle == h.nextHandle
              && r.log[|h.log|] == StopUpdate(h.refs[broadcaster.id])
    ensures forall id :: id != broadcaster.id ==>
              (id in r.refs <==> id in h.refs) && (id in h.refs ==> r.refs[id] == h.refs[id])
  {
    if IsDevTest(environment, broadcaster) then h
    else
      var event := Dispatch(broadcaster, stream, unsubscribe, now);
      if stream.None? then UpdateThenEmit(h, broadcaster, event) else EmitThenUpdate(h, broadcaster, event)
  }

  /** The branch without a stream: the channel-update step with unsubscribe, then the event. */
  function UpdateThenEmit(h: Hub, broadcaster: User, event: Event): (r: Hub)
    ensures |r.log| == |h.log| + 2 && r.log[..|h.log|] == h.log && r.log[|h.log| + 1] == Emit(event)
    ensures Emitted(r.log) == Emitted(h.log) + [event]
    ensures Deleted(r.log) == Deleted(h.log) && Created(r.log) == Created(h.log)
    ensures var m := ManageUpdate(h, broadcaster, true);
            r.refs == m.refs && r.nextHandle == m.nextHandle && r.log[|h.log|] == m.log[|h.log|]
  {
    var h1 := ManageUpdate(h, broadcaster, true);
    LogStep(h.log, h1.log[|h.log|]);
    LogStep(h1.log, Emit(event));
    h1.(log := h1.log + [Emit(event)])
  }

  /** The branch with a stream: the event, then the channel-update step without unsubscribe. */
  function EmitThenUpdate(h: Hub, broadcaster: User, event: Event): (r: Hub)
    ensures |r.log| > |h.log| && r.log[..|h.log|] == h.log && r.log[|h.log|] == Emit(event)
    ensures Emitted(r.log) == Emitted(h.log) + [event]
    ensures Deleted(r.log) == Deleted(h.log) && Created(r.log) == Created(h.log)
    ensures broadcaster.id in h.refs ==> r == h.(log := h.log + [Emit(event)])
    ensures broadcaster.id !in h.refs ==>
              r == Hub(h.refs[broadcaster.id := h.nextHandle], h.nextHandle + 1,
                       h.log + [Emit(event), SubscribeUpdate(broadcaster.id, h.nextHandle)])
  {
    var h1 := h.(log := h.log + [Emit(event)]);
    LogStep(h.log, Emit(event));
    if broadcaster.id in h.refs then h1
    else
      LogStep(h1.log, SubscribeUpdate(broadcaster.id, h.nextHandle));
      assert h1.log + [SubscribeUpdate(broadcaster.id, h.nextHandle)]
          == h.log + [Emit(event), SubscribeUpdate(broadcaster.id, h.nextHandle)];
      ManageUpdate(h1, broadcaster, false)
  }

  /** How one effect changes the projections of the log. */
  lemma LogStep(log: seq<Effect>, e: Effect)
    ensures Emitted(log + [e]) == Emitted(log) + EventOf(e)
    ensures Deleted(log + [e]) == Deleted(log) + UnsubscribedOf(e)
    ensures Created(log + [e]) == Created(log) + CreatedOf(e)
  {
    CollectOne(log, e, EventOf);
    CollectOne(log, e, UnsubscribedOf);
    CollectOne(log, e, CreatedOf);
  }

  lemma HandleEventTracked(h: Hub, environment: string, broadcaster: User, stream: Option<Stream>,
                           unsubscribe: bool, now: int)
    requires Tracked(h)
    ensures Tracked(HandleEvent(h, environment, broadcaster, stream, unsubscribe, now))
  {
    if !IsDevTest(environment, broadcaster) {
      var event := Dispatch(broadcaster, stream, unsubscribe, now);
      if stream.None? {
        ManageUpdateTracked(h, broadcaster, true);
        var h1 := ManageUpdate(h, broadcaster, true);
        LiveHandlesOne(h1.log, Emit(event));
      } else {
        var h1 := h.(log := h.log + [Emit(event)]);
        LiveHandlesOne(h.log, Emit(event));
        ManageUpdateTracked(h1, broadcaster, false);
      }
    }
  }

  // ---------------------------------------------------------------------
  // Reconciliation: the stale pass

  /** Some roster user has this id. */
  predicate IsRosterId(users: seq<User>, id: UserId)
  {
    exists k :: 0 <= k < |users| && users[k].id == id
  }

  /** A subscription is stale when its broadcaster id (`'0'` when absent) is no roster user's id. */
  predicate IsStale(users: seq<User>, sub: Subscription)
  {
    !IsRosterId(users, sub.broadcasterUserId.GetOr("0"))
  }

  /**
   * One iteration of the stale pass. A stale subscription whose user the
   * directory resolves first runs the event handler with the unsubscribe
   * flag (emitting `unsubscribed` unless the user is a test account), and
   * only then is the subscription deleted.
   */
  function StaleStep(h: Hub, environment: string, users: seq<User>, directory: map<UserId, User>,
                     sub: Subscription, now: int): (r: Hub)
    ensures !IsStale(users, sub) ==> r == h
    ensures IsStale(users, sub) ==>
              |r.log| > |h.log| && r.log[..|h.log|] == h.log && r.log[|r.log| - 1] == Unsubscribe(sub)
    ensures var id := sub.broadcasterUserId.GetOr("0");
            IsStale(users, sub) && id in directory && !IsDevTest(environment, directory[id]) ==>
              |r.log| == |h.log| + 3 && r.log[|r.log| - 2] == Emit(Unsubscribed(directory[id], now))
    ensures var id := sub.broadcasterUserId.GetOr("0");
            IsStale(users, sub) && (id !in directory || IsDevTest(environment, directory[id])) ==>
              r == h.(log := h.log + [Unsubscribe(sub)])
    ensures Deleted(r.log) == Deleted(h.log) + (if IsStale(users, sub) then [sub] else [])
    ensures Created(r.log) == Created(h.log)
  {
    var id := sub.broadcasterUserId.GetOr("0");
    if !IsStale(users, sub) then h
    else
      var h1 := if id in directory then HandleEvent(h, environment, directory[id], None, true, now) else h;
      LogStep(h1.log, Unsubscribe(sub));
      h1.(log := h1.log + [Unsubscribe(sub)])
  }

  /**
   * Deleting a stale subscription of a user who resolves, is no test
   * account and holds no channel-update handle leaves that user holding a
   * new one: the unsubscribe step subscribes when nothing is held.
   */
  lemma StaleStepSubscribesUpdate(h: Hub, environment: string, users: seq<User>, directory: map<UserId, User>,
                                  sub: Subscription, now: int)
    requires IsStale(users, sub)
    requires sub.broadcasterUserId.GetOr("0") in directory
    requires !IsDevTest(environment, directory[sub.broadcasterUserId.GetOr("0")])
    requires directory[sub.broadcasterUserId.GetOr("0")].id !in h.refs
    ensures var u := directory[sub.broadcasterUserId.GetOr("0")];
            var r := StaleStep(h, environment, users, directory, sub, now);
            && u.id in r.refs && r.refs[u.id] == h.nextHandle
            && SubscribeUpdate(u.id, h.nextHandle) in r.log
  {
    var u := directory[sub.broadcasterUserId.GetOr("0")];
    var r := StaleStep(h, environment, users, directory, sub, now);
    assert r.log[|h.log|] == SubscribeUpdate(u.id, h.nextHandle);
  }

  /** The stale pass over the snapshot, in snapshot order. */
  function StalePass(h: Hub, environment: string, users: seq<User>, directory: map<UserId, User>,
                     snapshot: seq<Subscription>, now: int): Hub
    decreases |snapshot|
  {
    if snapshot == [] then h
    else
      var last := snapshot[|snapshot| - 1];
      StaleStep(StalePass(h, environment, users, directory, snapshot[..|snapshot| - 1], now),
                environment, users, directory, last, now)
  }

  /** The stale subscriptions of a snapshot, in order. */
  function StaleOf(users: seq<User>, snapshot: seq<Subscription>): seq<Subscription>
    decreases |snapshot|
  {
    if snapshot == [] then []
    else
      var last := snapshot[|snapshot| - 1];
      StaleOf(users, snapshot[..|snapshot| - 1]) + (if IsStale(users, last) then [last] else [])
  }

  lemma {:induction false} StaleOfMembers(users: seq<User>, snapshot: seq<Subscription>, x: Subscription)
    ensures x in StaleOf(users, snapshot) <==> x in snapshot && IsStale(users, x)
    decreases |snapshot|
  {
    if snapshot != [] {
      var init := snapshot[..|snapshot| - 1];
      assert snapshot == init + [snapshot[|snapshot| - 1]];
      StaleOfMembers(users, init, x);
    }
  }

  /**
   * The stale pass deletes exactly the stale subscriptions, in snapshot
   * order, and requests no stream subscription.
   */
  lemma {:induction false} StalePassUnsubscribes(h: Hub, environment: string, users: seq<User>,
                                                 directory: map<UserId, User>, snapshot: seq<Subscription>, now: int)
    ensures var r := StalePass(h, environment, users, directory, snapshot, now);
            Deleted(r.log) == Deleted(h.log) + StaleOf(users, snapshot)
            && Created(r.log) == Created(h.log)
    decreases |snapshot|
  {
    if snapshot != [] {
      StalePassUnsubscribes(h, environment, users, directory, snapshot[..|snapshot| - 1], now);
    }
  }

  /** Which subscriptions the stale pass deletes: every stale one, and no subscription of a roster user. */
  lemma StalePassDeletesExactlyStale(h: Hub, environment: string, users: seq<User>,
                                     directory: map<UserId, User>, snapshot: seq<Subscription>, now: int,
                                     x: Subscription)
    requires x in snapshot
    ensures var d := Deleted(StalePass(h, environment, users, directory, snapshot, now).log);
            |d| >= |Deleted(h.log)| && (x in d[|Deleted(h.log)|..] <==> IsStale(users, x))
  {
    StalePassUnsubscribes(h, environment, users, directory, snapshot, now);
    StaleOfMembers(users, snapshot, x);
    var r := StalePass(h, environment, users, directory, snapshot, now);
    assert Deleted(r.log)[|Deleted(h.log)|..] == StaleOf(users, snapshot);
  }

  /** The log only grows during the stale pass. */
  lemma {:induction false} StalePassExtends(h: Hub, environment: string, users: seq<User>,
                                            directory: map<UserId, User>, snapshot: seq<Subscription>, now: int)
    ensures var r := StalePass(h, environment, users, directory, snapshot, now);
            |r.log| >= |h.log| && r.log[..|h.log|] == h.log
    decreases |snapshot|
  {
    if snapshot != [] {
      StalePassExtends(h, environment, users, directory, snapshot[..|snapshot| - 1], now);
    }
  }

  /** Without a stale subscription the stale pass changes nothing. */
  lemma {:induction false} StalePassQuiet(h: Hub, environment: string, users: seq<User>,
                                          directory: map<UserId, User>, snapshot: seq<Subscription>, now: int)
    requires forall k :: 0 <= k < |snapshot| ==> !IsStale(users, snapshot[k])
    ensures StalePass(h, environment, users, directory, snapshot, now) == h
    decreases |snapshot|
  {
    if snapshot != [] {
      StalePassQuiet(h, environment, users, directory, snapshot[..|snapshot| - 1], now);
    }
  }

  lemma {:induction false} StalePassTracked(h: Hub, environment: string, users: seq<User>,
                                            directory: map<UserId, User>, snapshot: seq<Subscription>, now: int)
    requires Tracked(h)
    ensures Tracked(StalePass(h, environment, users, directory, snapshot, now))
    decreases |snapshot|
  {
    if snapshot != [] {
      var sub := snapshot[|snapshot| - 1];
      StalePassTracked(h, environment, users, directory, snapshot[..|snapshot| - 1], now);
      var h0 := StalePass(h, environment, users, directory, snapshot[..|snapshot| - 1], now);
      var id := sub.broadcasterUserId.GetOr("0");
      if IsStale(users, sub) {
        var h1 := if id in directory then HandleEvent(h0, environment, directory[id], None, true, now) else h0;
        if id in directory { HandleEventTracked(h0, environment, directory[id], None, true, now); }
        LiveHandlesOne(h1.log, Unsubscribe(sub));
      }
    }
  }

  // ---------------------------------------------------------------------
  // Reconciliation: the desired pass

  /** The snapshot has a subscription of this kind whose broadcaster_user_id is `id` (a missing id matches nothing). */
  predicate HasSubscription(snapshot: seq<Subscription>, id: UserId, kind: string)
  {
    exists k :: 0 <= k < |snapshot| && snapshot[k].kind == kind && snapshot[k].broadcasterUserId == Some(id)
  }

  /** The requests made for one roster user: only the missing kinds, online first. */
  function UserRequests(snapshot: seq<Subscription>, u: User): seq<Effect>
  {
    (if !HasSubscription(snapshot, u.id, StreamOnline) then [SubscribeOnline(u.id)] else [])
    + (if !HasSubscription(snapshot, u.id, StreamOffline) then [SubscribeOffline(u.id)] else [])
  }

  /** The requests of the desired pass, in roster order. */
  function Requests(snapshot: seq<Subscription>, users: seq<User>): seq<Effect>
    decreases |users|
  {
    if users == [] then []
    else Requests(snapshot, users[..|users| - 1]) + UserRequests(snapshot, users[|users| - 1])
  }

  /**
   * An online (offline) subscription is requested for an id exactly when
   * the id is a roster user's and the snapshot has no online (offline)
   * subscription for it; nothing else is requested.
   */
  lemma {:induction false} RequestsExactly(snapshot: seq<Subscription>, users: seq<User>)
    ensures forall id :: SubscribeOnline(id) in Requests(snapshot, users) <==>
                           IsRosterId(users, id) && !HasSubscription(snapshot, id, StreamOnline)
    ensures forall id :: SubscribeOffline(id) in Requests(snapshot, users) <==>
                           IsRosterId(users, id) && !HasSubscription(snapshot, id, StreamOffline)
    ensures forall e :: e in Requests(snapshot, users) ==> e.SubscribeOnline? || e.SubscribeOffline?
    decreases |users|
  {
    if users != [] {
      var init := users[..|users| - 1];
      var u := users[|users| - 1];
      RequestsExactly(snapshot, init);
      forall id ensures IsRosterId(users, id) <==> IsRosterId(init, id) || u.id == id {
        if IsRosterId(users, id) {
          var k :| 0 <= k < |users| && users[k].id == id;
          if k < |users| - 1 { assert init[k].id == id; }
        }
        if IsRosterId(init, id) {
          var k :| 0 <= k < |init| && init[k].id == id;
          assert users[k].id == id;
        }
      }
    }
  }

  /** Distinct roster users have distinct ids. */
  predicate DistinctIds(users: seq<User>)
  {
    forall i, j :: 0 <= i < j < |users| ==> users[i].id != users[j].id
  }

  /** With distinct ids, each kind of subscription is requested at most once per user. */
  lemma {:induction false} RequestsAtMostOnce(snapshot: seq<Subscription>, users: seq<User>, id: UserId)
    requires DistinctIds(users)
    ensures multiset(Requests(snapshot, users))[SubscribeOnline(id)] <= 1
    ensures multiset(Requests(snapshot, users))[SubscribeOffline(id)] <= 1
    decreases |users|
  {
    if users != [] {
      var init := users[..|users| - 1];
      var u := users[|users| - 1];
      RequestsAtMostOnce(snapshot, init, id);
      if u.id == id {
        RequestsExactly(snapshot, init);
        assert !IsRosterId(init, id) by {
          forall k | 0 <= k < |init| ensures init[k].id != id {
            assert users[k].id != users[|users| - 1].id;
          }
        }
        assert SubscribeOnline(id) !in Requests(snapshot, init);
        assert SubscribeOffline(id) !in Requests(snapshot, init);
      }
    }
  }

  /** Requests leave the handles alone. */
  lemma RequestsKeepUpdates(snapshot: seq<Subscription>, users: seq<User>)
    ensures KeepsUpdates(Requests(snapshot, users))
  {
    RequestsExactly(snapshot, users);
    forall k | 0 <= k < |Requests(snapshot, users)|
      ensures !Requests(snapshot, users)[k].SubscribeUpdate? && !Requests(snapshot, users)[k].StopUpdate?
    {
      assert Requests(snapshot, users)[k] in Requests(snapshot, users);
    }
  }

  /** `updateStreamEventSubs`: the stale pass, then the requests of the desired pass, on the same snapshot. */
  function Reconcile(h: Hub, environment: string, users: seq<User>, directory: map<UserId, User>,
                     snapshot: seq<Subscription>, now: int): Hub
  {
    var h1 := StalePass(h, environment, users, directory, snapshot, now);
    h1.(log := h1.log + Requests(snapshot, users))
  }

  /** The snapshot holds both stream subscriptions of every roster user and nothing stale. */
  predicate Covers(snapshot: seq<Subscription>, users: seq<User>)
  {
    && (forall k :: 0 <= k < |snapshot| ==> !IsStale(users, snapshot[k]))
    && (forall k :: 0 <= k < |users| ==>
          HasSubscription(snapshot, users[k].id, StreamOnline) && HasSubscription(snapshot, users[k].id, StreamOffline))
  }

  /** On a snapshot that already covers the roster, reconciliation does nothing at all. */
  lemma ReconcileIdempotent(h: Hub, environment: string, users: seq<User>, directory: map<UserId, User>,
                            snapshot: seq<Subscription>, now: int)
    requires Covers(snapshot, users)
    ensures Reconcile(h, environment, users, directory, snapshot, now) == h
  {
    StalePassQuiet(h, environment, users, directory, snapshot, now);
    RequestsEmpty(snapshot, users);
  }

  lemma {:induction false} RequestsEmpty(snapshot: seq<Subscription>, users: seq<User>)
    requires forall k :: 0 <= k < |users| ==>
               HasSubscription(snapshot, users[k].id, StreamOnline) && HasSubscription(snapshot, users[k].id, StreamOffline)
    ensures Requests(snapshot, users) == []
    decreases |users|
  {
    if users != [] {
      RequestsEmpty(snapshot, users[..|users| - 1]);
    }
  }

  /**
   * The remote subscriptions after a run's effects: the snapshot without
   * the deleted subscriptions, then the stream subscriptions requested,
   * then the channel-update subscriptions opened and not stopped again.
   */
  function RemoteAfter(snapshot: seq<Subscription>, effects: seq<Effect>): seq<Subscription>
  {
    Kept(snapshot, Deleted(effects)) + Created(effects) + OpenedUpdates(effects)
  }

  /** The channel-update subscriptions that these effects open and leave open, in order. */
  function OpenedUpdates(effects: seq<Effect>): seq<Subscription>
  {
    UpdatesAmong(effects, LiveHandles(effects))
  }

  /** The channel-update subscriptions opened in `log` with a handle in `live`. */
  function UpdatesAmong(log: seq<Effect>, live: set<Handle>): seq<Subscription>
    decreases |log|
  {
    if log == [] then []
    else
      var prev := UpdatesAmong(log[..|log| - 1], live);
      match log[|log| - 1]
      case SubscribeUpdate(id, hd) => prev + (if hd in live then [Subscription(ChannelUpdate, Some(id))] else [])
      case _ => prev
  }

  lemma {:induction false} UpdatesAmongMembers(log: seq<Effect>, live: set<Handle>, id: UserId, x: Subscription)
    ensures x in UpdatesAmong(log, live) ==> x.kind == ChannelUpdate && x.broadcasterUserId.Some?
    ensures Subscription(ChannelUpdate, Some(id)) in UpdatesAmong(log, live) <==>
              exists hd :: hd in live && SubscribeUpdate(id, hd) in log
    decreases |log|
  {
    if log != [] {
      var init := log[..|log| - 1];
      assert log == init + [log[|log| - 1]];
      UpdatesAmongMembers(init, live, id, x);
    }
  }

  /** A handle that later effects leave open stays open whatever came before. */
  lemma {:induction false} LiveHandlesSuffix(a: seq<Effect>, b: seq<Effect>)
    ensures LiveHandles(b) <= LiveHandles(a + b)
    decreases |b|
  {
    if b == [] {
    } else {
      var init := b[..|b| - 1];
      assert a + b == (a + init) + [b[|b| - 1]];
      LiveHandlesSuffix(a, init);
      LiveHandlesOne(a + init, b[|b| - 1]);
      LiveHandlesOne(init, b[|b| - 1]);
      assert b == init + [b[|b| - 1]];
    }
  }

  function Kept(snapshot: seq<Subscription>, gone: seq<Subscription>): seq<Subscription>
    decreases |snapshot|
  {
    if snapshot == [] then []
    else
      var last := snapshot[|snapshot| - 1];
      Kept(snapshot[..|snapshot| - 1], gone) + (if last in gone then [] else [last])
  }

  lemma {:induction false} KeptMembers(snapshot: seq<Subscription>, gone: seq<Subscription>, x: Subscription)
    ensures x in Kept(snapshot, gone) <==> x in snapshot && x !in gone
    decreases |snapshot|
  {
    if snapshot != [] {
      var init := snapshot[..|snapshot| - 1];
      assert snapshot == init + [snapshot[|snapshot| - 1]];
      KeptMembers(init, gone, x);
    }
  }

  lemma {:induction false} CreatedMembers(effects: seq<Effect>, x: Subscription)
    ensures x in Created(effects) <==>
              (x.kind == StreamOnline && x.broadcasterUserId.Some? && SubscribeOnline(x.broadcasterUserId.value) in effects)
              || (x.kind == StreamOffline && x.broadcasterUserId.Some? && SubscribeOffline(x.broadcasterUserId.value) in effects)
    decreases |effects|
  {
    if effects != [] {
      var init := effects[..|effects| - 1];
      assert effects == init + [effects[|effects| - 1]];
      CreatedMembers(init, x);
    }
  }

  /**
   * After reconciliation the remote side matches the roster: every roster
   * user has an online and an offline subscription, and nothing is stale,
   * provided the run leaves no channel-update handle with a user off the
   * roster. (`StaleUpdateLeaks` shows a run that does leave one.)
   */
  lemma ReconcileCovers(h: Hub, environment: string, users: seq<User>, directory: map<UserId, User>,
                        snapshot: seq<Subscription>, now: int)
    requires Tracked(h)
    requires forall id :: id in Reconcile(h, environment, users, directory, snapshot, now).refs ==> IsRosterId(users, id)
    ensures var r := Reconcile(h, environment, users, directory, snapshot, now);
            |r.log| >= |h.log| && Covers(RemoteAfter(snapshot, r.log[|h.log|..]), users)
  {
    var r := Reconcile(h, environment, users, directory, snapshot, now);
    var stale, reqs := RunEffects(h, environment, users, directory, snapshot, now);
    Concat3(h.log, stale, reqs);
    RunOpensHeld(h, environment, users, directory, snapshot, now);
    CoversAfter(snapshot, users, r, stale, reqs);
  }

  lemma Concat3<X>(a: seq<X>, b: seq<X>, c: seq<X>)
    ensures a + b + c == a + (b + c) && |a + b + c| >= |a| && (a + b + c)[|a|..] == b + c
  {
  }

  /** The channel-update subscriptions a run leaves open are those of users whose handle the map holds. */
  lemma RunOpensHeld(h: Hub, environment: string, users: seq<User>, directory: map<UserId, User>,
                     snapshot: seq<Subscription>, now: int)
    requires Tracked(h)
    ensures var r := Reconcile(h, environment, users, directory, snapshot, now);
            |r.log| >= |h.log| &&
            forall id :: Subscription(ChannelUpdate, Some(id)) in OpenedUpdates(r.log[|h.log|..]) ==> id in r.refs
  {
    var r := Reconcile(h, environment, users, directory, snapshot, now);
    var stale, reqs := RunEffects(h, environment, users, directory, snapshot, now);
    Concat3(h.log, stale, reqs);
    ReconcileTracked(h, environment, users, directory, snapshot, now);
    OpenedAreHeld(h.log, stale + reqs, r);
  }

  /** The remote state after the stale effects and the requests covers the roster. */
  lemma CoversAfter(snapshot: seq<Subscription>, users: seq<User>, r: Hub, stale: seq<Effect>, reqs: seq<Effect>)
    requires reqs == Requests(snapshot, users)
    requires Deleted(stale + reqs) == StaleOf(users, snapshot)
    requires forall id :: SubscribeOnline(id) in stale + reqs || SubscribeOffline(id) in stale + reqs ==> IsRosterId(users, id)
    requires forall id :: Subscription(ChannelUpdate, Some(id)) in OpenedUpdates(stale + reqs) ==> id in r.refs
    requires forall id :: id in r.refs ==> IsRosterId(users, id)
    ensures Covers(RemoteAfter(snapshot, stale + reqs), users)
  {
    var effects := stale + reqs;
    var after := RemoteAfter(snapshot, effects);
    forall k | 0 <= k < |after| ensures !IsStale(users, after[k]) {
      RemoteAfterNotStale(snapshot, effects, users, r, after[k]);
    }
    forall k | 0 <= k < |users|
      ensures HasSubscription(after, users[k].id, StreamOnline) && HasSubscription(after, users[k].id, StreamOffline)
    {
      var id := users[k].id;
      assert IsRosterId(users, id);
      HasAfter(snapshot, effects, users, stale, reqs, id, StreamOnline);
      HasAfter(snapshot, effects, users, stale, reqs, id, StreamOffline);
    }
  }

  lemma RemoteAfterNotStale(snapshot: seq<Subscription>, effects: seq<Effect>, users: seq<User>, r: Hub, x: Subscription)
    requires Deleted(effects) == StaleOf(users, snapshot)
    requires forall id :: SubscribeOnline(id) in effects || SubscribeOffline(id) in effects ==> IsRosterId(users, id)
    requires forall id :: Subscription(ChannelUpdate, Some(id)) in OpenedUpdates(effects) ==> id in r.refs
    requires forall id :: id in r.refs ==> IsRosterId(users, id)
    requires x in RemoteAfter(snapshot, effects)
    ensures !IsStale(users, x)
  {
    if x in Kept(snapshot, Deleted(effects)) + Created(effects) {
      AfterNotStale(snapshot, effects, users, x);
    } else {
      UpdatesAmongMembers(effects, LiveHandles(effects), "", x);
      assert x == Subscription(ChannelUpdate, Some(x.broadcasterUserId.value));
    }
  }

  /** Every channel-update subscription a run leaves open is one whose handle the map holds for its user. */
  lemma OpenedAreHeld(before: seq<Effect>, effects: seq<Effect>, r: Hub)
    requires Tracked(r) && r.log == before + effects
    ensures forall id :: Subscription(ChannelUpdate, Some(id)) in OpenedUpdates(effects) ==> id in r.refs
  {
    LiveHandlesSuffix(before, effects);
    forall id | Subscription(ChannelUpdate, Some(id)) in OpenedUpdates(effects) ensures id in r.refs {
      UpdatesAmongMembers(effects, LiveHandles(effects), id, Subscription(ChannelUpdate, Some(id)));
      var hd :| hd in LiveHandles(effects) && SubscribeUpdate(id, hd) in effects;
      assert SubscribeUpdate(id, hd) in r.log;
      assert hd in r.refs.Values;
    }
  }

  /** The effects of a reconciliation run: the stale pass's, then the requests; what they delete and create. */
  lemma RunEffects(h: Hub, environment: string, users: seq<User>, directory: map<UserId, User>,
                   snapshot: seq<Subscription>, now: int)
    returns (stale: seq<Effect>, reqs: seq<Effect>)
    ensures Reconcile(h, environment, users, directory, snapshot, now).log == h.log + stale + reqs
    ensures reqs == Requests(snapshot, users)
    ensures Deleted(stale + reqs) == StaleOf(users, snapshot)
    ensures forall id :: (SubscribeOnline(id) in stale + reqs || SubscribeOffline(id) in stale + reqs)
                           ==> IsRosterId(users, id)
  {
    reqs := Requests(snapshot, users);
    stale := StaleEffects(h, environment, users, directory, snapshot, now);
    CollectAppend(stale, reqs, UnsubscribedOf);
    RequestsExactly(snapshot, users);
    NoneUnsubscribed(reqs);
    RequestedOnlyRoster(stale, reqs, snapshot, users);
  }

  lemma RequestedOnlyRoster(stale: seq<Effect>, reqs: seq<Effect>, snapshot: seq<Subscription>, users: seq<User>)
    requires Created(stale) == [] && reqs == Requests(snapshot, users)
    ensures forall id :: (SubscribeOnline(id) in stale + reqs || SubscribeOffline(id) in stale + reqs)
                           ==> IsRosterId(users, id)
  {
    RequestsExactly(snapshot, users);
    forall id | SubscribeOnline(id) in stale + reqs || SubscribeOffline(id) in stale + reqs
      ensures IsRosterId(users, id)
    {
      if SubscribeOnline(id) in stale {
        CreatedMembers(stale, Subscription(StreamOnline, Some(id)));
      }
      if SubscribeOffline(id) in stale {
        CreatedMembers(stale, Subscription(StreamOffline, Some(id)));
      }
    }
  }

  /** The effects of the stale pass alone: it deletes exactly the stale subscriptions and requests nothing. */
  lemma StaleEffects(h: Hub, environment: string, users: seq<User>, directory: map<UserId, User>,
                     snapshot: seq<Subscription>, now: int)
    returns (stale: seq<Effect>)
    ensures var h1 := StalePass(h, environment, users, directory, snapshot, now);
            && h1.log == h.log + stale
            && Deleted(stale) == StaleOf(users, snapshot)
            && Created(stale) == []
  {
    var h1 := StalePass(h, environment, users, directory, snapshot, now);
    StalePassExtends(h, environment, users, directory, snapshot, now);
    stale := h1.log[|h.log|..];
    assert h1.log == h.log + stale;
    StalePassUnsubscribes(h, environment, users, directory, snapshot, now);
    CollectAppend(h.log, stale, UnsubscribedOf);
    CollectAppend(h.log, stale, CreatedOf);
    assert (Deleted(h.log) + Deleted(stale))[|Deleted(h.log)|..] == Deleted(stale);
    assert (Deleted(h.log) + StaleOf(users, snapshot))[|Deleted(h.log)|..] == StaleOf(users, snapshot);
    assert (Created(h.log) + Created(stale))[|Created(h.log)|..] == Created(stale);
  }

  lemma AfterNotStale(snapshot: seq<Subscription>, effects: seq<Effect>, users: seq<User>, x: Subscription)
    requires Deleted(effects) == StaleOf(users, snapshot)
    requires forall id :: SubscribeOnline(id) in effects || SubscribeOffline(id) in effects ==> IsRosterId(users, id)
    requires x in Kept(snapshot, Deleted(effects)) + Created(effects)
    ensures !IsStale(users, x)
  {
    if x in Kept(snapshot, Deleted(effects)) {
      KeptMembers(snapshot, Deleted(effects), x);
      StaleOfMembers(users, snapshot, x);
    } else {
      CreatedMembers(effects, x);
    }
  }

  lemma {:induction false} NoneUnsubscribed(effects: seq<Effect>)
    requires forall e :: e in effects ==> e.SubscribeOnline? || e.SubscribeOffline?
    ensures Deleted(effects) == []
    decreases |effects|
  {
    if effects != [] {
      var init := effects[..|effects| - 1];
      var e := effects[|effects| - 1];
      assert forall x :: x in init ==> x in effects;
      NoneUnsubscribed(init);
      assert effects == init + [e];
      assert e in effects;
      LogStep(init, e);
    }
  }

  lemma HasAfter(snapshot: seq<Subscription>, effects: seq<Effect>, users: seq<User>,
                 stale: seq<Effect>, reqs: seq<Effect>, id: UserId, kind: string)
    requires kind == StreamOnline || kind == StreamOffline
    requires IsRosterId(users, id)
    requires effects == stale + reqs && reqs == Requests(snapshot, users)
    requires Deleted(effects) == StaleOf(users, snapshot)
    ensures HasSubscription(RemoteAfter(snapshot, effects), id, kind)
  {
    var x := Subscription(kind, Some(id));
    var found := KeptOrCreated(snapshot, effects, users, stale, reqs, id, kind);
    var after := RemoteAfter(snapshot, effects);
    assert after == (Kept(snapshot, Deleted(effects)) + Created(effects)) + OpenedUpdates(effects);
    assert found in after;
    var j :| 0 <= j < |after| && after[j] == found;
  }

  /** A roster user's subscription of either kind survives in the snapshot or is requested. */
  lemma KeptOrCreated(snapshot: seq<Subscription>, effects: seq<Effect>, users: seq<User>,
                      stale: seq<Effect>, reqs: seq<Effect>, id: UserId, kind: string)
    returns (found: Subscription)
    requires kind == StreamOnline || kind == StreamOffline
    requires IsRosterId(users, id)
    requires effects == stale + reqs && reqs == Requests(snapshot, users)
    requires Deleted(effects) == StaleOf(users, snapshot)
    ensures found.kind == kind && found.broadcasterUserId == Some(id)
    ensures found in Kept(snapshot, Deleted(effects)) + Created(effects)
  {
    if HasSubscription(snapshot, id, kind) {
      var k :| 0 <= k < |snapshot| && snapshot[k].kind == kind && snapshot[k].broadcasterUserId == Some(id);
      found := snapshot[k];
      assert !IsStale(users, found);
      StaleOfMembers(users, snapshot, found);
      KeptMembers(snapshot, Deleted(effects), found);
    } else {
      RequestsExactly(snapshot, users);
      found := Subscription(kind, Some(id));
      if kind == StreamOnline {
        assert SubscribeOnline(id) in reqs;
        assert SubscribeOnline(id) in effects;
      } else {
        assert SubscribeOffline(id) in reqs;
        assert SubscribeOffline(id) in effects;
      }
      CreatedMembers(effects, found);
    }
  }

  /**
   * Running reconciliation again on the remote state the first run left
   * changes nothing, when that run left no handle with a user off the
   * roster.
   */
  lemma SecondRunQuiet(h: Hub, environment: string, users: seq<User>, directory: map<UserId, User>,
                       snapshot: seq<Subscription>, now: int, h2: Hub, directory2: map<UserId, User>, now2: int)
    requires Tracked(h)
    requires forall id :: id in Reconcile(h, environment, users, directory, snapshot, now).refs ==> IsRosterId(users, id)
    ensures var r := Reconcile(h, environment, users, directory, snapshot, now);
            |r.log| >= |h.log| &&
            Reconcile(h2, environment, users, directory2, RemoteAfter(snapshot, r.log[|h.log|..]), now2) == h2
  {
    var r := Reconcile(h, environment, users, directory, snapshot, now);
    ReconcileCovers(h, environment, users, directory, snapshot, now);
    ReconcileIdempotent(h2, environment, users, directory2, RemoteAfter(snapshot, r.log[|h.log|..]), now2);
  }

  /**
   * The leak the hypothesis above excludes: with roster [A], a stale
   * `stream.offline` subscription of a user E who resolves and holds no
   * handle makes the run open a channel-update subscription for E. It is
   * stale in the remote state the run leaves, so the next run deletes it.
   */
  lemma StaleUpdateLeaks()
    ensures var a, e := User("A", "A", ""), User("E", "E", "");
            var snapshot := [Subscription(StreamOffline, Some("E"))];
            var r := Reconcile(Hub(map[], 0, []), "development", [a], map["E" := e], snapshot, 0);
            var after := RemoteAfter(snapshot, r.log);
            var r2 := Reconcile(r, "development", [a], map["E" := e], after, 1);
            && "E" in r.refs
            && Subscription(ChannelUpdate, Some("E")) in after
            && !Covers(after, [a])
            && |r2.log| >= |r.log| && Subscription(ChannelUpdate, Some("E")) in Deleted(r2.log[|r.log|..])
  {
    var a, e := User("A", "A", ""), User("E", "E", "");
    var users, directory := [a], map["E" := e];
    var snapshot := [Subscription(StreamOffline, Some("E"))];
    var r := Reconcile(Hub(map[], 0, []), "development", users, directory, snapshot, 0);
    LeakFirstRun();
    var after := RemoteAfter(snapshot, r.log);
    var x := Subscription(ChannelUpdate, Some("E"));
    var k :| 0 <= k < |after| && after[k] == x;
    assert IsStale(users, after[k]);
    ReconcileDeletesStale(r, "development", users, directory, after, 1, x);
  }

  /** The first run of the leak scenario: it opens a channel-update subscription for E and leaves it open. */
  lemma LeakFirstRun()
    ensures var snapshot := [Subscription(StreamOffline, Some("E"))];
            var r := Reconcile(Hub(map[], 0, []), "development", [User("A", "A", "")], map["E" := User("E", "E", "")], snapshot, 0);
            "E" in r.refs && Subscription(ChannelUpdate, Some("E")) in RemoteAfter(snapshot, r.log)
            && !IsRosterId([User("A", "A", "")], "E")
  {
    var users, directory := [User("A", "A", "")], map["E" := User("E", "E", "")];
    var snapshot := [Subscription(StreamOffline, Some("E"))];
    var h := Hub(map[], 0, []);
    LeakStalePass();
    var r := Reconcile(h, "development", users, directory, snapshot, 0);
    assert SubscribeUpdate("E", 0) in r.log;
    ReconcileTracked(h, "development", users, directory, snapshot, 0);
    assert 0 in LiveHandles(r.log);
    var x := Subscription(ChannelUpdate, Some("E"));
    UpdatesAmongMembers(r.log, LiveHandles(r.log), "E", x);
    assert x in OpenedUpdates(r.log);
  }

  /** The stale pass of the leak scenario subscribes E to channel updates first. */
  lemma LeakStalePass()
    ensures var h1 := StalePass(Hub(map[], 0, []), "development", [User("A", "A", "")], map["E" := User("E", "E", "")],
                                [Subscription(StreamOffline, Some("E"))], 0);
            !IsRosterId([User("A", "A", "")], "E")
            && h1.refs == map["E" := 0] && |h1.log| > 0 && h1.log[0] == SubscribeUpdate("E", 0)
  {
    var users, directory := [User("A", "A", "")], map["E" := User("E", "E", "")];
    var snapshot := [Subscription(StreamOffline, Some("E"))];
    var h := Hub(map[], 0, []);
    assert !IsRosterId(users, "E");
    assert StalePass(h, "development", users, directory, snapshot, 0)
        == StaleStep(h, "development", users, directory, snapshot[0], 0);
  }

  /** A run deletes every stale subscription of its snapshot. */
  lemma ReconcileDeletesStale(h: Hub, environment: string, users: seq<User>, directory: map<UserId, User>,
                              snapshot: seq<Subscription>, now: int, x: Subscription)
    requires x in snapshot && IsStale(users, x)
    ensures var r := Reconcile(h, environment, users, directory, snapshot, now);
            |r.log| >= |h.log| && x in Deleted(r.log[|h.log|..])
  {
    var stale := StaleEffects(h, environment, users, directory, snapshot, now);
    StaleOfMembers(users, snapshot, x);
    DeletedAfter(h.log, stale, Requests(snapshot, users), x);
  }

  /** What an earlier part of a run deletes is among what the run deletes. */
  lemma DeletedAfter(before: seq<Effect>, first: seq<Effect>, second: seq<Effect>, x: Subscription)
    requires x in Deleted(first)
    ensures |before + first + second| >= |before| && x in Deleted((before + first + second)[|before|..])
  {
    assert (before + first + second)[|before|..] == first + second;
    CollectAppend(first, second, UnsubscribedOf);
  }

  lemma ReconcileTracked(h: Hub, environment: string, users: seq<User>, directory: map<UserId, User>,
                         snapshot: seq<Subscription>, now: int)
    requires Tracked(h)
    ensures Tracked(Reconcile(h, environment, users, directory, snapshot, now))
  {
    StalePassTracked(h, environment, users, directory, snapshot, now);
    RequestsKeepUpdates(snapshot, users);
    var h1 := StalePass(h, environment, users, directory, snapshot, now);
    LiveHandlesKept(h1.log, Requests(snapshot, users));
  }

  // ---------------------------------------------------------------------
  // The initial run: announcing users who are already live

  /** One step of the `isInit` loop: a non-test user with a live stream gets the online handling. */
  function InitStep(h: Hub, environment: string, u: User, live: map<UserId, Stream>, now: int): Hub
  {
    if !IsDevTest(environment, u) && u.id in live then HandleEvent(h, environment, u, Some(live[u.id]), false, now)
    else h
  }

  function InitPass(h: Hub, environment: string, users: seq<User>, live: map<UserId, Stream>, now: int): Hub
    decreases |users|
  {
    if users == [] then h
    else InitStep(InitPass(h, environment, users[..|users| - 1], live, now), environment, users[|users| - 1], live, now)
  }

  /** The online events the initial run is meant to announce: non-test users with a live stream, in roster order. */
  function Announcements(environment: string, users: seq<User>, live: map<UserId, Stream>): seq<Event>
    decreases |users|
  {
    if users == [] then []
    else
      var u := users[|users| - 1];
      Announcements(environment, users[..|users| - 1], live)
      + (if !IsDevTest(environment, u) && u.id in live then [Online(u, live[u.id].startDate, live[u.id])] else [])
  }

  /** With `isInit`, exactly the announcements are emitted, in roster order, and nothing else. */
  lemma {:induction false} InitAnnounces(h: Hub, environment: string, users: seq<User>,
                                         live: map<UserId, Stream>, now: int)
    ensures Emitted(InitPass(h, environment, users, live, now).log) == Emitted(h.log) + Announcements(environment, users, live)
    decreases |users|
  {
    if users != [] {
      InitAnnounces(h, environment, users[..|users| - 1], live, now);
    }
  }

  lemma {:induction false} InitPassTracked(h: Hub, environment: string, users: seq<User>,
                                           live: map<UserId, Stream>, now: int)
    requires Tracked(h)
    ensures Tracked(InitPass(h, environment, users, live, now))
    decreases |users|
  {
    if users != [] {
      var u := users[|users| - 1];
      InitPassTracked(h, environment, users[..|users| - 1], live, now);
      var h0 := InitPass(h, environment, users[..|users| - 1], live, now);
      if !IsDevTest(environment, u) && u.id in live {
        HandleEventTracked(h0, environment, u, Some(live[u.id]), false, now);
      }
    }
  }

  /** `subscribe`: reconcile, then, on the initial run, announce the users already live. */
  function Subscribed(h: Hub, environment: string, users: seq<User>, directory: map<UserId, User>,
                      snapshot: seq<Subscription>, live: map<UserId, Stream>, isInit: bool, now: int): Hub
  {
    var h1 := Reconcile(h, environment, users, directory, snapshot, now);
    if isInit then InitPass(h1, environment, users, live, now) else h1
  }

  /** A whole `subscribe` call keeps the handle map in step with the live channel-update subscriptions. */
  lemma SubscribedTracked(h: Hub, environment: string, users: seq<User>, directory: map<UserId, User>,
                          snapshot: seq<Subscription>, live: map<UserId, Stream>, isInit: bool, now: int)
    requires Tracked(h)
    ensures Tracked(Subscribed(h, environment, users, directory, snapshot, live, isInit, now))
  {
    ReconcileTracked(h, environment, users, directory, snapshot, now);
    if isInit {
      InitPassTracked(Reconcile(h, environment, users, directory, snapshot, now), environment, users, live, now);
    }
  }

  // ---------------------------------------------------------------------
  // The scans of `updateStreamEventSubs`

  /** The scan of the roster for a subscription's user id, stopping at the first match. */
  method IsDeprecated(validUsers: seq<User>, subscriptionUserId: UserId) returns (isDeprecated: bool)
    ensures isDeprecated <==> !IsRosterId(validUsers, subscriptionUserId)
  {
    isDeprecated := true;
    var j := 0;
    while j < |validUsers|
      invariant 0 <= j <= |validUsers|
      invariant isDeprecated
      invariant forall k :: 0 <= k < j ==> validUsers[k].id != subscriptionUserId
    {
      if validUsers[j].id == subscriptionUserId {
        isDeprecated := false;
        break;
      }
      j := j + 1;
    }
  }

  /**
   * The scan of the snapshot for a roster user's online and offline
   * subscriptions, stopping as soon as both are found.
   */
  method ActiveSubscriptions(snapshot: seq<Subscription>, id: UserId) returns (hasOnline: bool, hasOffline: bool)
    ensures hasOnline <==> HasSubscription(snapshot, id, StreamOnline)
    ensures hasOffline <==> HasSubscription(snapshot, id, StreamOffline)
  {
    hasOnline, hasOffline := false, false;
    var j := 0;
    while j < |snapshot|
      invariant 0 <= j <= |snapshot|
      invariant hasOnline <==> exists k :: 0 <= k < j && snapshot[k].kind == StreamOnline
                                            && snapshot[k].broadcasterUserId == Some(id)
      invariant hasOffline <==> exists k :: 0 <= k < j && snapshot[k].kind == StreamOffline
                                             && snapshot[k].broadcasterUserId == Some(id)
    {
      var active := snapshot[j];
      if active.broadcasterUserId == Some(id) {
        match active.kind {
          case "stream.online" => hasOnline := true;
          case "stream.offline" => hasOffline := true;
          case _ =>
        }
      }
      if hasOnline && hasOffline {
        break;
      }
      j := j + 1;
    }
  }

  // ---------------------------------------------------------------------
  // The class

  class Twitch {
    /** process.env.ENVIRONMENT */
    const environment: string
    var channelUpdateEventReferences: map<UserId, Handle>
    var nextHandle: nat
    var effects: seq<Effect>

    function State(): Hub
      reads this
    {
      Hub(channelUpdateEventReferences, nextHandle, effects)
    }

    constructor (environment: string)
      ensures this.environment == environment
      ensures State() == Hub(map[], 0, []) && Tracked(State())
    {
      this.environment := environment;
      channelUpdateEventReferences := map[];
      nextHandle := 0;
      effects := [];
    }

    method ManageUpdateEventSubscription(broadcaster: User, unsubscribe: bool)
      modifies this
      ensures State() == ManageUpdate(old(State()), broadcaster, unsubscribe)
    {
      var id := broadcaster.id;
      if id in channelUpdateEventReferences {
        if unsubscribe {
          effects := effects + [StopUpdate(channelUpdateEventReferences[id])];
          channelUpdateEventReferences := channelUpdateEventReferences - {id};
        }
        return;
      }
      var handle := nextHandle;
      nextHandle := nextHandle + 1;
      effects := effects + [SubscribeUpdate(id, handle)];
      channelUpdateEventReferences := channelUpdateEventReferences[id := handle];
    }

    method EventHandler(broadcaster: User, stream: Option<Stream>, unsubscribe: bool, now: int)
      modifies this
      ensures State() == HandleEvent(old(State()), environment, broadcaster, stream, unsubscribe, now)
    {
      if !IsDevTest(environment, broadcaster) {
        if stream.None? {
          if unsubscribe {
            ManageUpdateEventSubscription(broadcaster, true);
            effects := effects + [Emit(Unsubscribed(broadcaster, now))];
            return;
          }
          ManageUpdateEventSubscription(broadcaster, true);
          effects := effects + [Emit(Offline(broadcaster, now))];
          return;
        }
        effects := effects + [Emit(Online(broadcaster, stream.value.startDate, stream.value))];
        ManageUpdateEventSubscription(broadcaster, false);
      }
    }

    method UpdateStreamEventSubs(validUsers: seq<User>, directory: map<UserId, User>,
                                 snapshot: seq<Subscription>, now: int)
      modifies this
      ensures State() == Reconcile(old(State()), environment, validUsers, directory, snapshot, now)
    {
      CleanOutDeprecated(validUsers, directory, snapshot, now);
      RegisterMissing(validUsers, snapshot);
    }

    /** The first loop of `updateStreamEventSubs`: the stale pass. */
    method CleanOutDeprecated(validUsers: seq<User>, directory: map<UserId, User>,
                              snapshot: seq<Subscription>, now: int)
      modifies this
      ensures State() == StalePass(old(State()), environment, validUsers, directory, snapshot, now)
    {
      var i := 0;
      while i < |snapshot|
        invariant 0 <= i <= |snapshot|
        invariant State() == StalePass(old(State()), environment, validUsers, directory, snapshot[..i], now)
      {
        ghost var before := State();
        var subscription := snapshot[i];
        var subscriptionUserId := subscription.broadcasterUserId.GetOr("0");
        var isDeprecated := IsDeprecated(validUsers, subscriptionUserId);
        if isDeprecated {
          if subscriptionUserId in directory {
            EventHandler(directory[subscriptionUserId], None, true, now);
          }
          effects := effects + [Unsubscribe(subscription)];
        }
        assert State() == StaleStep(before, environment, validUsers, directory, subscription, now);
        assert snapshot[..i + 1][..i] == snapshot[..i];
        i := i + 1;
      }
      assert snapshot[..|snapshot|] == snapshot;
    }

    /** The second loop of `updateStreamEventSubs`: request the missing stream subscriptions of each roster user. */
    method RegisterMissing(validUsers: seq<User>, snapshot: seq<Subscription>)
      modifies this
      ensures channelUpdateEventReferences == old(channelUpdateEventReferences) && nextHandle == old(nextHandle)
      ensures effects == old(effects) + Requests(snapshot, validUsers)
    {
      assert effects + Requests(snapshot, validUsers[..0]) == effects;
      var i := 0;
      while i < |validUsers|
        invariant 0 <= i <= |validUsers|
        invariant channelUpdateEventReferences == old(channelUpdateEventReferences) && nextHandle == old(nextHandle)
        invariant effects == old(effects) + Requests(snapshot, validUsers[..i])
      {
        ghost var before := effects;
        var validUser := validUsers[i];
        var hasOnline, hasOffline := ActiveSubscriptions(snapshot, validUser.id);
        if !hasOnline {
          effects := effects + [SubscribeOnline(validUser.id)];
        }
        if !hasOffline {
          effects := effects + [SubscribeOffline(validUser.id)];
        }
        assert effects == before + UserRequests(snapshot, validUser);
        assert validUsers[..i + 1][..i] == validUsers[..i];
        i := i + 1;
      }
      assert validUsers[..|validUsers|] == validUsers;
    }

    method Subscribe(users: seq<User>, directory: map<UserId, User>, snapshot: seq<Subscription>,
                     live: map<UserId, Stream>, isInit: bool, now: int)
      modifies this
      ensures State() == Subscribed(old(State()), environment, users, directory, snapshot, live, isInit, now)
    {
      UpdateStreamEventSubs(users, directory, snapshot, now);
      if isInit {
        ghost var reconciled := State();
        for i := 0 to |users|
          invariant State() == InitPass(reconciled, environment, users[..i], live, now)
        {
          var user := users[i];
          if !IsDevTest(environment, user) {
            if user.id in live {
              EventHandler(user, Some(live[user.id]), false, now);
            }
          }
          assert users[..i + 1][..i] == users[..i];
        }
        assert users[..|users|] == users;
      }
    }
  }
}
