/** The pub/sub lock protocol of `portalocker.redis.RedisLock`, stated on values.

    The lock's mutable part is the snapshot `LockState` (the fields `thread`,
    `pubsub`, `connection` and `close_connection`). Each operation is a function
    from the old snapshot and the answers of the Redis server to the new snapshot
    and the calls the lock made, in order. The Redis client is an oracle: for
    every acquisition attempt an `Observation` gives the kind of the first
    message received, the receiver count reported by the `acquire` publish and
    the clock reading taken by the timeout check. Time is an integer count of
    milliseconds. */
module RedisProtocol {
  import opened Wrappers

  /** A keyword-argument value handed to the Redis client. */
  datatype Value = IntValue(i: int) | StrValue(s: string) | BoolValue(b: bool) | NoneValue

  type Kwargs = map<string, Value>

  /** The class-level defaults merged into the client keyword arguments. */
  const DEFAULT_REDIS_KWARGS: Kwargs := map["health_check_interval" := IntValue(10)]

  /** 1 second and 0.1 second, in milliseconds. */
  const DEFAULT_UNAVAILABLE_TIMEOUT: int := 1000
  const DEFAULT_THREAD_SLEEP_TIME: int := 100

  const FAILED_MESSAGE: string := "Failed to acquire lock"
  const TIMEOUT_MESSAGE: string := "Timeout while acquiring lock"
  /** The message Python gives when `_try_acquire` calls `.pubsub()` on a
      connection that is `None`. */
  const NO_PUBSUB_MESSAGE: string := "'NoneType' object has no attribute 'pubsub'"

  /** Python's `redis_kwargs or dict()`: a missing dictionary is an empty one,
      and a given one (empty or not) is used with its own keys and values. */
  function CallerKwargs(redisKwargs: Option<Kwargs>): (given: Kwargs)
    ensures forall k :: k in given <==> redisKwargs.Some? && k in redisKwargs.value
    ensures forall k :: k in given ==> redisKwargs.Some? && given[k] == redisKwargs.value[k]
  {
    if redisKwargs.Some? then redisKwargs.value else map[]
  }

  /** A Redis connection: one the caller passed in (identified by a number), or
      one the lock opened itself with the merged keyword arguments. */
  datatype Connection = Supplied(id: nat) | Created(kwargs: Kwargs)

  /** A pub/sub object obtained from a connection. */
  datatype PubSub = PubSub(connection: Connection)

  /** The keep-alive worker thread, draining the pub/sub object it was given. */
  datatype Worker = Worker(pubsub: PubSub)

  /** The kind of the first message `get_message` returns in an attempt. */
  datatype MessageKind = NoMessage | SubscribeMessage | OtherMessage

  /** The `action` field of the JSON payload the lock publishes. */
  datatype Action = AcquireAction | ReleaseAction

  /** The calls the lock makes on the outside world, all on its own channel. */
  datatype Event =
    | OpenConnection(kwargs: Kwargs)
    | OpenPubSub
    | Subscribe
    | GetMessage(timeout: int)
    | Publish(action: Action)
    | StartThread
    | StopThread
    | Unsubscribe
    | Close
    | Sleep(interval: int)

  /** The errors the lock raises. `LockException` is the one of
      portalocker/exceptions.py; `AttributeError` is Python's error for a call on
      `None`. */
  datatype Error = LockException(message: string) | AttributeError(message: string)

  /** The fields of a lock that its operations update. */
  datatype LockState = LockState(
    thread: Option<Worker>,
    pubsub: Option<PubSub>,
    connection: Option<Connection>,
    closeConnection: bool)

  /** The lock holds the resource exactly when its keep-alive worker is set. */
  predicate Held(s: LockState) {
    s.thread.Some?
  }

  /** What every reachable state satisfies: a borrowed connection is never
      dropped, an owned one is the lock's own, the pub/sub object belongs to the
      connection and the worker drains the current pub/sub object. */
  predicate Consistent(s: LockState) {
    && (s.connection.None? ==> s.closeConnection && s.pubsub.None? && s.thread.None?)
    && (s.connection.Some? ==> (s.closeConnection <==> s.connection.value.Created?))
    && (s.pubsub.Some? ==> s.connection == Some(s.pubsub.value.connection))
    && (s.thread.Some? ==> s.pubsub == Some(s.thread.value.pubsub))
  }

  /** A new state with the calls made to reach it. */
  datatype Transition = Transition(state: LockState, events: seq<Event>)

  /** `_start_keep_alive_thread`: start a worker on the current pub/sub object
      unless one is already set. */
  function StartKeepAlive(s: LockState): (t: Transition)
    requires s.pubsub.Some?
    ensures Held(t.state)
    ensures Held(s) ==> t == Transition(s, [])
    ensures !Held(s) ==> t.events == [StartThread]
    ensures t.state.thread == Some(if Held(s) then s.thread.value else Worker(s.pubsub.value))
    ensures t.state.pubsub == s.pubsub && t.state.connection == s.connection
    ensures t.state.closeConnection == s.closeConnection
  {
    if s.thread.None? then
      Transition(s.(thread := Some(Worker(s.pubsub.value))), [StartThread])
    else
      Transition(s, [])
  }

  /** The acceptance test on the first message: nothing arrived, or only the
      confirmation of the own subscription. */
  predicate Accepts(message: MessageKind)
    ensures Accepts(message) <==> !message.OtherMessage?
  {
    message == NoMessage || message == SubscribeMessage
  }

  /** The outcome of one `_try_acquire` call. */
  datatype Attempted = Attempted(state: LockState, events: seq<Event>, outcome: Result<bool, Error>)

  /** `_try_acquire`: recreate the pub/sub object if it is gone, subscribe, wait
      for one message, publish `acquire` if the message passes the acceptance
      test and start the keep-alive worker when exactly one subscriber received
      it; the subscription is dropped again at the end in every case. Without a
      connection (an owned one after `release`) the first step already fails.
      The contract is meant for `Consistent` states, the only ones a lock can
      reach: a state with a pub/sub object but no connection would fail at the
      publish in the source, which this function does not model. */
  function Attempt(s: LockState, unavailableTimeout: int, message: MessageKind, receivers: nat): (a: Attempted)
    ensures a.outcome.Err? <==> s.pubsub.None? && s.connection.None?
    ensures a.outcome.Err? ==> a.state == s && a.events == []
    ensures a.outcome.Ok? ==>
      && (a.outcome.value <==> Accepts(message) && receivers == 1)
      && a.state.connection == s.connection
      && a.state.closeConnection == s.closeConnection
      && a.state.pubsub == (if s.pubsub.Some? then s.pubsub else Some(PubSub(s.connection.value)))
      && a.state.thread == (if a.outcome.value && !Held(s) then Some(Worker(a.state.pubsub.value)) else s.thread)
  {
    if s.pubsub.None? && s.connection.None? then
      Attempted(s, [], Err(AttributeError(NO_PUBSUB_MESSAGE)))
    else
      var recreated := if s.pubsub.None? then [OpenPubSub] else [];
      var s1 := if s.pubsub.None? then s.(pubsub := Some(PubSub(s.connection.value))) else s;
      var listened := recreated + [Subscribe, GetMessage(unavailableTimeout)];
      if !Accepts(message) then
        Attempted(s1, listened + [Unsubscribe], Ok(false))
      else if receivers != 1 then
        Attempted(s1, listened + [Publish(AcquireAction), Unsubscribe], Ok(false))
      else
        var k := StartKeepAlive(s1);
        Attempted(k.state, listened + [Publish(AcquireAction)] + k.events + [Unsubscribe], Ok(true))
  }

  /** The index of the `subscribe` call in an attempt: 1 when the pub/sub
      object had to be recreated first, 0 otherwise. */
  function SubscribeIndex(s: LockState): nat {
    if s.pubsub.None? then 1 else 0
  }

  /** The calls one attempt that gets past the first line makes, listed case
      by case: without a worker and with an accepted message and one receiver
      it starts the worker, and in every case it unsubscribes last. */
  lemma AttemptCallCases(s: LockState, unavailableTimeout: int, message: MessageKind, receivers: nat)
    requires s.pubsub.Some? || s.connection.Some?
    ensures var a := Attempt(s, unavailableTimeout, message, receivers);
      var g := GetMessage(unavailableTimeout); var p := Publish(AcquireAction);
      var prefix := if s.pubsub.None? then [OpenPubSub, Subscribe, g] else [Subscribe, g];
      && (!Accepts(message) ==> a.events == prefix + [Unsubscribe])
      && (Accepts(message) && (receivers != 1 || Held(s)) ==> a.events == prefix + [p, Unsubscribe])
      && (Accepts(message) && receivers == 1 && !Held(s) ==> a.events == prefix + [p, StartThread, Unsubscribe])
  {
  }

  /** A call an attempt may make. */
  predicate AttemptCall(e: Event, unavailableTimeout: int) {
    e == OpenPubSub || e == Subscribe || e == GetMessage(unavailableTimeout)
    || e == Publish(AcquireAction) || e == StartThread || e == Unsubscribe
  }

  /** The order of the calls of one attempt: the pub/sub object is recreated
      first when it was gone, then the attempt subscribes and waits for a
      message; it publishes only `acquire` and only after the subscription, and
      it unsubscribes last, whatever the outcome. */
  lemma AttemptCallOrder(s: LockState, unavailableTimeout: int, message: MessageKind, receivers: nat)
    requires s.pubsub.Some? || s.connection.Some?
    ensures var a := Attempt(s, unavailableTimeout, message, receivers); var k := SubscribeIndex(s);
      && k + 3 <= |a.events|
      && (s.pubsub.None? ==> a.events[0] == OpenPubSub)
      && a.events[k + 1] == GetMessage(unavailableTimeout)
      && (forall i :: 0 <= i < |a.events| ==> (a.events[i] == Subscribe <==> i == k))
      && (forall i :: 0 <= i < |a.events| ==> (a.events[i] == Unsubscribe <==> i == |a.events| - 1))
      && (forall i :: 0 <= i < |a.events| && a.events[i].Publish? ==> k < i && a.events[i] == Publish(AcquireAction))
  {
    AttemptCallCases(s, unavailableTimeout, message, receivers);
  }

  /** Which calls one attempt makes: `acquire` is published exactly when the
      first message passes the acceptance test, the worker is started exactly
      on a success while none was running, and no call outside `AttemptCall`
      is made, so nothing is stopped, closed or published as `release`. */
  lemma AttemptCallsMade(s: LockState, unavailableTimeout: int, message: MessageKind, receivers: nat)
    requires s.pubsub.Some? || s.connection.Some?
    ensures var a := Attempt(s, unavailableTimeout, message, receivers);
      && (Publish(AcquireAction) in a.events <==> Accepts(message))
      && (StartThread in a.events <==> Accepts(message) && receivers == 1 && !Held(s))
      && (forall i :: 0 <= i < |a.events| ==> AttemptCall(a.events[i], unavailableTimeout))
  {
    AttemptCallCases(s, unavailableTimeout, message, receivers);
  }

  /** The position of a call in the release sequence; 4 for calls release never makes. */
  function ReleaseRank(e: Event): nat {
    match e
    case StopThread => 0
    case Unsubscribe => 1
    case Publish(ReleaseAction) => 2
    case Close => 3
    case _ => 4
  }

  /** `release`: stop the worker, drop the subscription, announce `release` on
      the connection and close it when the lock owns it; each step only when its
      field is set. */
  function Release(s: LockState): (t: Transition)
    ensures !Held(t.state) && t.state.pubsub.None?
    ensures t.state.connection == (if s.closeConnection then None else s.connection)
    ensures t.state.closeConnection == s.closeConnection
  {
    var stopped := if s.thread.Some? then [StopThread] else [];
    var unsubscribed := if s.pubsub.Some? then [Unsubscribe] else [];
    var announced :=
      if s.connection.Some? then [Publish(ReleaseAction)] + (if s.closeConnection then [Close] else [])
      else [];
    Transition(
      LockState(None, None, if s.closeConnection then None else s.connection, s.closeConnection),
      stopped + unsubscribed + announced)
  }

  /** The calls of `release`, listed case by case over the three guards. */
  lemma ReleaseCallCases(s: LockState)
    ensures var t := Release(s); var r := Publish(ReleaseAction);
      && (s.connection.None? && Held(s) && s.pubsub.Some? ==> t.events == [StopThread, Unsubscribe])
      && (s.connection.None? && Held(s) && s.pubsub.None? ==> t.events == [StopThread])
      && (s.connection.None? && !Held(s) && s.pubsub.Some? ==> t.events == [Unsubscribe])
      && (s.connection.None? && !Held(s) && s.pubsub.None? ==> t.events == [])
      && (s.connection.Some? && s.closeConnection && Held(s) && s.pubsub.Some? ==> t.events == [StopThread, Unsubscribe, r, Close])
      && (s.connection.Some? && s.closeConnection && Held(s) && s.pubsub.None? ==> t.events == [StopThread, r, Close])
      && (s.connection.Some? && s.closeConnection && !Held(s) && s.pubsub.Some? ==> t.events == [Unsubscribe, r, Close])
      && (s.connection.Some? && s.closeConnection && !Held(s) && s.pubsub.None? ==> t.events == [r, Close])
      && (s.connection.Some? && !s.closeConnection && Held(s) && s.pubsub.Some? ==> t.events == [StopThread, Unsubscribe, r])
      && (s.connection.Some? && !s.closeConnection && Held(s) && s.pubsub.None? ==> t.events == [StopThread, r])
      && (s.connection.Some? && !s.closeConnection && !Held(s) && s.pubsub.Some? ==> t.events == [Unsubscribe, r])
      && (s.connection.Some? && !s.closeConnection && !Held(s) && s.pubsub.None? ==> t.events == [r])
  {
  }

  /** Which calls `release` makes: each of stop, unsubscribe, publish
      `release` and close exactly when its field was set (close only for an
      owned connection). */
  lemma ReleaseCallsMade(s: LockState)
    ensures var t := Release(s);
      && (StopThread in t.events <==> Held(s))
      && (Unsubscribe in t.events <==> s.pubsub.Some?)
      && (Publish(ReleaseAction) in t.events <==> s.connection.Some?)
      && (Close in t.events <==> s.connection.Some? && s.closeConnection)
  {
    ReleaseCallCases(s);
  }

  /** The order of the calls of `release`: stop, unsubscribe, publish
      `release`, close, each at most once and no other call. */
  lemma ReleaseCallOrder(s: LockState)
    ensures var t := Release(s);
      && (forall i, j :: 0 <= i < j < |t.events| ==> ReleaseRank(t.events[i]) < ReleaseRank(t.events[j]))
      && (forall i :: 0 <= i < |t.events| ==> ReleaseRank(t.events[i]) < 4)
  {
    var stopped := RankedStop(s);
    var unsubscribed := RankedUnsubscribe(s);
    var announced := RankedAnnounce(s);
    RankedConcat(stopped, unsubscribed, 0, 1, 2);
    RankedConcat(stopped + unsubscribed, announced, 0, 2, 4);
    assert Release(s).events == stopped + unsubscribed + announced;
  }

  /** The stop step of `release` is ranked in `[0, 1)`. */
  lemma RankedStop(s: LockState) returns (es: seq<Event>)
    ensures es == (if s.thread.Some? then [StopThread] else [])
    ensures Ranked(es, 0, 1)
  {
    es := if s.thread.Some? then [StopThread] else [];
    if s.thread.Some? {
      RankedOne(StopThread, 0, 1);
    }
  }

  /** The unsubscribe step of `release` is ranked in `[1, 2)`. */
  lemma RankedUnsubscribe(s: LockState) returns (es: seq<Event>)
    ensures es == (if s.pubsub.Some? then [Unsubscribe] else [])
    ensures Ranked(es, 1, 2)
  {
    es := if s.pubsub.Some? then [Unsubscribe] else [];
    if s.pubsub.Some? {
      RankedOne(Unsubscribe, 1, 2);
    }
  }

  /** The publish and close steps of `release` are ranked in `[2, 4)`. */
  lemma RankedAnnounce(s: LockState) returns (es: seq<Event>)
    ensures es == (if s.connection.Some? then [Publish(ReleaseAction)] + (if s.closeConnection then [Close] else []) else [])
    ensures Ranked(es, 2, 4)
  {
    es := [];
    if s.connection.Some? {
      RankedOne(Publish(ReleaseAction), 2, 3);
      if s.closeConnection {
        RankedOne(Close, 3, 4);
        RankedConcat([Publish(ReleaseAction)], [Close], 2, 3, 4);
        es := [Publish(ReleaseAction)] + [Close];
      } else {
        RankedWider([Publish(ReleaseAction)], 2, 3, 4);
        es := [Publish(ReleaseAction)] + [];
      }
    }
  }

  /** Calls whose ranks rise strictly and lie in `[lo, hi)`. */
  ghost predicate Ranked(es: seq<Event>, lo: nat, hi: nat) {
    && (forall i :: 0 <= i < |es| ==> lo <= ReleaseRank(es[i]) < hi)
    && (forall i, j :: 0 <= i < j < |es| ==> ReleaseRank(es[i]) < ReleaseRank(es[j]))
  }

  /** A single call is ranked by any range holding its rank. */
  lemma RankedOne(e: Event, lo: nat, hi: nat)
    requires lo <= ReleaseRank(e) < hi
    ensures Ranked([e], lo, hi)
  {
  }

  /** A ranked run stays ranked in a wider range. */
  lemma RankedWider(es: seq<Event>, lo: nat, hi: nat, wider: nat)
    requires Ranked(es, lo, hi) && hi <= wider
    ensures Ranked(es, lo, wider)
  {
  }

  /** Two ranked runs whose rank ranges follow each other form one ranked run. */
  lemma RankedConcat(a: seq<Event>, b: seq<Event>, lo: nat, mid: nat, hi: nat)
    requires lo <= mid <= hi && Ranked(a, lo, mid) && Ranked(b, mid, hi)
    ensures Ranked(a + b, lo, hi)
  {
    forall i | 0 <= i < |a + b|
      ensures lo <= ReleaseRank((a + b)[i]) < hi
    {
      if i >= |a| {
        assert (a + b)[i] == b[i - |a|];
      }
    }
    forall i, j | 0 <= i < j < |a + b|
      ensures ReleaseRank((a + b)[i]) < ReleaseRank((a + b)[j])
    {
      if j < |a| {
      } else if i < |a| {
        assert ReleaseRank((a + b)[i]) < mid;
      } else {
        assert (a + b)[i] == b[i - |a|] && (a + b)[j] == b[j - |a|];
      }
    }
  }

  /** What the oracle answers during one pass of the acquisition loop. */
  datatype Observation = Observation(message: MessageKind, receivers: nat, clock: int)

  /** The outcome of `acquire`: the lock itself is returned, an error is raised,
      or the observations ran out while the loop would still be retrying. */
  datatype AcquireOutcome = Locked | Raised(error: Error) | Undecided

  datatype Run = Run(state: LockState, events: seq<Event>, outcome: AcquireOutcome, attempts: nat)

  /** An attempt with these observations succeeds, whatever the state (when it
      does not fail with an error). */
  predicate Succeeds(o: Observation) {
    Accepts(o.message) && o.receivers == 1
  }

  /** The timeout check of the loop: with a timeout, raise once strictly more
      than `timeout` has elapsed since `start`. */
  predicate Expired(timeout: Option<int>, start: int, now: int)
    ensures timeout.None? ==> !Expired(timeout, start, now)
    ensures timeout.Some? ==> (Expired(timeout, start, now) <==> now > start + timeout.value)
  {
    timeout.Some? && now - start > timeout.value
  }

  /** The acquisition loop of `acquire` once its arguments have been resolved,
      run over the observations for successive attempts. */
  function RunAcquire(s: LockState, failWhenLocked: bool, timeout: Option<int>, checkInterval: int,
                      unavailableTimeout: int, start: int, script: seq<Observation>): (r: Run)
    decreases |script|
    ensures r.attempts <= |script|
    ensures r.outcome.Undecided? ==> r.attempts == |script|
    ensures r.outcome != Undecided ==> 1 <= r.attempts
  {
    if script == [] then
      Run(s, [], Undecided, 0)
    else
      var o := script[0];
      var a := Attempt(s, unavailableTimeout, o.message, o.receivers);
      if a.outcome.Err? then
        Run(a.state, a.events, Raised(a.outcome.error), 1)
      else if a.outcome.value then
        Run(a.state, a.events, Locked, 1)
      else if failWhenLocked then
        Run(a.state, a.events, Raised(LockException(FAILED_MESSAGE)), 1)
      else if Expired(timeout, start, o.clock) then
        Run(a.state, a.events, Raised(LockException(TIMEOUT_MESSAGE)), 1)
      else
        var rest := RunAcquire(a.state, failWhenLocked, timeout, checkInterval, unavailableTimeout, start, script[1..]);
        Run(rest.state, a.events + [Sleep(checkInterval)] + rest.events, rest.outcome, 1 + rest.attempts)
  }

  /** One pass of the acquisition loop: the run over a non-empty script is the
      first attempt followed, on a retry, by a sleep and the run over the rest. */
  lemma RunFirstAttempt(s: LockState, failWhenLocked: bool, timeout: Option<int>, checkInterval: int,
                        unavailableTimeout: int, start: int, script: seq<Observation>)
    requires script != []
    ensures var o := script[0];
      var a := Attempt(s, unavailableTimeout, o.message, o.receivers);
      var r := RunAcquire(s, failWhenLocked, timeout, checkInterval, unavailableTimeout, start, script);
      var rest := RunAcquire(a.state, failWhenLocked, timeout, checkInterval, unavailableTimeout, start, script[1..]);
      && (a.outcome.Err? ==> r == Run(s, [], Raised(a.outcome.error), 1))
      && (a.outcome == Ok(true) ==> r == Run(a.state, a.events, Locked, 1))
      && (a.outcome == Ok(false) && failWhenLocked ==> r == Run(a.state, a.events, Raised(LockException(FAILED_MESSAGE)), 1))
      && (a.outcome == Ok(false) && !failWhenLocked && Expired(timeout, start, o.clock) ==>
            r == Run(a.state, a.events, Raised(LockException(TIMEOUT_MESSAGE)), 1))
      && (a.outcome == Ok(false) && !failWhenLocked && !Expired(timeout, start, o.clock) ==>
            r == Run(rest.state, a.events + [Sleep(checkInterval)] + rest.events, rest.outcome, 1 + rest.attempts))
  {
  }

  // ---------------------------------------------------------------------------
  // Properties of the transitions

  lemma StartKeepAliveConsistent(s: LockState)
    requires Consistent(s) && s.pubsub.Some?
    ensures Consistent(StartKeepAlive(s).state)
  {
  }

  lemma AttemptConsistent(s: LockState, unavailableTimeout: int, message: MessageKind, receivers: nat)
    requires Consistent(s)
    ensures Consistent(Attempt(s, unavailableTimeout, message, receivers).state)
  {
  }

  /** After `release` nothing is held, no pub/sub object is left, and the
      connection is gone exactly when the lock owned it. */
  lemma ReleaseClears(s: LockState)
    requires Consistent(s)
    ensures var t := Release(s);
      && Consistent(t.state)
      && !Held(t.state) && t.state.pubsub.None?
      && (t.state.connection.None? <==> s.closeConnection)
  {
  }

  /** A second `release` changes nothing; with an owned connection it makes no
      call at all, with a borrowed one it only publishes `release` again. */
  lemma ReleaseTwice(s: LockState)
    requires Consistent(s)
    ensures var t1 := Release(s); var t2 := Release(t1.state);
      && t2.state == t1.state
      && t2.events == (if s.closeConnection then [] else [Publish(ReleaseAction)])
  {
  }

  /** The acquisition loop keeps the state consistent. */
  lemma {:induction false} RunConsistent(s: LockState, failWhenLocked: bool, timeout: Option<int>, checkInterval: int,
                                         unavailableTimeout: int, start: int, script: seq<Observation>)
    requires Consistent(s)
    ensures Consistent(RunAcquire(s, failWhenLocked, timeout, checkInterval, unavailableTimeout, start, script).state)
    decreases |script|
  {
    if script != [] {
      var o := script[0];
      var a := Attempt(s, unavailableTimeout, o.message, o.receivers);
      AttemptConsistent(s, unavailableTimeout, o.message, o.receivers);
      if a.outcome.Ok? && !a.outcome.value && !failWhenLocked && !Expired(timeout, start, o.clock) {
        RunConsistent(a.state, failWhenLocked, timeout, checkInterval, unavailableTimeout, start, script[1..]);
      }
    }
  }

  /** The keep-alive worker is set after `acquire` exactly when it was set
      before or the lock was acquired; with `fail_when_locked` at most one
      attempt is made and the loop never sleeps; without a timeout the timeout
      error is never raised. */
  lemma {:induction false} RunOutcomeRules(s: LockState, failWhenLocked: bool, timeout: Option<int>, checkInterval: int,
                                           unavailableTimeout: int, start: int, script: seq<Observation>)
    ensures var r := RunAcquire(s, failWhenLocked, timeout, checkInterval, unavailableTimeout, start, script);
      && (Held(r.state) <==> Held(s) || r.outcome.Locked?)
      && (failWhenLocked ==> r.attempts <= 1 && forall i :: 0 <= i < |r.events| ==> !r.events[i].Sleep?)
      && (timeout.None? ==> r.outcome != Raised(LockException(TIMEOUT_MESSAGE)))
    decreases |script|
  {
    if script != [] {
      var o := script[0];
      var a := Attempt(s, unavailableTimeout, o.message, o.receivers);
      if a.outcome.Ok? && a.outcome.value {
        assert Held(a.state);
      } else if a.outcome.Ok? && !failWhenLocked && !Expired(timeout, start, o.clock) {
        RunOutcomeRules(a.state, failWhenLocked, timeout, checkInterval, unavailableTimeout, start, script[1..]);
      } else if a.outcome.Ok? && failWhenLocked {
        AttemptCallsMade(s, unavailableTimeout, o.message, o.receivers);
        assert forall i :: 0 <= i < |a.events| ==> !a.events[i].Sleep?;
      }
    }
  }

  /** Every attempt but the last one failed, and was followed by a retry only
      because `fail_when_locked` was off and the deadline had not passed. */
  lemma {:induction false} RunRetriesAfterFailure(s: LockState, failWhenLocked: bool, timeout: Option<int>, checkInterval: int,
                                                  unavailableTimeout: int, start: int, script: seq<Observation>)
    ensures var r := RunAcquire(s, failWhenLocked, timeout, checkInterval, unavailableTimeout, start, script);
      forall j :: 0 <= j < r.attempts - 1 ==>
        !Succeeds(script[j]) && !failWhenLocked && !Expired(timeout, start, script[j].clock)
    decreases |script|
  {
    if script != [] {
      var o := script[0];
      var a := Attempt(s, unavailableTimeout, o.message, o.receivers);
      if a.outcome.Ok? && !a.outcome.value && !failWhenLocked && !Expired(timeout, start, o.clock) {
        RunRetriesAfterFailure(a.state, failWhenLocked, timeout, checkInterval, unavailableTimeout, start, script[1..]);
        var rest := RunAcquire(a.state, failWhenLocked, timeout, checkInterval, unavailableTimeout, start, script[1..]);
        forall j | 0 <= j < rest.attempts
          ensures !Succeeds(script[j]) && !failWhenLocked && !Expired(timeout, start, script[j].clock)
        {
          if j > 0 {
            assert script[j] == script[1..][j - 1];
          }
        }
      }
    }
  }

  /** `acquire` returns the lock only if the observations of its last attempt
      passed the acceptance test and reported one receiver; when it raises a
      `LockException` or is still undecided, the last observations did not.
      (A run that raised `AttributeError` may have passing observations: the
      attempt failed before it looked at them.) */
  lemma {:induction false} RunLockedOnSuccess(s: LockState, failWhenLocked: bool, timeout: Option<int>, checkInterval: int,
                                              unavailableTimeout: int, start: int, script: seq<Observation>)
    ensures var r := RunAcquire(s, failWhenLocked, timeout, checkInterval, unavailableTimeout, start, script);
      r.outcome.Locked? ==> 1 <= r.attempts && Succeeds(script[r.attempts - 1])
    ensures var r := RunAcquire(s, failWhenLocked, timeout, checkInterval, unavailableTimeout, start, script);
      r.outcome.Raised? && r.outcome.error.LockException? ==> 1 <= r.attempts && !Succeeds(script[r.attempts - 1])
    ensures var r := RunAcquire(s, failWhenLocked, timeout, checkInterval, unavailableTimeout, start, script);
      r.outcome.Undecided? && 1 <= r.attempts ==> !Succeeds(script[r.attempts - 1])
    decreases |script|
  {
    if script != [] {
      var o := script[0];
      var a := Attempt(s, unavailableTimeout, o.message, o.receivers);
      if a.outcome.Ok? && !a.outcome.value && !failWhenLocked && !Expired(timeout, start, o.clock) {
        RunLockedOnSuccess(a.state, failWhenLocked, timeout, checkInterval, unavailableTimeout, start, script[1..]);
        var rest := RunAcquire(a.state, failWhenLocked, timeout, checkInterval, unavailableTimeout, start, script[1..]);
        if rest.attempts >= 1 {
          assert script[rest.attempts] == script[1..][rest.attempts - 1];
        }
      }
    }
  }

  /** The only error other than `LockException` is the one of the very first
      attempt on a lock whose owned connection was already closed by `release`.
      Like `Attempt`, this is meant for `Consistent` states. */
  lemma {:induction false} RunAttributeError(s: LockState, failWhenLocked: bool, timeout: Option<int>, checkInterval: int,
                          unavailableTimeout: int, start: int, script: seq<Observation>)
    ensures var r := RunAcquire(s, failWhenLocked, timeout, checkInterval, unavailableTimeout, start, script);
      r.outcome.Raised? && r.outcome.error.AttributeError? <==>
        script != [] && s.connection.None? && s.pubsub.None?
    ensures var r := RunAcquire(s, failWhenLocked, timeout, checkInterval, unavailableTimeout, start, script);
      r.outcome.Raised? && r.outcome.error.AttributeError? ==> r.attempts == 1 && r.state == s && r.events == []
    decreases |script|
  {
    if script != [] {
      var o := script[0];
      var a := Attempt(s, unavailableTimeout, o.message, o.receivers);
      if a.outcome.Ok? && !a.outcome.value && !failWhenLocked && !Expired(timeout, start, o.clock) {
        RunAttributeError(a.state, failWhenLocked, timeout, checkInterval, unavailableTimeout, start, script[1..]);
      }
    }
  }

  /** The timeout error is raised only after a failed attempt whose clock
      reading is strictly past the deadline, and only with a timeout set. */
  lemma {:induction false} RunTimeoutRule(s: LockState, failWhenLocked: bool, timeout: Option<int>, checkInterval: int,
                                          unavailableTimeout: int, start: int, script: seq<Observation>)
    ensures var r := RunAcquire(s, failWhenLocked, timeout, checkInterval, unavailableTimeout, start, script);
      r.outcome == Raised(LockException(TIMEOUT_MESSAGE)) ==>
        && 1 <= r.attempts
        && !failWhenLocked
        && Expired(timeout, start, script[r.attempts - 1].clock)
    decreases |script|
  {
    if script != [] {
      var o := script[0];
      var a := Attempt(s, unavailableTimeout, o.message, o.receivers);
      if a.outcome.Ok? && !a.outcome.value && !failWhenLocked && !Expired(timeout, start, o.clock) {
        RunTimeoutRule(a.state, failWhenLocked, timeout, checkInterval, unavailableTimeout, start, script[1..]);
        var rest := RunAcquire(a.state, failWhenLocked, timeout, checkInterval, unavailableTimeout, start, script[1..]);
        if rest.attempts >= 1 {
          assert script[rest.attempts] == script[1..][rest.attempts - 1];
        }
      }
    }
  }

  /** With `fail_when_locked`, `acquire` makes exactly one attempt and makes no
      other call; if that attempt fails it raises "Failed to acquire lock". */
  lemma RunFailWhenLocked(s: LockState, timeout: Option<int>, checkInterval: int,
                          unavailableTimeout: int, start: int, script: seq<Observation>)
    requires script != []
    ensures var r := RunAcquire(s, true, timeout, checkInterval, unavailableTimeout, start, script);
      var a := Attempt(s, unavailableTimeout, script[0].message, script[0].receivers);
      && r.attempts == 1
      && r.events == a.events
      && r.state == a.state
      && (a.outcome == Ok(false) ==> r.outcome == Raised(LockException(FAILED_MESSAGE)))
      && (a.outcome == Ok(true) ==> r.outcome == Locked)
  {
  }
}
