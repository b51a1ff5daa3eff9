/** The `RedisLock` object of portalocker/redis.py: its fields, updated in place
    by its methods, and a ghost log of the calls it makes on Redis and on its
    keep-alive thread. Every method is proved to do exactly what the matching
    function of `RedisProtocol` describes. */
module RedisLocking {
  import opened Wrappers
  import opened RedisProtocol

  /** The keyword arguments a lock passes to the Redis client: the caller's
      dictionary (an empty one when none is given) with `setdefault` applied for
      every key of `DEFAULT_REDIS_KWARGS`. The result is the map union of the
      defaults and the caller's arguments, the caller's values winning. */
  method MergeRedisKwargs(redisKwargs: Option<Kwargs>) returns (merged: Kwargs)
    ensures DEFAULT_REDIS_KWARGS.Keys <= merged.Keys
    ensures forall k :: k in merged <==> k in DEFAULT_REDIS_KWARGS || k in CallerKwargs(redisKwargs)
    ensures forall k :: k in CallerKwargs(redisKwargs) ==> merged[k] == CallerKwargs(redisKwargs)[k]
    ensures forall k :: k in merged && k !in CallerKwargs(redisKwargs) ==> merged[k] == DEFAULT_REDIS_KWARGS[k]
    ensures merged == DEFAULT_REDIS_KWARGS + CallerKwargs(redisKwargs)
  {
    var given := CallerKwargs(redisKwargs);
    merged := given;
    var pending := DEFAULT_REDIS_KWARGS.Keys;
    while pending != {}
      invariant pending <= DEFAULT_REDIS_KWARGS.Keys
      invariant forall k :: k in merged <==> k in given || (k in DEFAULT_REDIS_KWARGS && k !in pending)
      invariant forall k :: k in given ==> merged[k] == given[k]
      invariant forall k :: k in merged && k !in given ==> merged[k] == DEFAULT_REDIS_KWARGS[k]
      decreases pending
    {
      var key :| key in pending;
      // dict.setdefault(key, value)
      if key !in merged {
        merged := merged[key := DEFAULT_REDIS_KWARGS[key]];
      }
      pending := pending - {key};
    }
  }

  /** Sequence concatenation is associative; the acquisition loop regroups its
      log with it. */
  lemma ConcatAssociative<T>(a: seq<T>, b: seq<T>, c: seq<T>)
    ensures a + b + c == a + (b + c)
  {
  }

  class RedisLock {
    const channel: string
    const threadSleepTime: int
    const unavailableTimeout: int
    const redisKwargs: Kwargs
    // the fields the base class stores
    const timeout: Option<int>
    const checkInterval: int
    const failWhenLocked: bool

    var thread: Option<Worker>
    var pubsub: Option<PubSub>
    var connection: Option<Connection>
    var closeConnection: bool

    /** The calls made on Redis and on the keep-alive thread since construction. */
    ghost var log: seq<Event>

    function State(): LockState
      reads this
    {
      LockState(thread, pubsub, connection, closeConnection)
    }

    ghost predicate Valid()
      reads this
    {
      Consistent(State())
    }

    /** `__init__`: borrow the given connection or open one with the merged
        keyword arguments, and take a pub/sub object from it. */
    constructor (channel: string, connection: Option<nat>, timeout: Option<int>, checkInterval: int,
                 failWhenLocked: bool, threadSleepTime: int := DEFAULT_THREAD_SLEEP_TIME,
                 unavailableTimeout: int := DEFAULT_UNAVAILABLE_TIMEOUT, redisKwargs: Option<Kwargs> := None)
      ensures Valid()
      ensures this.closeConnection <==> connection.None?
      ensures this.thread.None?
      ensures this.connection == Some(if connection.Some? then Supplied(connection.value) else Created(this.redisKwargs))
      ensures this.pubsub == Some(PubSub(this.connection.value))
      ensures this.redisKwargs == DEFAULT_REDIS_KWARGS + CallerKwargs(redisKwargs)
      ensures this.channel == channel && this.timeout == timeout && this.checkInterval == checkInterval
      ensures this.failWhenLocked == failWhenLocked && this.threadSleepTime == threadSleepTime
      ensures this.unavailableTimeout == unavailableTimeout
      ensures log == (if connection.None? then [OpenConnection(this.redisKwargs)] else []) + [OpenPubSub]
    {
      this.closeConnection := connection.None?;
      this.thread := None;
      this.channel := channel;
      this.connection := if connection.Some? then Some(Supplied(connection.value)) else None;
      this.threadSleepTime := threadSleepTime;
      this.unavailableTimeout := unavailableTimeout;
      var merged := MergeRedisKwargs(redisKwargs);
      this.redisKwargs := merged;
      this.timeout := timeout;
      this.checkInterval := checkInterval;
      this.failWhenLocked := failWhenLocked;
      new;
      log := [];
      if this.connection.None? {
        this.connection := Some(Created(this.redisKwargs));
        log := log + [OpenConnection(this.redisKwargs)];
      }
      this.pubsub := Some(PubSub(this.connection.value));
      log := log + [OpenPubSub];
    }

    /** `release`: tear down whatever is present, in a fixed order. */
    method Release()
      requires Valid()
      modifies this
      ensures Valid()
      ensures State() == RedisProtocol.Release(old(State())).state
      ensures log == old(log) + RedisProtocol.Release(old(State())).events
    {
      ghost var calls: seq<Event> := [];
      if thread.Some? {
        calls := calls + [StopThread];
        thread := None;
      }
      if pubsub.Some? {
        calls := calls + [Unsubscribe];
        pubsub := None;
      }
      if connection.Some? {
        calls := calls + [Publish(ReleaseAction)];
        if closeConnection {
          calls := calls + [Close];
          connection := None;
        }
      }
      log := log + calls;
    }

    /** `_start_keep_alive_thread`. */
    method StartKeepAliveThread()
      requires Valid() && pubsub.Some?
      modifies this
      ensures Valid()
      ensures State() == StartKeepAlive(old(State())).state
      ensures log == old(log) + StartKeepAlive(old(State())).events
    {
      if thread.None? {
        thread := Some(Worker(pubsub.value));
        log := log + [StartThread];
      }
    }

    /** `_try_acquire`, with the first message's kind and the receiver count of
        the `acquire` publish supplied by the Redis oracle. */
    method TryAcquire(message: MessageKind, receivers: nat) returns (r: Result<bool, Error>)
      requires Valid()
      modifies this
      ensures Valid()
      ensures var a := Attempt(old(State()), unavailableTimeout, message, receivers);
        State() == a.state && log == old(log) + a.events && r == a.outcome
    {
      if pubsub.None? {
        if connection.None? {
          return Err(AttributeError(NO_PUBSUB_MESSAGE));
        }
        pubsub := Some(PubSub(connection.value));
        log := log + [OpenPubSub];
      }
      log := log + [Subscribe];
      log := log + [GetMessage(unavailableTimeout)];
      r := Ok(false);
      if Accepts(message) {
        log := log + [Publish(AcquireAction)];
        if receivers == 1 {
          StartKeepAliveThread();
          r := Ok(true);
        }
      }
      // the `finally` clause
      log := log + [Unsubscribe];
    }

    /** `acquire`: arguments left out fall back to the lock's own settings; then
        attempt, fail at once under `fail_when_locked`, fail once strictly more
        than `timeout` has passed, or sleep `check_interval` and retry. `start`
        is the clock reading taken before the loop; `script` answers the
        successive attempts. When it runs out the loop would still be retrying. */
    method Acquire(timeout: Option<int>, checkInterval: Option<int>, failWhenLocked: Option<bool>,
                   start: int, script: seq<Observation>) returns (r: AcquireOutcome)
      requires Valid()
      modifies this
      ensures Valid()
      ensures var run := RunAcquire(old(State()),
                                    if failWhenLocked.None? then this.failWhenLocked else failWhenLocked.value,
                                    if timeout.None? then this.timeout else timeout,
                                    if checkInterval.None? then this.checkInterval else checkInterval.value,
                                    unavailableTimeout, start, script);
        State() == run.state && log == old(log) + run.events && r == run.outcome
    {
      var timeout := if timeout.None? then this.timeout else timeout;
      var checkInterval := if checkInterval.None? then this.checkInterval else checkInterval.value;
      var failWhenLocked := if failWhenLocked.None? then this.failWhenLocked else failWhenLocked.value;
      ghost var whole := RunAcquire(State(), failWhenLocked, timeout, checkInterval, unavailableTimeout, start, script);
      ghost var done: seq<Event> := [];
      var i := 0;
      while i < |script|
        invariant 0 <= i <= |script|
        invariant Valid()
        invariant log == old(log) + done
        invariant var rest := RunAcquire(State(), failWhenLocked, timeout, checkInterval, unavailableTimeout, start, script[i..]);
          whole.state == rest.state && whole.events == done + rest.events && whole.outcome == rest.outcome
        decreases |script| - i
      {
        ghost var before := State();
        ghost var a := Attempt(before, unavailableTimeout, script[i].message, script[i].receivers);
        RunFirstAttempt(before, failWhenLocked, timeout, checkInterval, unavailableTimeout, start, script[i..]);
        assert script[i..][0] == script[i];
        assert script[i..][1..] == script[i + 1..];
        var attempt := TryAcquire(script[i].message, script[i].receivers);
        ConcatAssociative(old(log), done, a.events);
        if attempt.Err? {
          return Raised(attempt.error);
        }
        if attempt.value {
          return Locked;
        }
        if failWhenLocked {
          return Raised(LockException(FAILED_MESSAGE));
        }
        if Expired(timeout, start, script[i].clock) {
          return Raised(LockException(TIMEOUT_MESSAGE));
        }
        log := log + [Sleep(checkInterval)];
        ConcatAssociative(old(log), done + a.events, [Sleep(checkInterval)]);
        ghost var rest := RunAcquire(a.state, failWhenLocked, timeout, checkInterval, unavailableTimeout, start, script[i + 1..]);
        ConcatAssociative(done, a.events, [Sleep(checkInterval)]);
        ConcatAssociative(done, a.events + [Sleep(checkInterval)], rest.events);
        done := done + a.events + [Sleep(checkInterval)];
        i := i + 1;
      }
      return Undecided;
    }
  }

  /** Two locks on channel "jobs:42" sharing one borrowed connection, with every
      Redis answer scripted: A is the only subscriber and acquires; B is given
      two receivers on each of its attempts and is still retrying when its
      script ends; after A releases, a new `acquire` of B (with a new start
      time) is given one receiver and acquires. The oracle is not tied to the
      other lock, so A's release does not itself change what B observes. */
  method ContentionScenario() returns (first: AcquireOutcome, contended: AcquireOutcome, afterRelease: AcquireOutcome)
    ensures first == Locked
    ensures contended == Undecided
    ensures afterRelease == Locked
  {
    var a := new RedisLock("jobs:42", Some(7), Some(5000), 250, false);
    var b := new RedisLock("jobs:42", Some(7), Some(5000), 250, false);
    first := a.Acquire(None, None, None, 0, [Observation(SubscribeMessage, 1, 10)]);
    contended := b.Acquire(None, None, None, 20, [Observation(SubscribeMessage, 2, 1020), Observation(SubscribeMessage, 2, 2270)]);
    assert !Held(b.State());
    a.Release();
    afterRelease := b.Acquire(None, None, None, 2600, [Observation(NoMessage, 1, 3600)]);
    assert Held(b.State());
  }
}
