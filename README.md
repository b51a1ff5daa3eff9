# RedisLock, modelled in Dafny

This project models `RedisLock` from portalocker's `redis` module. It is a
distributed lock built on Redis publish/subscribe. A lock counts as held while
its keep-alive thread runs. An acquisition attempt subscribes to the lock's
channel and waits for one message. If that message is absent or is the
subscription confirmation, it publishes an `acquire` notification. The attempt
succeeds when exactly one subscriber received that notification.

The project has three modules:

- `Wrappers` (wrappers.dfy) holds `Option` and `Result`.
- `RedisProtocol` (redis_protocol.dfy) states the lock's behaviour on values.
  `LockState` snapshots the four fields the code updates: `thread`, `pubsub`,
  `connection` and `close_connection`. Each operation is a function from the
  old snapshot and the server's answers to the new snapshot and the ordered
  list of calls the lock made (`Event`). The lemmas prove the protocol's rules
  from these functions.
- `RedisLocking` (redis_lock.dfy) holds the class `RedisLock`. Its fields are
  updated in place, and a ghost `log` records every call made on Redis and on
  the keep-alive thread. Each method is proved to produce exactly the state and
  calls that the matching `RedisProtocol` function describes. The module also
  holds the keyword-argument merge, written as the source's `setdefault` loop.

Redis is replaced by an oracle. One `Observation` per attempt supplies three
things: the kind of the first message (`NoMessage`, `SubscribeMessage` or
`OtherMessage`), the receiver count returned by the `acquire` publish, and the
clock reading taken by the timeout check. `acquire` also receives the clock
reading taken before its loop. Time is an integer number of milliseconds, so
the default unavailable timeout of 1 second is 1000. JSON payloads become the
enum `AcquireAction | ReleaseAction`.

Two behaviours of the code are worth stating on their own:

- `_try_acquire` unsubscribes in its `finally` clause (portalocker/redis.py:126-127)
  even after a successful attempt. A held lock's keep-alive worker therefore
  drains a pub/sub object that is no longer subscribed to the channel.
- `release` calls `stop` on the worker and drops the reference
  (portalocker/redis.py:80-82). It does not wait for the worker to finish, so
  the model records only the `stop` call.

The model also keeps two consequences of the code as written:

- After `release` on a lock that owns its connection, both `connection` and
  `pubsub` are `None`. Another `acquire` then calls `.pubsub()` on `None`. The
  model gives this as the error `AttributeError` on the first attempt
  (`RunAttributeError`).
- A second `release` on a lock with a borrowed connection publishes `release`
  again (`ReleaseTwice`).

The base class `LockBase` is in portalocker/utils.py, and portalocker/utils.py
is not part of this model. The constructor therefore takes the three fields
that the base class stores as already-resolved values: `timeout` (possibly
absent), `check_interval` and `fail_when_locked`.

## Model

| member | source | states |
|---|---|---|
| `RedisLocking.MergeRedisKwargs` | portalocker/redis.py:68-70 | the result has every default key; a key the caller gave keeps the caller's value; a key the caller did not give has the default value; no other key appears; the result equals the map union of the defaults and the caller's map (an empty map when none is given) |
| `RedisLocking.RedisLock.constructor` | portalocker/redis.py:61-74 | `close_connection` holds exactly when no connection was passed; a connection (the borrowed one, or a new one opened with the merged kwargs) and a pub/sub object from it are present; no thread; the settings are stored; the object invariant holds |
| `RedisLocking.RedisLock.Release` | portalocker/redis.py:79-90 | new state and calls are those of `RedisProtocol.Release`; the invariant is kept |
| `RedisLocking.RedisLock.StartKeepAliveThread` | portalocker/redis.py:130-134 | new state and calls are those of `RedisProtocol.StartKeepAlive` |
| `RedisLocking.RedisLock.TryAcquire` | portalocker/redis.py:116-128 | the returned result, new state and calls are those of `RedisProtocol.Attempt` for the oracle's message kind and receiver count; the invariant is kept |
| `RedisLocking.RedisLock.Acquire` | portalocker/redis.py:98-114 | arguments given as `None` fall back to the lock's own fields; outcome, new state and calls are those of `RedisProtocol.RunAcquire` over the observations |
| `RedisLocking.ContentionScenario` | portalocker/redis.py:98-128 | lock A acquires with one receiver; lock B, seeing two receivers on each attempt, is still retrying; after A releases, B acquires with one receiver |
| `RedisProtocol.CallerKwargs` | portalocker/redis.py:68 | `redis_kwargs or dict()`: with no dictionary the result has no key; a given dictionary, empty or not, is used with exactly its own keys and values |
| `RedisProtocol.Accepts` | portalocker/redis.py:122 | the first message passes exactly when it is absent or a `subscribe` confirmation; any other message fails |
| `RedisProtocol.Expired` | portalocker/redis.py:112 | never with no timeout; with a timeout, exactly when the clock reading is strictly more than `timeout` after the start |
| `RedisProtocol.StartKeepAlive` | portalocker/redis.py:130-134 | afterwards a worker is set; if one was already set nothing changes and no call is made; otherwise the one call is starting a worker on the current pub/sub object |
| `RedisProtocol.StartKeepAliveConsistent` | portalocker/redis.py:130-134 | starting the worker keeps the object invariant |
| `RedisProtocol.Attempt` | portalocker/redis.py:116-128 | raises `AttributeError` exactly when both pub/sub and connection are absent, with no call and no change; otherwise returns true exactly when the message is absent or a `subscribe` confirmation and the publish reports exactly 1 receiver; the pub/sub object is kept or recreated from the connection; a worker is started only on success when none was set; connection and ownership unchanged |
| `RedisProtocol.AttemptCallCases` | portalocker/redis.py:117-127 | the exact call list of an attempt in each case: pub/sub recreated only when absent, then subscribe and `get_message`; a rejected message goes straight to unsubscribe; an accepted one publishes `acquire`, starts a worker only with one receiver and none running, and unsubscribes last |
| `RedisProtocol.AttemptCallOrder` | portalocker/redis.py:117-127 | a recreated pub/sub comes first; the single `subscribe` follows; `get_message` with the unavailable timeout comes next; every publish is `acquire` and comes after the subscribe; the single `unsubscribe` is the last call |
| `RedisProtocol.AttemptCallsMade` | portalocker/redis.py:116-127 | `acquire` is published exactly when the message passes the acceptance test; a worker is started exactly on success while none ran; every call is one of opening a pub/sub, subscribe, `get_message` with the unavailable timeout, publishing `acquire`, starting a worker or unsubscribe, so nothing is stopped, closed or released |
| `RedisProtocol.AttemptConsistent` | portalocker/redis.py:116-128 | an attempt keeps the object invariant |
| `RedisProtocol.Release` | portalocker/redis.py:79-90 | afterwards no thread and no pub/sub; the connection is dropped exactly when the lock owns it; ownership unchanged |
| `RedisProtocol.ReleaseCallCases` | portalocker/redis.py:79-90 | the exact call list of `release` for each combination of worker, pub/sub, connection and ownership |
| `RedisProtocol.ReleaseCallsMade` | portalocker/redis.py:79-90 | stop exactly when a thread was set; unsubscribe exactly when a pub/sub was set; publish `release` exactly when a connection was present; close exactly when the connection was present and owned |
| `RedisProtocol.ReleaseCallOrder` | portalocker/redis.py:79-90 | the calls come in the order stop, unsubscribe, publish `release`, close; each is made at most once and no other call is made |
| `RedisProtocol.ReleaseClears` | portalocker/redis.py:79-90 | from a consistent state: afterwards the lock is not held, has no pub/sub, is still consistent, and has no connection exactly when it owned it |
| `RedisProtocol.ReleaseTwice` | portalocker/redis.py:79-90 | a second release leaves the state as the first left it; with an owned connection it makes no call; with a borrowed one its only call is publishing `release` |
| `RedisProtocol.RunAcquire` | portalocker/redis.py:106-114 | no more attempts than observations; an undecided run used them all; a decided run made at least one attempt |
| `RedisProtocol.RunFirstAttempt` | portalocker/redis.py:107-114 | one pass of the loop: an error propagates; success returns the lock; a failure raises "Failed to acquire lock" under `fail_when_locked`, raises "Timeout while acquiring lock" past the deadline, and otherwise sleeps `check_interval` and runs the rest |
| `RedisProtocol.RunConsistent` | portalocker/redis.py:98-134 | the acquisition loop keeps the object invariant |
| `RedisProtocol.RunOutcomeRules` | portalocker/redis.py:108-114 | afterwards a worker is set exactly when one was set before or the lock was acquired; with `fail_when_locked` at most one attempt and no sleep; with no timeout the timeout error is never raised |
| `RedisProtocol.RunRetriesAfterFailure` | portalocker/redis.py:107-114 | every attempt before the last failed, with `fail_when_locked` off and the elapsed time not greater than the timeout |
| `RedisProtocol.RunLockedOnSuccess` | portalocker/redis.py:108-111 | the lock is returned only if the last attempt's observations pass the success rule; a raised `LockException` or a run still undecided follows a last attempt that did not pass it |
| `RedisProtocol.RunAttributeError` | portalocker/redis.py:117-118 | `AttributeError` is raised exactly when the lock has neither connection nor pub/sub and an attempt is made; it happens on the first attempt, with no call and no change |
| `RedisProtocol.RunTimeoutRule` | portalocker/redis.py:112-113 | the timeout error comes only with `fail_when_locked` off, a timeout set, and a last clock reading more than `timeout` after the start (strictly greater) |
| `RedisProtocol.RunFailWhenLocked` | portalocker/redis.py:108-111 | with `fail_when_locked`: exactly one attempt, whose calls and state are the outcome's; success returns the lock; failure raises "Failed to acquire lock" |

## Left out

- The Redis client (`client.Redis`, `PubSub.get_message`, `publish`, `close`) is network I/O. Its answers come from the oracle, and its calls are recorded in the ghost log.
- Errors raised by the Redis client (connection loss, timeouts on the wire) are not modelled, because the oracle always answers.
- `PubSubWorkerThread` and its background draining loop are threading. A worker is modelled only as the presence of the `thread` field and the start and stop calls.
- RedisProtocol.StartKeepAlive: the model takes `PubSubWorkerThread(self.pubsub)` (portalocker/redis.py:132) to build and start a worker without failing. The class docstring (portalocker/redis.py:38-41) describes `thread_sleep_time` as the worker's sleep time between fetches, but line 132 never passes it; whether the library's constructor accepts the call without it is outside this model, and the model assumes it does. The redis-py constructor of `PubSubWorkerThread` is not part of this model.
- Mutual exclusion across processes through subscriber counts is not modelled. It is a property of several concurrent Redis clients, not of one instance's code. `ContentionScenario` shows only the scripted case.
- `time.time()` and `time.sleep()` become integer clock readings from the oracle and a `Sleep` entry in the log. Float timeouts become integer milliseconds.
- The `json.dumps` payloads become the two-valued `Action`.
- `__del__`, `__enter__` and `__exit__` (portalocker/redis.py:76-77, 92-96) only forward to `release` and `acquire`.
- `logger`, `random` and `_thread` are imported but not used by the core.
- The exception class hierarchy of portalocker/exceptions.py (the `fh` field, `AlreadyLocked`, `FileToLarge`) is left out. A raised exception is the `LockException` variant carrying its message.
- portalocker/utils.py (`LockBase` and its default timeout and check interval) is not part of this model. The constructor takes the base-class fields as given.
- Object identity is left out. A recreated pub/sub object equals the old one, and connections are values.
- Aliasing is left out. The source's `setdefault` loop mutates the caller's own dictionary when a non-empty one is passed; the model returns only the merged value.
- Python's `not connection` is modelled as "no connection given". A connection object is taken to be truthy.
- The channel name is not repeated in the log entries, because every call is on the lock's own channel.
- `thread_sleep_time` is stored (portalocker/redis.py:66) but never read by `release`, `acquire`, `_try_acquire` or `_start_keep_alive_thread`; see the `StartKeepAlive` line above.
- RedisLocking.RedisLock.Acquire: the source's `while True` loop can retry forever. The model runs only as many attempts as there are observations, and then returns `Undecided`.
