# PhoenixTestDriver handle registry, in Dafny

Apache Phoenix's test JDBC driver, `PhoenixTestDriver`, keeps one
`ConnectionQueryServices` handle per connection descriptor (`ConnectionInfo`).
It builds each handle lazily on the first `getConnectionQueryServices` call for
its descriptor. It shares one `QueryServices` object, created in its
constructor, among all handles. It tears everything down on `close`. Every
public method that touches the driver's state is `synchronized`, so each such
call happens in one atomic step.

The project has three modules:

- `Types` (`types.dfy`): the descriptor `ConnInfo`, which is an abstract target
  plus the `isConnectionless()` answer. It also holds the two handle variants,
  the exceptions the driver lets escape, and `Option`/`Result`.
- `Registry` (`registry.dfy`): the driver as a pure state machine. The state is
  the `closed` flag and the descriptor-to-handle map. `Step` models one call
  and `Run` models a sequence of calls. The lemmas state the lifecycle and
  caching properties over arbitrary call sequences: closed is final, a cached
  handle is never replaced while open, and there is one handle per descriptor.
- `TestDriver` (`driver.dfy`): the driver itself as a class. It has the fields
  `closed`, `connectionQueryServicesMap` and `queryServices`, and methods that
  update them in place. The postconditions of `GetConnectionQueryServices` and
  `Close` tie the new state and the result to the `Registry` functions
  (`LookupError`, `Lookup`, `Teardown`, `CloseError`). `CheckClosed`,
  `GetQueryServices` and `Connect` state their outcome directly. The handles,
  the shared services and their executor are classes with ghost
  `initialized`/`closed`/`shutdown` flags.

The foreign operations get their outcome from the caller:

- `ConnectionInfo.create(url)` is a total function `parse: string -> Option<ConnInfo>`, fixed when the driver is constructed. `None` stands for the `SQLException` it throws.
- A new handle's `init` gets an `initThrows` flag.
- Each cached handle's `close` throws exactly when the handle is in `handleThrows`.
- `queryServices.close()` gets a `servicesThrows` flag.
- The order in which `HashMap.values()` is walked is a nondeterministic choice. `close` returns that order as the ghost sequence `visited`.

Java's `finally` semantics are modelled. If `queryServices.close()` throws inside the
`finally` block, its exception replaces one already thrown by a handle's close.
The executor is still shut down and the map is still cleared.

Handle closing is not best-effort. The loop over the cached handles (lines 123-127)
ends at the first handle whose `close` throws. The handles after it are never closed, and
only one exception leaves `close`.

## Model

| member | source | states |
|---|---|---|
| TestDriver.PhoenixTestDriver.constructor | phoenix-core/src/test/java/org/apache/phoenix/jdbc/PhoenixTestDriver.java:50-70 | A new driver is open with an empty map and keeps the override properties and the parser. It owns a fresh shared services object that is neither closed nor had a close attempted. Its executor, if any, is fresh and not yet shut down |
| TestDriver.PhoenixTestDriver.CheckClosed | phoenix-core/src/test/java/org/apache/phoenix/jdbc/PhoenixTestDriver.java:111-115 | Throws `DriverClosed` if and only if the driver is closed |
| TestDriver.PhoenixTestDriver.GetQueryServices | phoenix-core/src/test/java/org/apache/phoenix/jdbc/PhoenixTestDriver.java:72-76 | Throws `DriverClosed` exactly when closed; otherwise returns the driver's one shared services object; changes nothing |
| TestDriver.PhoenixTestDriver.Connect | phoenix-core/src/test/java/org/apache/phoenix/jdbc/PhoenixTestDriver.java:84-88 | Rejected with `DriverClosed` exactly when closed; otherwise the call goes on to the embedded driver. The guard itself changes nothing |
| TestDriver.PhoenixTestDriver.GetConnectionQueryServices | phoenix-core/src/test/java/org/apache/phoenix/jdbc/PhoenixTestDriver.java:90-109 | It throws exactly when `Registry.LookupError` names an exception, and throws that one: `DriverClosed` when closed, the parser's exception, or init's exception on a miss. Every error leaves the state unchanged. A returned handle and the new state are those of `Registry.Lookup`. A returned handle belongs to `parse(url)`, is initialized, and is connectionless exactly when the descriptor is. A handle not cached before is freshly built, open (not closed), over the shared services with the given properties, or empty ones when none are given. The object invariant is kept |
| TestDriver.PhoenixTestDriver.CloseCachedHandles | phoenix-core/src/test/java/org/apache/phoenix/jdbc/PhoenixTestDriver.java:123-127 | Visits distinct cached handles and closes each one until the first whose close throws. The handles after it are untouched. It throws exactly when some cached handle's close throws, and otherwise has visited every cached handle |
| TestDriver.PhoenixTestDriver.Close | phoenix-core/src/test/java/org/apache/phoenix/jdbc/PhoenixTestDriver.java:117-136 | When already closed, it does nothing and throws nothing. Otherwise the driver ends closed with an empty map, even when something threw. Shared services close was attempted and the executor, if any, is shut down. The handles closed are exactly the visited ones that did not throw, and no handle's initialized flag changes. The exception raised is `Registry.CloseError`: the services' exception takes precedence over a handle's exception |
| Registry.Run | phoenix-core/src/test/java/org/apache/phoenix/jdbc/PhoenixTestDriver.java:72-136 | Replaying a sequence of synchronized calls yields one reply per call |
| Registry.ClosedRejectsEveryCall | phoenix-core/src/test/java/org/apache/phoenix/jdbc/PhoenixTestDriver.java:111-122 | On a closed driver every call leaves the state unchanged. `close` returns normally and every other call throws `DriverClosed` |
| Registry.ClosedIsFinal | phoenix-core/src/test/java/org/apache/phoenix/jdbc/PhoenixTestDriver.java:111-122 | Once closed, no sequence of calls changes the state again (closed never reverts). Each call throws `DriverClosed` or is a no-op close |
| Registry.CloseIsIdempotent | phoenix-core/src/test/java/org/apache/phoenix/jdbc/PhoenixTestDriver.java:117-122 | After any close, even one that threw, the driver is closed, and a second close changes nothing and throws nothing |
| Registry.ReachableClosedMeansEmpty | phoenix-core/src/test/java/org/apache/phoenix/jdbc/PhoenixTestDriver.java:122-133 | The invariant "closed implies the map is empty" holds after every sequence of calls that starts from a state satisfying it |
| Registry.CacheHitReturnsStoredHandle | phoenix-core/src/test/java/org/apache/phoenix/jdbc/PhoenixTestDriver.java:94-97 | A cache hit returns exactly the stored handle and leaves the state unchanged, whatever init would do |
| Registry.FailedInitLeavesNoEntry | phoenix-core/src/test/java/org/apache/phoenix/jdbc/PhoenixTestDriver.java:98-108 | On a miss, a throwing init leaves the state unchanged, so a retry builds a new handle. A succeeding init adds exactly that descriptor, mapped to the new handle, and keeps every other entry |
| Registry.CachedEntryPersists | phoenix-core/src/test/java/org/apache/phoenix/jdbc/PhoenixTestDriver.java:94-108 | While the driver stays open, no sequence of calls removes or replaces a cached entry |
| Registry.LaterLookupsReturnCachedHandle | phoenix-core/src/test/java/org/apache/phoenix/jdbc/PhoenixTestDriver.java:94-97 | After a descriptor is cached, every later lookup of a url that parses to it and returns a handle returns the cached one |
| Registry.OneHandlePerDescriptor | phoenix-core/src/test/java/org/apache/phoenix/jdbc/PhoenixTestDriver.java:91-109 | In any call sequence, two lookups that resolve to the same descriptor and both return a handle return the same handle |
| Registry.TwoTargetsThenClose | phoenix-core/src/test/java/org/apache/phoenix/jdbc/PhoenixTestDriver.java:91-136 | In the pure model, a fresh driver runs lookup A, lookup A again, lookup B, close, lookup A. The replies are the handle the first miss built (twice), then the handle B's miss built, then a normal close, then `DriverClosed`. The final state is closed and empty |
| TestDriver.DriverTwoTargetsThenClose | phoenix-core/src/test/java/org/apache/phoenix/jdbc/PhoenixTestDriver.java:62-136 | On a real driver object with an executor and every foreign call succeeding, the same sequence runs as follows. The second lookup of A returns the first handle, and B gets a different handle. Close returns normally. Both handles and the shared services end closed, and the executor is shut down. The final lookup throws `DriverClosed` |

## Left out

- `acceptsURL` / `isTestUrl` (lines 78-82) and the body of `super.connect` (line 87) are not part of this model. They belong to `PhoenixEmbeddedDriver`, so `Connect` models only the closed guard.
- Registry.Step, TestDriver.PhoenixTestDriver.Connect: an open `connect` is taken to leave the flag and the map unchanged. After the guard it hands over to `super.connect` (line 87), which is not part of this model. That superclass code may call `getConnectionQueryServices` on this same driver, because `synchronized` is reentrant. Such a lookup is modelled as a separate call, not as part of `connect`.
- `ConnectionInfo.create` parsing, and descriptor equality and hashing, are not part of this model. The parser is the driver's `parse` constant (a parameter in the pure model) and the target is an abstract equality type.
- The internals of `ConnectionlessQueryServicesImpl`, `ConnectionQueryServicesTestImpl` and `QueryServicesTestImpl` are not part of this model. Their `init` and `close` are reduced to succeed-or-throw with ghost `initialized`/`closed` flags.
- TestDriver.ConnectionQueryServices.Close: a close that throws leaves the handle's ghost `closed` flag as it was. What the real handle releases before throwing is not modelled.
- Merging the default configuration with the override properties (`getDefaultProps()`, `ReadOnlyProps`, lines 67-69) is not modelled. Whether the shared services have an executor is a constructor argument.
- `ThreadPoolExecutor.shutdownNow` is a ghost `shutdown` flag. Cancelling pending work, and runtime exceptions from `shutdownNow` itself, are not modelled.
- `synchronized` and `@GuardedBy` are not modelled. Every synchronized method is atomic, so a call is one step of a sequential model. Threads interleave only between calls, and `Run` covers every such interleaving as a call sequence.
- Allocation in the pure model: the object a cache miss constructs is the `created` argument of `Registry.Lookup`, because the pure model has no allocation. The driver method links it to a fresh object.
