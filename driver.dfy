/** PhoenixTestDriver and the objects it owns, as classes whose methods update
    their fields in place. Each public driver method corresponds to one `Step`
    of the pure registry model. The postconditions of GetConnectionQueryServices
    and Close tie the driver's new `closed` flag and map, and the exception
    thrown, to the registry functions behind that step (LookupError, Lookup,
    Teardown, CloseError); CheckClosed, GetQueryServices and Connect state
    their outcome directly. The foreign operations (parsing a url,
    init and close of a handle, close of the shared services) are given their
    outcome by the caller: a `parse` function and `throws` flags. */
module TestDriver {
  import opened Types
  import Registry

  /** The thread pool of the shared services; only whether it was shut down is kept. */
  class Executor {
    ghost var shutdown: bool

    constructor ()
      ensures !shutdown
    {
      shutdown := false;
    }

    /** ThreadPoolExecutor.shutdownNow. */
    method ShutdownNow()
      modifies this
      ensures shutdown
    {
      shutdown := true;
    }
  }

  /** The shared QueryServices object the driver creates once. */
  class QueryServices {
    const executor: Executor?
    ghost var closeAttempted: bool
    ghost var closed: bool

    constructor (withExecutor: bool)
      ensures (executor != null) == withExecutor
      ensures executor != null ==> fresh(executor) && !executor.shutdown
      ensures !closeAttempted && !closed
    {
      if withExecutor {
        executor := new Executor();
      } else {
        executor := null;
      }
      closeAttempted, closed := false, false;
    }

    /** close(): may throw; either way the attempt is recorded. */
    method Close(throws: bool) returns (err: Option<Error>)
      modifies this
      ensures closeAttempted
      ensures closed == (old(closed) || !throws)
      ensures err == if throws then Some(ServicesCloseFailed) else None
    {
      closeAttempted := true;
      if throws {
        err := Some(ServicesCloseFailed);
      } else {
        closed := true;
        err := None;
      }
    }
  }

  /** A ConnectionQueryServices handle: ConnectionlessQueryServicesImpl or
      ConnectionQueryServicesTestImpl, told apart by `variant`. */
  class ConnectionQueryServices {
    const variant: Variant
    const services: QueryServices
    const connInfo: ConnInfo
    const info: Props
    ghost var initialized: bool
    ghost var closed: bool

    constructor (variant: Variant, services: QueryServices, connInfo: ConnInfo, info: Props)
      ensures this.variant == variant && this.services == services
      ensures this.connInfo == connInfo && this.info == info
      ensures !initialized && !closed
    {
      this.variant, this.services, this.connInfo, this.info := variant, services, connInfo, info;
      initialized, closed := false, false;
    }

    /** init(url, info): may throw; only a successful init initializes. */
    method Init(url: string, info: Props, throws: bool) returns (err: Option<Error>)
      modifies this
      ensures initialized == (old(initialized) || !throws) && closed == old(closed)
      ensures err == if throws then Some(InitFailed(url)) else None
    {
      if throws {
        err := Some(InitFailed(url));
      } else {
        initialized := true;
        err := None;
      }
    }

    /** close(): may throw; a close that throws leaves the handle as it was. */
    method Close(throws: bool) returns (err: Option<Error>)
      modifies this
      ensures closed == (old(closed) || !throws) && initialized == old(initialized)
      ensures err == if throws then Some(HandleCloseFailed) else None
    {
      if throws {
        err := Some(HandleCloseFailed);
      } else {
        closed := true;
        err := None;
      }
    }
  }

  /** No handle occurs twice in `s`. */
  ghost predicate Distinct<T>(s: seq<T>) {
    forall i, j | 0 <= i < j < |s| :: s[i] != s[j]
  }

  class PhoenixTestDriver {
    const overrideProps: Props
    /** ConnectionInfo.create: one parser for the driver's whole life. */
    const parse: string -> Option<ConnInfo>
    const queryServices: QueryServices
    var closed: bool
    var connectionQueryServicesMap: map<ConnInfo, ConnectionQueryServices>

    /** The driver's state as the pure registry model sees it. */
    ghost function Abs(): Registry.State<ConnectionQueryServices>
      reads this
    {
      Registry.State(closed, connectionQueryServicesMap)
    }

    /** Object invariant: a closed driver caches nothing, and every cached
        handle was built for its key, of the variant the key asks for, over
        the shared services, and was initialized before it was stored. */
    ghost predicate Valid()
      reads this, connectionQueryServicesMap.Values
    {
      Registry.ClosedMeansEmpty(Abs()) &&
      forall ci | ci in connectionQueryServicesMap ::
        var h := connectionQueryServicesMap[ci];
        h.connInfo == ci && h.services == queryServices && h.initialized &&
        (h.variant == Connectionless <==> ci.connectionless)
    }

    /** new PhoenixTestDriver(props). `parse` stands for ConnectionInfo.create
        and `withExecutor` for whether the new QueryServicesTestImpl has an
        executor. */
    constructor (props: Props, parse: string -> Option<ConnInfo>, withExecutor: bool)
      ensures Valid() && Abs() == Registry.Initial()
      ensures overrideProps == props && this.parse == parse
      ensures fresh(queryServices) && !queryServices.closeAttempted && !queryServices.closed
      ensures (queryServices.executor != null) == withExecutor
      ensures queryServices.executor != null ==> fresh(queryServices.executor) && !queryServices.executor.shutdown
    {
      overrideProps := props;
      this.parse := parse;
      queryServices := new QueryServices(withExecutor);
      closed := false;
      connectionQueryServicesMap := map[];
    }

    /** checkClosed(): throws DriverClosed exactly when the driver is closed. */
    method CheckClosed() returns (err: Option<Error>)
      ensures err.Some? <==> closed
      ensures err.Some? ==> err.value == DriverClosed
    {
      if closed {
        err := Some(DriverClosed);
      } else {
        err := None;
      }
    }

    /** getQueryServices(): the shared services, unless the driver is closed. */
    method GetQueryServices() returns (r: Result<QueryServices>)
      ensures r.Err? <==> closed
      ensures r.Err? ==> r.error == DriverClosed
      ensures r.Ok? ==> r.value == queryServices
    {
      var err := CheckClosed();
      if err.Some? {
        return Err(err.value);
      }
      r := Ok(queryServices);
    }

    /** connect(url, info), up to the hand-over to the embedded driver:
        `rejected` is the exception thrown before the hand-over, if any. */
    method Connect(url: string, info: Option<Props>) returns (rejected: Option<Error>)
      ensures rejected.Some? <==> closed
      ensures rejected.Some? ==> rejected.value == DriverClosed
    {
      rejected := CheckClosed();
    }

    /** getConnectionQueryServices(url, info): get-or-create of the handle for
        the descriptor `parse(url)`. `initThrows` says whether a newly built
        handle's init throws. */
    method GetConnectionQueryServices(url: string, info: Option<Props>, initThrows: bool)
      returns (r: Result<ConnectionQueryServices>)
      requires Valid()
      modifies this
      ensures Valid()
      ensures r.Err? <==> Registry.LookupError(old(Abs()), parse, url, initThrows).Some?
      ensures r.Err? ==> r.error == Registry.LookupError(old(Abs()), parse, url, initThrows).value
      ensures r.Err? ==> Abs() == old(Abs())
      ensures r.Ok? ==> (Abs(), Registry.Handle(r.value)) == Registry.Lookup(old(Abs()), parse, url, initThrows, r.value)
      ensures r.Ok? ==> Some(r.value.connInfo) == parse(url) && r.value.initialized
      ensures r.Ok? ==> (r.value.variant == Connectionless <==> r.value.connInfo.connectionless)
      ensures r.Ok? && r.value !in old(connectionQueryServicesMap.Values) ==>
        fresh(r.value) && !r.value.closed && r.value.services == queryServices &&
        r.value.info == (if info.Some? then info.value else map[])
    {
      var err := CheckClosed();
      if err.Some? {
        return Err(err.value);
      }
      var parsed := parse(url);
      if parsed.None? {
        return Err(MalformedUrl(url));
      }
      var ci := parsed.value;
      if ci in connectionQueryServicesMap {
        return Ok(connectionQueryServicesMap[ci]);
      }
      var props := if info.Some? then info.value else map[];
      var cqs;
      if ci.connectionless {
        cqs := new ConnectionQueryServices(Connectionless, queryServices, ci, props);
      } else {
        cqs := new ConnectionQueryServices(TestImpl, queryServices, ci, props);
      }
      err := cqs.Init(url, props, initThrows);
      if err.Some? {
        return Err(err.value);
      }
      connectionQueryServicesMap := connectionQueryServicesMap[ci := cqs];
      r := Ok(cqs);
    }

    /** The try block of close(): close each cached handle, in the map's
        iteration order (returned as `visited`), until one throws; that
        exception is returned and the handles after it are not touched. */
    method CloseCachedHandles(handleThrows: set<ConnectionQueryServices>)
      returns (err: Option<Error>, ghost visited: seq<ConnectionQueryServices>)
      modifies connectionQueryServicesMap.Values
      ensures err == (if connectionQueryServicesMap.Values * handleThrows != {} then Some(HandleCloseFailed) else None)
      ensures Distinct(visited)
      ensures forall h | h in visited :: h in connectionQueryServicesMap.Values
      ensures forall i | 0 <= i < |visited| - 1 :: visited[i] !in handleThrows
      ensures err.Some? ==> visited != [] && visited[|visited| - 1] in handleThrows
      ensures err.None? ==> forall h | h in connectionQueryServicesMap.Values :: h in visited
      ensures forall h | h in connectionQueryServicesMap.Values ::
        h.closed == (old(h.closed) || (h in visited && h !in handleThrows)) &&
        h.initialized == old(h.initialized)
    {
      var values := connectionQueryServicesMap.Values;
      var remaining := values;
      visited := [];
      err := None;
      while remaining != {} && err.None?
        invariant remaining <= values
        invariant forall h | h in values :: h in visited <==> h !in remaining
        invariant forall h | h in visited :: h in values
        invariant Distinct(visited)
        invariant forall i | 0 <= i < |visited| - 1 :: visited[i] !in handleThrows
        invariant err.None? ==> forall h | h in visited :: h !in handleThrows
        invariant err.Some? ==> (err == Some(HandleCloseFailed) && visited != [] && visited[|visited| - 1] in handleThrows)
        invariant forall h | h in values ::
          h.closed == (old(h.closed) || (h in visited && h !in handleThrows)) &&
          h.initialized == old(h.initialized)
        decreases |remaining|
      {
        var cqs :| cqs in remaining;
        err := cqs.Close(cqs in handleThrows);
        remaining := remaining - {cqs};
        visited := visited + [cqs];
      }
      if err.Some? {
        assert visited[|visited| - 1] in values * handleThrows;
      } else {
        assert forall h | h in values :: h !in handleThrows;
        assert values * handleThrows == {};
      }
    }

    /** close(): idempotent teardown. On an open driver it sets the flag,
        runs the handle loop, and then, whatever the loop threw, closes the
        shared services, shuts their executor down and clears the map. */
    method Close(handleThrows: set<ConnectionQueryServices>, servicesThrows: bool)
      returns (err: Option<Error>, ghost visited: seq<ConnectionQueryServices>)
      requires Valid()
      modifies this, connectionQueryServicesMap.Values, queryServices, queryServices.executor
      ensures Valid()
      ensures Abs() == Registry.Teardown(old(Abs()))
      ensures err == Registry.CloseError(old(Abs()), handleThrows, servicesThrows)
      ensures old(closed) ==> (visited == [] && unchanged(queryServices))
      ensures old(closed) && queryServices.executor != null ==> unchanged(queryServices.executor)
      ensures !old(closed) ==> queryServices.closeAttempted
      ensures !old(closed) ==> queryServices.closed == (old(queryServices.closed) || !servicesThrows)
      ensures !old(closed) && queryServices.executor != null ==> queryServices.executor.shutdown
      ensures Distinct(visited)
      ensures forall h | h in visited :: h in old(connectionQueryServicesMap.Values)
      ensures forall i | 0 <= i < |visited| - 1 :: visited[i] !in handleThrows
      ensures (visited != [] && visited[|visited| - 1] in handleThrows) ||
        (forall h | h in old(connectionQueryServicesMap.Values) :: h in visited)
      ensures forall h | h in old(connectionQueryServicesMap.Values) ::
        h.closed == (old(h.closed) || (h in visited && h !in handleThrows)) &&
        h.initialized == old(h.initialized)
    {
      if closed {
        return None, [];
      }
      closed := true;
      var handleErr;
      handleErr, visited := CloseCachedHandles(handleThrows);
      // finally: close the shared services and shut their executor down
      var executor := queryServices.executor;
      var servicesErr := queryServices.Close(servicesThrows);
      if executor != null {
        executor.ShutdownNow();
      }
      connectionQueryServicesMap := map[];
      err := if servicesErr.Some? then servicesErr else handleErr;
    }
  }

  /** A fresh driver with two targets A and B, with every foreign call
      succeeding: the second lookup of A returns the first one's handle, B gets
      a different handle, close returns normally and closes both handles and
      the shared services and shuts the executor down, and a lookup after
      close throws DriverClosed. */
  method DriverTwoTargetsThenClose(parse: string -> Option<ConnInfo>, urlA: string, urlB: string)
    returns (first: Result<ConnectionQueryServices>, again: Result<ConnectionQueryServices>,
             other: Result<ConnectionQueryServices>, closeErr: Option<Error>,
             afterClose: Result<ConnectionQueryServices>)
    requires parse(urlA).Some? && parse(urlB).Some? && parse(urlA) != parse(urlB)
    ensures first.Ok? && again == first
    ensures other.Ok? && other.value != first.value
    ensures first.value.closed && other.value.closed
    ensures first.value.services == other.value.services && first.value.services.closed
    ensures first.value.services.executor != null && first.value.services.executor.shutdown
    ensures closeErr == None
    ensures afterClose == Err(DriverClosed)
  {
    var driver := new PhoenixTestDriver(map[], parse, true);
    first := driver.GetConnectionQueryServices(urlA, None, false);
    again := driver.GetConnectionQueryServices(urlA, None, false);
    other := driver.GetConnectionQueryServices(urlB, None, false);
    assert driver.connectionQueryServicesMap.Values == {first.value, other.value};
    ghost var visited;
    closeErr, visited := driver.Close({}, false);
    afterClose := driver.GetConnectionQueryServices(urlA, None, false);
  }
}
