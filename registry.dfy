/** The driver's lifecycle and handle cache as a pure state machine.

    A state is the `closed` flag and the map from descriptor to handle. Handles
    are a type parameter `H`: the driver class instantiates it with its handle
    objects, so "the same handle" here means the same object there. One call of
    a synchronized driver method is one `Step`; `Run` replays a whole sequence
    of calls, which is how the properties that span several calls (closed is
    final, a cached handle is never replaced, one handle per descriptor) are
    stated and proved. */
module Registry {
  import opened Types

  datatype State<H> = State(closed: bool, cache: map<ConnInfo, H>)

  /** A freshly constructed driver: open, nothing cached. */
  function Initial<H>(): State<H> {
    State(false, map[])
  }

  /** One call of a public driver method. The outcomes of the foreign calls it
      makes are part of the call: whether the new handle's init throws and
      which object a cache miss constructs (`created`), and for close which
      cached handles throw from their own close and whether the shared
      services' close throws. */
  datatype Call<H> =
    | GetQueryServices
    | Connect(url: string)
    | GetConnectionQueryServices(url: string, initThrows: bool, created: H)
    | Close(handleThrows: set<H>, servicesThrows: bool)

  /** What a call returned, or the exception it threw. */
  datatype Reply<H> =
    | SharedServices       // getQueryServices returned the driver's QueryServices
    | Delegated            // connect passed the guard and went on to the embedded driver
    | Handle(handle: H)    // getConnectionQueryServices returned this handle
    | Done                 // close returned normally
    | Raised(error: Error)

  /** The exception getConnectionQueryServices throws, if any: DriverClosed
      on a closed driver, the parser's exception for a url it rejects, and on
      a cache miss the exception of the new handle's init. It does not depend
      on which object a miss would build. */
  function LookupError<H>(s: State<H>, parse: string -> Option<ConnInfo>, url: string, initThrows: bool): (e: Option<Error>) {
    if s.closed then Some(DriverClosed)
    else match parse(url)
      case None => Some(MalformedUrl(url))
      case Some(ci) =>
        if ci !in s.cache && initThrows then Some(InitFailed(url)) else None
  }

  /** getConnectionQueryServices: closed guard, parse, get-or-create. */
  function Lookup<H>(s: State<H>, parse: string -> Option<ConnInfo>, url: string,
                     initThrows: bool, created: H): (r: (State<H>, Reply<H>))
  {
    match LookupError(s, parse, url, initThrows)
    case Some(e) => (s, Raised(e))
    case None =>
      var ci := parse(url).value;
      if ci in s.cache then (s, Handle(s.cache[ci]))
      else (s.(cache := s.cache[ci := created]), Handle(created))
  }

  /** The state close leaves behind: whatever threw on the way, the flag is set
      and the map is cleared; a closed driver is left as it is. */
  function Teardown<H>(s: State<H>): (t: State<H>) {
    if s.closed then s else State(true, map[])
  }

  /** The exception close lets escape. The handle loop stops at the first
      handle whose close throws, so one is raised exactly when some cached
      handle throws, whatever the iteration order; an exception from the
      shared services' close, thrown inside the finally block, replaces it. */
  function CloseError<H(==)>(s: State<H>, handleThrows: set<H>, servicesThrows: bool): (e: Option<Error>) {
    if s.closed then None
    else if servicesThrows then Some(ServicesCloseFailed)
    else if s.cache.Values * handleThrows != {} then Some(HandleCloseFailed)
    else None
  }

  function Step<H(==)>(s: State<H>, parse: string -> Option<ConnInfo>, call: Call<H>): (r: (State<H>, Reply<H>)) {
    match call
    case GetQueryServices =>
      if s.closed then (s, Raised(DriverClosed)) else (s, SharedServices)
    case Connect(_) =>
      if s.closed then (s, Raised(DriverClosed)) else (s, Delegated)
    case GetConnectionQueryServices(url, initThrows, created) =>
      Lookup(s, parse, url, initThrows, created)
    case Close(handleThrows, servicesThrows) =>
      var e := CloseError(s, handleThrows, servicesThrows);
      (Teardown(s), if e.Some? then Raised(e.value) else Done)
  }

  /** Replays `calls` one after another; gives the final state and one reply per call. */
  function Run<H(==)>(s: State<H>, parse: string -> Option<ConnInfo>, calls: seq<Call<H>>): (r: (State<H>, seq<Reply<H>>))
    ensures |r.1| == |calls|
    decreases |calls|
  {
    if calls == [] then (s, [])
    else
      var (t, reply) := Step(s, parse, calls[0]);
      var (u, replies) := Run(t, parse, calls[1..]);
      (u, [reply] + replies)
  }

  /** Unfolds `Run` by one call. */
  lemma RunCons<H>(s: State<H>, parse: string -> Option<ConnInfo>, calls: seq<Call<H>>)
    requires calls != []
    ensures Run(s, parse, calls).0 == Run(Step(s, parse, calls[0]).0, parse, calls[1..]).0
    ensures Run(s, parse, calls).1 == [Step(s, parse, calls[0]).1] + Run(Step(s, parse, calls[0]).0, parse, calls[1..]).1
  {
  }

  /** A closed driver rejects getQueryServices, connect and
      getConnectionQueryServices with DriverClosed and changes nothing;
      close on it is a no-op that returns normally. */
  lemma ClosedRejectsEveryCall<H>(s: State<H>, parse: string -> Option<ConnInfo>, call: Call<H>)
    requires s.closed
    ensures Step(s, parse, call).0 == s
    ensures Step(s, parse, call).1 == if call.Close? then Done else Raised(DriverClosed)
  {
  }

  /** Once closed, the driver stays closed through any sequence of calls: the
      state never changes again and every call either throws DriverClosed or
      is a no-op close. */
  lemma {:induction false} ClosedIsFinal<H>(s: State<H>, parse: string -> Option<ConnInfo>, calls: seq<Call<H>>)
    requires s.closed
    ensures Run(s, parse, calls).0 == s
    ensures forall i | 0 <= i < |calls| ::
      Run(s, parse, calls).1[i] == if calls[i].Close? then Done else Raised(DriverClosed)
    decreases |calls|
  {
    if calls != [] {
      RunCons(s, parse, calls);
      ClosedRejectsEveryCall(s, parse, calls[0]);
      ClosedIsFinal(s, parse, calls[1..]);
    }
  }

  /** close is idempotent: a second close changes nothing and throws nothing,
      even when the first one threw. */
  lemma CloseIsIdempotent<H>(s: State<H>, parse: string -> Option<ConnInfo>,
                                 first: Call<H>, second: Call<H>)
    requires first.Close? && second.Close?
    ensures Step(s, parse, first).0.closed
    ensures Step(Step(s, parse, first).0, parse, second) == (Step(s, parse, first).0, Done)
  {
  }

  /** The object invariant of the driver: a closed driver caches nothing. */
  ghost predicate ClosedMeansEmpty<H>(s: State<H>) {
    s.closed ==> s.cache == map[]
  }

  /** Every sequence of calls preserves the invariant; in particular every
      state reachable from `Initial()` satisfies it. */
  lemma {:induction false} ReachableClosedMeansEmpty<H>(s: State<H>, parse: string -> Option<ConnInfo>, calls: seq<Call<H>>)
    requires ClosedMeansEmpty(s)
    ensures ClosedMeansEmpty(Run(s, parse, calls).0)
    decreases |calls|
  {
    if calls != [] {
      RunCons(s, parse, calls);
      ReachableClosedMeansEmpty(Step(s, parse, calls[0]).0, parse, calls[1..]);
    }
  }

  /** A cache hit returns exactly the stored handle and leaves the state alone,
      whatever init would have done and whichever object a miss would build. */
  lemma CacheHitReturnsStoredHandle<H>(s: State<H>, parse: string -> Option<ConnInfo>, url: string,
                                       initThrows: bool, created: H)
    requires !s.closed && parse(url).Some? && parse(url).value in s.cache
    ensures Lookup(s, parse, url, initThrows, created) == (s, Handle(s.cache[parse(url).value]))
  {
  }

  /** A miss whose init throws leaves the cache exactly as it was, so the next
      call for the same descriptor misses again and builds a new handle; when
      that init succeeds the new handle is cached under the descriptor and
      every other entry is kept. */
  lemma FailedInitLeavesNoEntry<H>(s: State<H>, parse: string -> Option<ConnInfo>, url: string,
                                   discarded: H, retried: H)
    requires !s.closed && parse(url).Some? && parse(url).value !in s.cache
    ensures Lookup(s, parse, url, true, discarded) == (s, Raised(InitFailed(url)))
    ensures var (t, reply) := Lookup(s, parse, url, false, retried);
      reply == Handle(retried) && !t.closed &&
      t.cache.Keys == s.cache.Keys + {parse(url).value} &&
      t.cache[parse(url).value] == retried &&
      forall k | k in s.cache :: t.cache[k] == s.cache[k]
  {
  }

  /** While the driver stays open, a cached entry is never removed or
      replaced: only close takes entries away, and it closes the driver. */
  lemma {:induction false} CachedEntryPersists<H>(s: State<H>, parse: string -> Option<ConnInfo>,
                                                     calls: seq<Call<H>>, k: ConnInfo)
    requires !s.closed && k in s.cache
    ensures var t := Run(s, parse, calls).0;
      t.closed || (k in t.cache && t.cache[k] == s.cache[k])
    decreases |calls|
  {
    if calls != [] {
      RunCons(s, parse, calls);
      var t := Step(s, parse, calls[0]).0;
      if t.closed {
        ClosedIsFinal(t, parse, calls[1..]);
      } else {
        CachedEntryPersists(t, parse, calls[1..], k);
      }
    }
  }

  /** After descriptor `k` is cached in an open driver, every later
      getConnectionQueryServices for a url that parses to `k` that returns a
      handle returns the cached one. */
  lemma {:induction false} LaterLookupsReturnCachedHandle<H>(s: State<H>, parse: string -> Option<ConnInfo>,
                                                                calls: seq<Call<H>>, k: ConnInfo, m: nat)
    requires !s.closed && k in s.cache
    requires m < |calls| && calls[m].GetConnectionQueryServices? && parse(calls[m].url) == Some(k)
    requires Run(s, parse, calls).1[m].Handle?
    ensures Run(s, parse, calls).1[m].handle == s.cache[k]
    decreases m
  {
    RunCons(s, parse, calls);
    var t := Step(s, parse, calls[0]).0;
    if m > 0 {
      if t.closed {
        ClosedIsFinal(t, parse, calls[1..]);
        assert false;
      } else {
        assert k in t.cache && t.cache[k] == s.cache[k];
        LaterLookupsReturnCachedHandle(t, parse, calls[1..], k, m - 1);
      }
    }
  }

  /** At most one handle per descriptor: in any sequence of calls, two
      getConnectionQueryServices calls whose urls parse to the same descriptor
      and that both return a handle return the same handle. */
  lemma {:induction false} OneHandlePerDescriptor<H>(s: State<H>, parse: string -> Option<ConnInfo>,
                                                        calls: seq<Call<H>>, i: nat, j: nat)
    requires i < j < |calls|
    requires calls[i].GetConnectionQueryServices? && calls[j].GetConnectionQueryServices?
    requires parse(calls[i].url).Some? && parse(calls[i].url) == parse(calls[j].url)
    requires Run(s, parse, calls).1[i].Handle? && Run(s, parse, calls).1[j].Handle?
    ensures Run(s, parse, calls).1[i].handle == Run(s, parse, calls).1[j].handle
    decreases i
  {
    RunCons(s, parse, calls);
    var t := Step(s, parse, calls[0]).0;
    if i > 0 {
      OneHandlePerDescriptor(t, parse, calls[1..], i - 1, j - 1);
    } else {
      var k := parse(calls[0].url).value;
      assert !t.closed && k in t.cache && Step(s, parse, calls[0]).1 == Handle(t.cache[k]);
      LaterLookupsReturnCachedHandle(t, parse, calls[1..], k, j - 1);
    }
  }

  /** The life of a fresh driver with two targets A and B: the second lookup of
      A returns the first one's handle, B gets its own, close succeeds, and a
      lookup after close throws DriverClosed. */
  lemma {:induction false} TwoTargetsThenClose<H>(parse: string -> Option<ConnInfo>, urlA: string, urlB: string,
                                                     a: ConnInfo, b: ConnInfo, h1: H, h2: H, h3: H, h4: H)
    requires parse(urlA) == Some(a) && parse(urlB) == Some(b) && a != b
    ensures var calls := [GetConnectionQueryServices(urlA, false, h1), GetConnectionQueryServices(urlA, false, h2),
                          GetConnectionQueryServices(urlB, false, h3), Close({}, false),
                          GetConnectionQueryServices(urlA, false, h4)];
      Run(Initial(), parse, calls) ==
        (State(true, map[]), [Handle(h1), Handle(h1), Handle(h3), Done, Raised(DriverClosed)])
  {
    var calls := [GetConnectionQueryServices(urlA, false, h1), GetConnectionQueryServices(urlA, false, h2),
                  GetConnectionQueryServices(urlB, false, h3), Close({}, false),
                  GetConnectionQueryServices(urlA, false, h4)];
    var s1 := State(false, map[a := h1]);
    var s3 := State(false, map[a := h1, b := h3]);
    var s4: State<H> := State(true, map[]);
    assert Step(Initial(), parse, calls[0]) == (s1, Handle(h1));
    assert Step(s1, parse, calls[1]) == (s1, Handle(h1));
    assert Step(s1, parse, calls[2]) == (s3, Handle(h3));
    assert s3.cache.Values * {} == {};
    assert Step(s3, parse, calls[3]) == (s4, Done);
    assert Step(s4, parse, calls[4]) == (s4, Raised(DriverClosed));
    RunCons(s4, parse, calls[4..]);
    assert calls[4..][1..] == [] && Run(s4, parse, []).1 == [];
    assert Run(s4, parse, calls[4..]).1 == [Raised(DriverClosed)];
    RunCons(s3, parse, calls[3..]);
    assert calls[3..][1..] == calls[4..];
    assert Run(s3, parse, calls[3..]).1 == [Done, Raised(DriverClosed)];
    RunCons(s1, parse, calls[2..]);
    assert calls[2..][1..] == calls[3..];
    assert Run(s1, parse, calls[2..]).1 == [Handle(h3), Done, Raised(DriverClosed)];
    RunCons(s1, parse, calls[1..]);
    assert calls[1..][1..] == calls[2..];
    assert Run(s1, parse, calls[1..]).1 == [Handle(h1), Handle(h3), Done, Raised(DriverClosed)];
    RunCons(Initial(), parse, calls);
    assert Run(Initial(), parse, calls).1 == [Handle(h1), Handle(h1), Handle(h3), Done, Raised(DriverClosed)];
  }
}
