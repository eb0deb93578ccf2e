/**
 * The lazily established database connection: a configuration check on the
 * connection string, and a process-wide cache `{conn, promise}` that starts at
 * most one connect and then hands out the same connection.
 *
 * `mongoose.connect` is an opaque step whose settled outcome is a parameter;
 * awaiting a promise takes its settled outcome at once.
 */
module Db {
  import opened Wrappers
  import opened Js

  const Placeholder: string := "<db_password>"
  const ConfigErrorMessage: string := "MONGODB_URI is missing or still contains the <db_password> placeholder"

  /** `process.env.MONGODB_URI || ""`. */
  function ConfiguredUri(env: Option<string>): (uri: string)
    ensures env.None? ==> uri == ""
    ensures env.Some? ==> uri == env.value
  {
    env.GetOr("")
  }

  /** The connection string is unusable: empty, or still holding the password placeholder. */
  predicate UriUnusable(uri: string) {
    uri == "" || Includes(uri, Placeholder)
  }

  /** An established connection (the `mongoose` handle); its content is opaque. */
  datatype Connection = Connection(handle: nat)

  /** How the promise returned by `mongoose.connect` settles. */
  datatype Settled = Resolved(conn: Connection) | Rejected(reason: Thrown)

  /** The cached `{conn, promise}` pair; `None` is `null`. */
  datatype CacheState = CacheState(conn: Option<Connection>, promise: Option<Settled>)

  /** The cache as first installed on the global object. */
  const Initial: CacheState := CacheState(None, None)

  /** A cached connection is always the resolved value of the cached promise. */
  predicate Coherent(s: CacheState) {
    s.conn.Some? ==> s.promise == Some(Resolved(s.conn.value))
  }

  /** One call of `connectToDatabase`: what it returns, the cache after it, and whether it started a connect. */
  datatype Call = Call(result: Result<Connection, Thrown>, next: CacheState, started: bool)

  /**
   * `connectToDatabase()` on cache `s` with connection string `uri`, where
   * `connect` is how a connect started now would settle.
   */
  function Connect(s: CacheState, uri: string, connect: Settled): (c: Call)
    // the configuration check comes first, so it fails even with a cached connection
    ensures UriUnusable(uri) ==> c == Call(Failure(ErrorValue(ConfigErrorMessage)), s, false)
    // a cached connection is returned as it is and nothing is started
    ensures !UriUnusable(uri) && s.conn.Some? ==> c == Call(Success(s.conn.value), s, false)
    // a connect is started exactly when the URI is usable and neither conn nor promise is cached
    ensures c.started <==> !UriUnusable(uri) && s.conn.None? && s.promise.None?
    ensures c.started ==> c.next.promise == Some(connect)
    ensures !c.started ==> c.next.promise == s.promise
    // after a successful call, conn is the resolved value of the promise and is what was returned
    ensures Coherent(s) && c.result.Success? ==>
              c.next.conn == Some(c.result.value) && c.next.promise == Some(Resolved(c.result.value))
    // a rejected promise is reported, and conn stays empty
    ensures !UriUnusable(uri) && s.conn.None? && c.next.promise.value.Rejected? ==>
              c.result == Failure(c.next.promise.value.reason) && c.next.conn.None?
    // a resolved promise, new or already cached, is stored in conn and returned
    ensures !UriUnusable(uri) && s.conn.None? && c.next.promise.value.Resolved? ==>
              c.result == Success(c.next.promise.value.conn) && c.next.conn == Some(c.next.promise.value.conn)
    ensures Coherent(s) ==> Coherent(c.next)
  {
    if UriUnusable(uri) then Call(Failure(ErrorValue(ConfigErrorMessage)), s, false)
    else if s.conn.Some? then Call(Success(s.conn.value), s, false)
    else
      var started := s.promise.None?;
      var promise := if started then connect else s.promise.value;
      match promise
      case Resolved(conn) => Call(Success(conn), CacheState(Some(conn), Some(promise)), started)
      case Rejected(reason) => Call(Failure(reason), CacheState(None, Some(promise)), started)
  }

  /** A sequence of calls with the same connection string, one settled outcome per call. */
  datatype Trace = Trace(final: CacheState, results: seq<Result<Connection, Thrown>>, starts: nat)

  function Run(s: CacheState, uri: string, outcomes: seq<Settled>): (t: Trace)
    ensures |t.results| == |outcomes|
    decreases outcomes
  {
    if outcomes == [] then Trace(s, [], 0)
    else
      var c := Connect(s, uri, outcomes[0]);
      var t := Run(c.next, uri, outcomes[1..]);
      Trace(t.final, [c.result] + t.results, t.starts + if c.started then 1 else 0)
  }

  /** However many calls are made, at most one connect is ever started, and none once a promise is cached. */
  lemma {:induction false} RunStartsAtMostOnce(s: CacheState, uri: string, outcomes: seq<Settled>)
    ensures Run(s, uri, outcomes).starts <= if s.promise.None? then 1 else 0
    decreases outcomes
  {
    if outcomes != [] {
      var c := Connect(s, uri, outcomes[0]);
      RunStartsAtMostOnce(c.next, uri, outcomes[1..]);
    }
  }

  /** From a fresh cache, at most one connect is started over any sequence of calls. */
  lemma ConnectsAtMostOnce(uri: string, outcomes: seq<Settled>)
    ensures Run(Initial, uri, outcomes).starts <= 1
  {
    RunStartsAtMostOnce(Initial, uri, outcomes);
  }

  /**
   * From a fresh cache with a usable connection string, a first connect that
   * resolves is the only one started, and every call returns its connection.
   */
  lemma ConnectsOnceThenReuses(uri: string, outcomes: seq<Settled>, x: Connection)
    requires !UriUnusable(uri) && |outcomes| > 0 && outcomes[0] == Resolved(x)
    ensures Run(Initial, uri, outcomes).starts == 1
    ensures Run(Initial, uri, outcomes).final == CacheState(Some(x), Some(Resolved(x)))
    ensures forall i :: 0 <= i < |outcomes| ==> Run(Initial, uri, outcomes).results[i] == Success(x)
  {
    var c := Connect(Initial, uri, outcomes[0]);
    RunAfterConnected(c.next, uri, outcomes[1..]);
  }

  /** With an unusable connection string every call fails with the configuration error and nothing changes. */
  lemma {:induction false} RunWithUnusableUri(s: CacheState, uri: string, outcomes: seq<Settled>)
    requires UriUnusable(uri)
    ensures Run(s, uri, outcomes).final == s && Run(s, uri, outcomes).starts == 0
    ensures forall i :: 0 <= i < |outcomes| ==>
              Run(s, uri, outcomes).results[i] == Failure(ErrorValue(ConfigErrorMessage))
  {
    if outcomes != [] {
      RunWithUnusableUri(s, uri, outcomes[1..]);
    }
  }

  /**
   * With `MONGODB_URI` unset the connection string reads as "", so every call
   * fails with the configuration error and the cache never changes.
   */
  lemma RunWithUnsetUri(s: CacheState, outcomes: seq<Settled>)
    ensures Run(s, ConfiguredUri(None), outcomes).final == s
    ensures Run(s, ConfiguredUri(None), outcomes).starts == 0
    ensures forall i :: 0 <= i < |outcomes| ==>
              Run(s, ConfiguredUri(None), outcomes).results[i] == Failure(ErrorValue(ConfigErrorMessage))
  {
    RunWithUnusableUri(s, ConfiguredUri(None), outcomes);
  }

  /** Once a connection is cached, every later call returns that same connection. */
  lemma {:induction false} RunAfterConnected(s: CacheState, uri: string, outcomes: seq<Settled>)
    requires !UriUnusable(uri) && s.conn.Some?
    ensures Run(s, uri, outcomes).final == s && Run(s, uri, outcomes).starts == 0
    ensures forall i :: 0 <= i < |outcomes| ==> Run(s, uri, outcomes).results[i] == Success(s.conn.value)
  {
    if outcomes != [] {
      RunAfterConnected(s, uri, outcomes[1..]);
    }
  }

  /**
   * A rejected connect stays cached: every later call fails with the same reason
   * and no new connect is started.
   */
  lemma {:induction false} RunAfterRejection(s: CacheState, uri: string, outcomes: seq<Settled>)
    requires !UriUnusable(uri) && s.conn.None? && s.promise.Some? && s.promise.value.Rejected?
    ensures Run(s, uri, outcomes).final == s && Run(s, uri, outcomes).starts == 0
    ensures forall i :: 0 <= i < |outcomes| ==> Run(s, uri, outcomes).results[i] == Failure(s.promise.value.reason)
  {
    if outcomes != [] {
      RunAfterRejection(s, uri, outcomes[1..]);
    }
  }

  /** The module-global cache object `global.mongoose`. */
  class ConnectionCache {
    var conn: Option<Connection>
    var promise: Option<Settled>

    function State(): CacheState
      reads this
    {
      CacheState(conn, promise)
    }

    ghost predicate Valid()
      reads this
    {
      Coherent(State())
    }

    /** `{ conn: null, promise: null }`. */
    constructor ()
      ensures Valid() && State() == Initial
    {
      conn := None;
      promise := None;
    }

    /** `connectToDatabase()`, changing `conn` and `promise` in place. */
    method ConnectToDatabase(uri: string, connect: Settled) returns (r: Result<Connection, Thrown>)
      requires Valid()
      modifies this
      ensures Valid()
      ensures r == Connect(old(State()), uri, connect).result
      ensures State() == Connect(old(State()), uri, connect).next
    {
      if UriUnusable(uri) {
        return Failure(ErrorValue(ConfigErrorMessage));
      }
      if conn.Some? {
        return Success(conn.value);
      }
      if promise.None? {
        promise := Some(connect);
      }
      match promise.value
      case Resolved(c) =>
        conn := Some(c);
        r := Success(c);
      case Rejected(reason) =>
        r := Failure(reason);
    }
  }

  /** Module initialisation: reuse `global.mongoose` if it exists, otherwise install an empty cache. */
  method GlobalCache(existing: ConnectionCache?) returns (cached: ConnectionCache)
    requires existing != null ==> existing.Valid()
    ensures cached.Valid()
    ensures existing != null ==> cached == existing
    ensures existing == null ==> fresh(cached) && cached.Valid() && cached.State() == Initial
  {
    if existing != null {
      cached := existing;
    } else {
      cached := new ConnectionCache();
    }
  }
}
