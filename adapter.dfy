/** The request handler that `New` returns: it prepares a pooled wrapper from
    the incoming request, runs the websocket upgrade, and on success hands the
    wrapper to the user handler. */
module Adapter {
  import opened Visit
  import opened Connection

  /** What the handler reads from the incoming request: its user values and
      its query arguments, each in the order the request's visitor yields
      them. */
  datatype Request<V> = Request(userValues: seq<(string, V)>, queryArgs: seq<(string, string)>)

  /** The outcome of the websocket library's upgrade call: either it
      completed the handshake and runs the completion callback with the new
      connection, or it refused and never runs the callback. */
  datatype Upgrade = Upgraded(conn: Handle) | Refused

  /** How a function exits: by returning normally or by panicking. */
  datatype Exit = Returned | Panicked

  /** The observable steps of one request, in order: the user handler called
      while the wrapper holds `handle`, `locals` and `queries`, and the
      wrapper's return to the pool. */
  datatype Step<V> = Call(handle: Option<Handle>, locals: map<string, V>, queries: map<string, string>) | Release

  /** One invocation of the returned handler. `userExit` is how the user
      handler leaves. `result` is how the invocation leaves: `Returned` means
      it returned a nil error. `conn` is the wrapper it used and `trace` what
      happened to it after the request data was copied. */
  method Serve<V>(pool: Pool<V>, req: Request<V>, upgrade: Upgrade, userExit: Exit)
    returns (result: Exit, conn: Conn<V>, trace: seq<Step<V>>)
    requires pool.Valid()
    modifies pool, pool.Top()
    ensures pool.Valid()
    ensures old(pool.free) == [] ==> fresh(conn)
    ensures old(pool.free) != [] ==> conn == old(pool.free[|pool.free| - 1])
    ensures conn.locals == FromPairs(req.userValues)
    ensures conn.queries == FromPairs(req.queryArgs)
    ensures conn.params == map[] && conn.cookies == map[]
    ensures conn.handle == None
    ensures upgrade.Refused? ==> trace == [] && result == Returned
    ensures upgrade.Refused? && old(pool.free) == [] ==> pool.free == []
    ensures upgrade.Refused? && old(pool.free) != [] ==> pool.free == old(pool.free[..|pool.free| - 1])
    ensures upgrade.Upgraded? ==> result == userExit
    ensures upgrade.Upgraded? ==>
              trace == [Call(Some(upgrade.conn), FromPairs(req.userValues), FromPairs(req.queryArgs)), Release]
    ensures upgrade.Upgraded? && old(pool.free) == [] ==> pool.free == [conn]
    ensures upgrade.Upgraded? && old(pool.free) != [] ==> pool.free == old(pool.free[..|pool.free| - 1]) + [conn]
  {
    conn := pool.Acquire();
    ghost var rest := pool.free;

    var i := 0;
    while i < |req.userValues|
      invariant 0 <= i <= |req.userValues|
      invariant conn.locals == FromPairs(req.userValues[..i])
      invariant conn.handle == None && conn.queries == map[]
      invariant conn.params == map[] && conn.cookies == map[]
      invariant pool.free == rest && pool.Valid() && conn !in rest
    {
      var (key, value) := req.userValues[i];
      assert req.userValues[..i + 1][..i] == req.userValues[..i];
      conn.locals := conn.locals[key := value];
      i := i + 1;
    }
    assert req.userValues[..i] == req.userValues;

    i := 0;
    while i < |req.queryArgs|
      invariant 0 <= i <= |req.queryArgs|
      invariant conn.queries == FromPairs(req.queryArgs[..i])
      invariant conn.locals == FromPairs(req.userValues)
      invariant conn.handle == None
      invariant conn.params == map[] && conn.cookies == map[]
      invariant pool.free == rest && pool.Valid() && conn !in rest
    {
      var (key, value) := req.queryArgs[i];
      assert req.queryArgs[..i + 1][..i] == req.queryArgs[..i];
      conn.queries := conn.queries[key := value];
      i := i + 1;
    }
    assert req.queryArgs[..i] == req.queryArgs;

    trace := [];
    match upgrade
    case Refused =>
      result := Returned;
    case Upgraded(h) =>
      conn.handle := Some(h);
      trace := trace + [Call(conn.handle, conn.locals, conn.queries)];
      // deferred: runs whether the user handler returns or panics
      pool.Release(conn);
      trace := trace + [Release];
      result := userExit;
  }

  /** In the wrapper the user handler receives (its `locals` are the ones
      recorded in `Serve`'s `Call` step), a local is present exactly when some
      request user value carries its key, and it holds the value of the key's
      last occurrence. */
  lemma LocalsAfterServe<V>(conn: Conn<V>, req: Request<V>, key: string)
    requires conn.locals == FromPairs(req.userValues)
    ensures conn.Locals(key).Some? <==> exists i :: 0 <= i < |req.userValues| && req.userValues[i].0 == key
    ensures forall i: nat :: IsLastOccurrence(req.userValues, i) && req.userValues[i].0 == key ==>
              conn.Locals(key) == Some(req.userValues[i].1)
  {
    forall i: nat | IsLastOccurrence(req.userValues, i) && req.userValues[i].0 == key
      ensures conn.Locals(key) == Some(req.userValues[i].1)
    {
      FromPairsLastWins(req.userValues, i);
    }
  }

  /** In the wrapper the user handler receives (its `queries` are the ones
      recorded in `Serve`'s `Call` step), a query lookup gives the value of the key's last
      occurrence among the request's query arguments, whatever the defaults;
      for a key the request does not carry it gives the first default, or
      the empty string when there is none. */
  lemma QueryAfterServe<V>(conn: Conn<V>, req: Request<V>, key: string, defaults: seq<string>)
    requires conn.queries == FromPairs(req.queryArgs)
    ensures (forall i :: 0 <= i < |req.queryArgs| ==> req.queryArgs[i].0 != key) ==>
              conn.Query(key, defaults) == (if defaults == [] then "" else defaults[0])
    ensures forall i: nat :: IsLastOccurrence(req.queryArgs, i) && req.queryArgs[i].0 == key ==>
              conn.Query(key, defaults) == req.queryArgs[i].1
  {
    forall i: nat | IsLastOccurrence(req.queryArgs, i) && req.queryArgs[i].0 == key
      ensures conn.Query(key, defaults) == req.queryArgs[i].1
    {
      FromPairsLastWins(req.queryArgs, i);
    }
  }

  /** Two requests served one after the other on the same pool: when the
      first upgrade succeeds, the pool's stack order makes the second request
      reuse the first wrapper, and the second user handler sees only the
      second request's data and connection, nothing left from the first. */
  method ServeTwice<V>(pool: Pool<V>, first: Request<V>, h: Handle, firstExit: Exit,
                       second: Request<V>, upgrade: Upgrade, secondExit: Exit)
    returns (c1: Conn<V>, c2: Conn<V>, t2: seq<Step<V>>)
    requires pool.Valid()
    modifies pool, pool.Top()
    ensures pool.Valid()
    ensures c2 == c1
    ensures upgrade.Upgraded? ==>
              t2 == [Call(Some(upgrade.conn), FromPairs(second.userValues), FromPairs(second.queryArgs)), Release]
    ensures upgrade.Refused? ==> t2 == []
  {
    var r1, t1, r2;
    r1, c1, t1 := Serve(pool, first, Upgraded(h), firstExit);
    r2, c2, t2 := Serve(pool, second, upgrade, secondExit);
  }
}
