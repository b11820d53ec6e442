/** The connection wrapper handed to user handlers, and the pool that
    recycles wrapper instances between requests. */
module Connection {

  datatype Option<T> = None | Some(value: T)

  /** Identifies an upgraded websocket connection owned by the websocket
      library; the wrapper only stores it. */
  datatype Handle = Handle(id: nat)

  /** A wrapper around an upgraded connection. `handle` is the embedded
      connection (None is Go's nil); the four maps are request-scoped values
      (`V` stands for the dynamic value type), path parameters, cookies and
      query parameters. */
  class Conn<V> {
    var handle: Option<Handle>
    var locals: map<string, V>
    var params: map<string, string>
    var cookies: map<string, string>
    var queries: map<string, string>

    /** A new instance: every field at its zero value. Go's zero maps are
        nil maps, which read like the empty maps used here. */
    constructor()
      ensures handle == None
      ensures locals == map[] && params == map[] && cookies == map[] && queries == map[]
    {
      handle := None;
      locals := map[];
      params := map[];
      cookies := map[];
      queries := map[];
    }

    /** The request-scoped value stored under `key`, or None (Go's nil)
        when there is none. Reads only. */
    function Locals(key: string): (v: Option<V>)
      reads this
      ensures v.Some? <==> key in locals
      ensures v.Some? ==> v.value == locals[key]
    {
      if key in locals then Some(locals[key]) else None
    }

    /** The query parameter stored under `key`. When the key is absent, the
        first of the optional defaults, or the empty string when none is
        given. A stored value always wins over the defaults. Reads only. */
    function Query(key: string, defaults: seq<string>): (v: string)
      reads this
      ensures key in queries ==> v == queries[key]
      ensures key !in queries && defaults != [] ==> v == defaults[0]
      ensures key !in queries && defaults == [] ==> v == ""
    {
      if key !in queries && |defaults| > 0 then defaults[0]
      else if key in queries then queries[key]
      else ""
    }
  }

  /** The reuse pool of wrappers, as a stack: `Put` pushes, `Get` pops the
      most recently returned instance, or makes a new one when empty. */
  class Pool<V> {
    var free: seq<Conn<V>>

    /** Every pooled wrapper has its connection handle cleared, and no
        wrapper is pooled twice. */
    ghost predicate Valid()
      reads this, free
    {
      && (forall i :: 0 <= i < |free| ==> free[i].handle == None)
      && (forall i, j :: 0 <= i < j < |free| ==> free[i] != free[j])
    }

    /** The wrapper the next acquisition reuses, if any. */
    function Top(): (top: set<Conn<V>>)
      reads this
      ensures |top| <= 1
      ensures forall c :: c in top ==> c in free
    {
      if free == [] then {} else {free[|free| - 1]}
    }

    constructor()
      ensures Valid() && free == []
    {
      free := [];
    }

    /** Takes a wrapper from the pool and gives it four fresh, empty maps,
        whatever the reused instance held before. */
    method Acquire() returns (c: Conn<V>)
      requires Valid()
      modifies this, Top()
      ensures Valid()
      ensures c.handle == None && c !in free
      ensures c.locals == map[] && c.params == map[] && c.cookies == map[] && c.queries == map[]
      ensures old(free) == [] ==> fresh(c) && free == []
      ensures old(free) != [] ==> c == old(free[|free| - 1]) && free == old(free[..|free| - 1])
    {
      if free == [] {
        c := new Conn();
      } else {
        c := free[|free| - 1];
        free := free[..|free| - 1];
      }
      c.locals := map[];
      c.params := map[];
      c.queries := map[];
      c.cookies := map[];
    }

    /** Clears the wrapper's connection handle and returns it to the pool.
        The maps are left as they are. */
    method Release(c: Conn<V>)
      requires Valid() && c !in free
      modifies this, c
      ensures Valid()
      ensures c.handle == None
      ensures c.locals == old(c.locals) && c.params == old(c.params)
      ensures c.cookies == old(c.cookies) && c.queries == old(c.queries)
      ensures free == old(free) + [c]
    {
      c.handle := None;
      free := free + [c];
    }
  }
}
