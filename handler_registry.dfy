/** The per-queue handler registry (`handlers`, `addHandler`, `getHandler`
    of CloudTasksQueue): a string-keyed record with overwrite semantics and
    a lookup that throws for an unknown id. */
module HandlerRegistry {
  import opened Js

  /** The identity of a registered handler function; what it does when
      called is supplied separately (see `Run`). */
  datatype Handler = Handler(ref: nat)

  type Registry = map<string, Handler>

  /** What calling a handler with positional arguments does: resolve or throw. */
  type Run = (Handler, seq<Json>) -> Result<(), Error>

  function HandlerNotFound(id: string): Error {
    CloudTasksError("Handler '" + id + "' not found")
  }

  /** `handlers[handlerId] = handler`. */
  function Register(m: Registry, id: string, h: Handler): (r: Registry)
    ensures r.Keys == m.Keys + {id}
    ensures r[id] == h
    ensures forall k :: k in m && k != id ==> r[k] == m[k]
  {
    m[id := h]
  }

  /** `getHandler(id)`, with `handlers` read as a map of own entries. */
  function Resolve(m: Registry, id: string): (r: Result<Handler, Error>)
    ensures r.Ok? <==> id in m
    ensures r.Ok? ==> r.value == m[id]
    ensures r.Err? ==> r.error == HandlerNotFound(id)
  {
    if id in m then Ok(m[id]) else Err(HandlerNotFound(id))
  }

  lemma ResolveAfterRegister(m: Registry, id: string, h: Handler)
    ensures Resolve(Register(m, id, h), id) == Ok(h)
  {
  }

  /** A second registration under the same id replaces the first. */
  lemma LastRegistrationWins(m: Registry, id: string, h1: Handler, h2: Handler)
    ensures Register(Register(m, id, h1), id, h2) == Register(m, id, h2)
    ensures Resolve(Register(Register(m, id, h1), id, h2), id) == Ok(h2)
  {
  }

  /** Registering under one id leaves the lookup of every other id as it was. */
  lemma RegisterLeavesOtherIds(m: Registry, id: string, h: Handler, other: string)
    requires other != id
    ensures Resolve(Register(m, id, h), other) == Resolve(m, other)
  {
  }

  // The record is a plain object literal, so a lookup also finds what it
  // inherits from Object.prototype. The model above reads only own entries;
  // the following describes the lookup as the source performs it.

  /** The members every plain object inherits from Object.prototype. */
  const ObjectPrototypeMembers: set<string> := {
    "constructor", "hasOwnProperty", "isPrototypeOf", "propertyIsEnumerable",
    "toLocaleString", "toString", "valueOf", "__proto__",
    "__defineGetter__", "__defineSetter__", "__lookupGetter__", "__lookupSetter__"}

  /** What `handlers[id]` yields: an own entry or an inherited member. */
  datatype Slot = Own(handler: Handler) | Inherited(member: string)

  /** `getHandler(id)` as written: every inherited member is a truthy value,
      so it passes the `!handler` test. */
  function ResolveAsWritten(m: Registry, id: string): (r: Result<Slot, Error>)
    ensures r.Err? <==> id !in m && id !in ObjectPrototypeMembers
    ensures id in m ==> r == Ok(Own(m[id]))
  {
    if id in m then Ok(Own(m[id]))
    else if id in ObjectPrototypeMembers then Ok(Inherited(id))
    else Err(HandlerNotFound(id))
  }

  /** The two lookups agree except on the inherited names. */
  lemma ResolveAsWrittenAgreesOffPrototype(m: Registry, id: string)
    requires id !in ObjectPrototypeMembers
    ensures ResolveAsWritten(m, id).Ok? <==> Resolve(m, id).Ok?
    ensures Resolve(m, id).Ok? ==> ResolveAsWritten(m, id) == Ok(Own(Resolve(m, id).value))
  {
  }

  /** Counterexample: with nothing registered, `getHandler("toString")`
      returns Object.prototype.toString instead of throwing. */
  lemma InheritedMemberResolvesAsWritten()
    ensures ResolveAsWritten(map[], "toString") == Ok(Inherited("toString"))
    ensures Resolve(map[], "toString") == Err(HandlerNotFound("toString"))
  {
  }
}
