/**
 * Values shared by every layer of the message service: optional values, the
 * three ways a call can end, the bag of message attributes that the JavaScript
 * code passes around as a plain object, and its truthiness tests.
 */
module Values {

  datatype Option<+T> = None | Some(value: T)

  /** Why a call failed. */
  datatype Error =
    | Thrown(message: string)  // an `Error` raised with this message
    | StorageFailure           // the backend rejected the call; every layer passes it on unchanged
    | Http(status: nat)        // `ctx.throw(status)` in a route handler

  /**
   * How a promise-returning call ends. `Throw` is an exception raised
   * synchronously, before any promise exists, so a `.catch` chained onto the
   * call never sees it; `Reject` is the returned promise rejecting.
   */
  datatype Result<+T> = Ok(value: T) | Throw(error: Error) | Reject(error: Error)

  /** How a route handler ends: normally, or with an error left for Koa to answer. */
  datatype Outcome = Done | Fail(error: Error)

  /** JavaScript truthiness of an optional string: absent, null and "" are falsy. */
  predicate Present(s: Option<string>) {
    s.Some? && s.value != ""
  }

  /** JavaScript truthiness of an id: absent and 0 are falsy. */
  predicate IdPresent(id: Option<int>) {
    id.Some? && id.value != 0
  }

  /**
   * The attributes of a message as a plain object. `None` is a key that is
   * absent (or null); timestamps are clock readings.
   */
  datatype Fields = Fields(
    id: Option<int>,
    text: Option<string>,
    owner: Option<string>,
    createdAt: Option<int>,
    updatedAt: Option<int>,
    createdBy: Option<string>,
    updatedBy: Option<string>)

  const NoFields := Fields(None, None, None, None, None, None, None)

  /** A plain object that a callee may change in place (`Object.assign`). */
  class Payload {
    var fields: Fields

    constructor (fields: Fields)
      ensures this.fields == fields
    {
      this.fields := fields;
    }
  }

  /** The string-valued attributes whose presence the layers check by name. */
  datatype Key = Text | Owner | CreatedBy | UpdatedBy

  function Get(f: Fields, k: Key): Option<string> {
    match k
    case Text => f.text
    case Owner => f.owner
    case CreatedBy => f.createdBy
    case UpdatedBy => f.updatedBy
  }

  /** The property name as it appears in the source's error messages. */
  function KeyName(k: Key): string {
    match k
    case Text => "text"
    case Owner => "owner"
    case CreatedBy => "createdBy"
    case UpdatedBy => "updatedBy"
  }

  /** The first of `keys` whose value in `f` is falsy, if any. */
  function FirstMissing(f: Fields, keys: seq<Key>): (m: Option<Key>)
    ensures m.None? <==> forall i :: 0 <= i < |keys| ==> Present(Get(f, keys[i]))
    ensures m.Some? ==> exists i :: 0 <= i < |keys| && keys[i] == m.value && !Present(Get(f, keys[i]))
                                    && forall j :: 0 <= j < i ==> Present(Get(f, keys[j]))
  {
    if keys == [] then None
    else if !Present(Get(f, keys[0])) then Some(keys[0])
    else
      var m := FirstMissing(f, keys[1..]);
      assert forall i :: 1 <= i < |keys| ==> keys[i] == keys[1..][i - 1];
      m
  }

  /**
   * The `for (const arg of keys) if (!args[arg]) throw …` loop that the DAO's
   * `create` and the PUT/POST handlers run: the first falsy key, if any.
   */
  method FindMissing(f: Fields, keys: seq<Key>) returns (m: Option<Key>)
    ensures m == FirstMissing(f, keys)
  {
    var i := 0;
    while i < |keys|
      invariant 0 <= i <= |keys|
      invariant FirstMissing(f, keys) == FirstMissing(f, keys[i..])
    {
      assert keys[i..][1..] == keys[i + 1..];
      if !Present(Get(f, keys[i])) {
        return Some(keys[i]);
      }
      i := i + 1;
    }
    return None;
  }
}
