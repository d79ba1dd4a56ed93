/**
 * The slice of JavaScript value semantics the route handlers rely on:
 * JSON request fields, truthiness, and destructuring defaults.
 */
module JsValues {
  import opened Wrappers

  /**
   * A field read from a parsed JSON body. `Undefined` is an absent key
   * (JSON itself has no `undefined`); `Composite` stands for any array or
   * object, whose contents the handlers never inspect.
   */
  datatype JsValue =
    | Undefined
    | Null
    | Bool(b: bool)
    | Number(x: real)
    | Str(s: string)
    | Composite

  /** JavaScript truthiness (`!!v`). JSON cannot carry `NaN`, so a number is falsy exactly when it is zero. */
  predicate Truthy(v: JsValue)
    ensures Truthy(v) ==> v != Undefined && v != Null
    ensures Truthy(v) <==> v !in FalsyValues
  {
    match v
    case Undefined => false
    case Null => false
    case Bool(b) => b
    case Number(x) => x != 0.0
    case Str(s) => s != ""
    case Composite => true
  }

  /** The falsy values JSON can carry: `undefined`, `null`, `false`, `0` and `""`. */
  const FalsyValues: set<JsValue> := {Undefined, Null, Bool(false), Number(0.0), Str("")}

  /**
   * A destructuring default `{ f = d } = body`: the default replaces the
   * field only when the field is `undefined`; an explicit `null` is kept.
   */
  function WithDefault(v: JsValue, d: JsValue): (r: JsValue)
    ensures v.Undefined? ==> r == d
    ensures !v.Undefined? ==> r == v
    ensures !d.Undefined? ==> !r.Undefined?
    ensures Truthy(r) <==> Truthy(v) || (v.Undefined? && Truthy(d))
  {
    if v.Undefined? then d else v
  }

  /** Applying the same default twice is applying it once. */
  lemma WithDefaultIdempotent(v: JsValue, d: JsValue)
    ensures WithDefault(WithDefault(v, d), d) == WithDefault(v, d)
  {
  }

  /** The JavaScript value of a user id the identity provider yields: a string, or `null`. */
  function UserIdValue(userId: Option<string>): JsValue {
    match userId
    case Some(id) => Str(id)
    case None => Null
  }

  /** The session check `if (!userId)`: the identity provider yields a user id or `null`; the empty id is falsy too. */
  predicate SignedIn(userId: Option<string>)
    ensures SignedIn(userId) <==> Truthy(UserIdValue(userId))
  {
    userId.Some? && userId.value != ""
  }
}
