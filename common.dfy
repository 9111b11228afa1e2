/** Values shared by every service of the model: wrappers for JavaScript's
    "returns or throws", the claims a request carries once the gateway has
    authenticated it, and the reply of a GraphQL call to another service. */
module Common {

  datatype Option<+T> = None | Some(value: T) {
    function GetOr(default: T): T
    {
      match this
      case Some(v) => v
      case None => default
    }
  }

  /** The outcome of a resolver or helper that either returns a value or throws
      `new Error(message)`. */
  datatype Result<+T> = Ok(value: T) | Err(message: string)

  /** A check that either passes or throws `new Error(message)`; the checks of
      the services' permissions modules enter the model as values of this type. */
  datatype Outcome = Pass | Fail(message: string)

  /** JavaScript truthiness of an optional string argument: absent, null and the
      empty string are falsy. */
  predicate Truthy(s: Option<string>)
  {
    s.Some? && s.value != ""
  }

  /** The JWT payload that the gateway stores in `req.user`: `uid` always, and
      `type` ('a' admin, 's' student, 'r' representative), `enid` and
      `repAdmin` when the token carries them. */
  datatype Claims = Claims(uid: string, kind: Option<string>, enid: Option<string>, repAdmin: Option<bool>)
  {
    /** `req.user.type === 'a'` */
    predicate IsAdmin() { kind == Some("a") }
    /** `req.user.type === 's'` */
    predicate IsStudent() { kind == Some("s") }
    /** `req.user.type === 'r'` */
    predicate IsRepresentative() { kind == Some("r") }
    /** `req.user.repAdmin === true` */
    predicate IsRepAdmin() { repAdmin == Some(true) }
  }

  /** A field after `$set` of an optional argument: replaced when the
      argument is supplied, kept otherwise. */
  function Override<T>(current: T, given: Option<T>): (r: T)
    ensures given.Some? ==> r == given.value
    ensures given.None? ==> r == current
  {
    if given.Some? then given.value else current
  }

  /** The same for a field that may itself be absent. */
  function OverrideOpt<T>(current: Option<T>, given: Option<T>): (r: Option<T>)
    ensures given.Some? ==> r == given
    ensures given.None? ==> r == current
  {
    if given.Some? then given else current
  }

  /** The reply of a GraphQL call to another service: either it reports
      `errors` (whatever partial data comes with them, every caller tests
      `errors` first) or it carries `data`. */
  datatype Reply<+D> = Failed(errors: seq<string>) | Answered(data: D)
}
