/** Shared vocabulary of the loaders: optional values, the loader's response,
    the serialised parameter key, the options record and the user store that
    every loader polls for the acting identity. */
module Common {

  datatype Option<+T> = None | Some(value: T)

  datatype Result<+T, +E> = Ok(value: T) | Err(error: E)

  /** What a loader function resolves to: `{ ok: true, value }` or `{ ok: false }`.
      A failure carries no payload to the cache layer. */
  datatype LoaderResponse<+V> = Success(value: V) | Failure

  /** The value a completion hands to `setValue`: the loaded value, or null
      for a failed load. */
  function ResponseValue<V>(response: LoaderResponse<V>): (r: Option<V>)
    ensures r.Some? <==> response.Success?
    ensures response.Success? ==> r.value == response.value
  {
    match response
    case Success(v) => Some(v)
    case Failure => None
  }

  /** `JSON.stringify(parameters)`. The encoding itself is foreign; the model
      keeps only what the loaders rely on: two parameter tuples give the same
      key exactly when they are equal, and `JSON.parse` gives the tuple back. */
  datatype Serialized<P> = Serialized(parsed: P)

  function Stringify<P>(parameters: P): (key: Serialized<P>)
  {
    Serialized(parameters)
  }

  function Parse<P>(key: Serialized<P>): (parameters: P)
  {
    key.parsed
  }

  lemma ParseStringify<P>(parameters: P)
    ensures Parse(Stringify(parameters)) == parameters
  {
  }

  lemma StringifyParse<P>(key: Serialized<P>)
    ensures Stringify(Parse(key)) == key
  {
  }

  lemma StringifyInjective<P>(p: P, q: P)
    ensures Stringify(p) == Stringify(q) <==> p == q
  {
  }

  /** `LoaderOptions`: `readonly` changes only how observable the container
      is, so it has no effect on values; `onChange` is modelled as whether a
      callback is present, its calls being recorded in a log. */
  datatype LoaderOptions = LoaderOptions(readonly: bool, hasOnChange: bool, allowNotIdentified: bool)

  /** JavaScript truthiness of a value that may be null: `Some(v)` is truthy
      when `truthy(v)` holds (a value type may have falsy members such as
      0 or the empty string). */
  predicate IsTruthy<V>(truthy: V -> bool, value: Option<V>)
  {
    value.Some? && truthy(value.value)
  }

  /** A string is truthy in JavaScript exactly when it is not empty. */
  predicate NonEmpty(s: Option<string>)
  {
    s.Some? && s.value != ""
  }

  /** `UserStore`: the acting identity and its authorization header, read
      synchronously by the loaders at each call. Whoever owns the store (the
      authorization service, a test) changes its fields between calls. */
  class UserStore {
    var identifier: Option<string>
    var authorizationHeader: Option<string>

    constructor (identifier: Option<string>, authorizationHeader: Option<string>)
      ensures this.identifier == identifier
      ensures this.authorizationHeader == authorizationHeader
    {
      this.identifier := identifier;
      this.authorizationHeader := authorizationHeader;
    }
  }
}
