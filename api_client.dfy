/** The HTTP client helpers: the query string builder, the error message
    mapping, the request set-up of `fetch`, and the status rule of the oldest
    client. The three copies of `getQueryString` (src/api-client.tsx,
    api-client.ts, index.ts) are the same code and share one model. */
module ApiClients {
  import opened Common
  import opened Strings

  /** A property value of the parameters object: `null` or `undefined`, a
      `Date`, or any other value, given as the string `encodeURIComponent`
      converts it to. */
  datatype ParameterValue<D> = Missing | DateValue(date: D) | Plain(text: string)

  /** The parameters object as its `for ... in` loop enumerates it. */
  type Parameters<D> = seq<(string, ParameterValue<D>)>

  /** The string that is encoded for a present value: a `Date` goes through
      `toISOString` first. */
  function ValueText<D>(value: ParameterValue<D>, toIso: D -> string): string
    requires !value.Missing?
  {
    match value
    case DateValue(date) => toIso(date)
    case Plain(text) => text
  }

  /** The `(key, encoded value)` pairs of the present values, in order. */
  function PresentPairs<D>(parameters: Parameters<D>, encode: string -> string, toIso: D -> string): (r: seq<(string, string)>)
    ensures |r| <= |parameters|
    decreases |parameters|
  {
    if parameters == [] then []
    else
      var (key, value) := parameters[|parameters| - 1];
      PresentPairs(parameters[..|parameters| - 1], encode, toIso)
      + (if value.Missing? then [] else [(key, encode(ValueText(value, toIso)))])
  }

  /** `key + "=" + encodeURIComponent(value)` for each present value. */
  function Entries<D>(parameters: Parameters<D>, encode: string -> string, toIso: D -> string): (r: seq<string>)
    decreases |parameters|
  {
    if parameters == [] then []
    else
      var (key, value) := parameters[|parameters| - 1];
      Entries(parameters[..|parameters| - 1], encode, toIso)
      + (if value.Missing? then [] else [key + "=" + encode(ValueText(value, toIso))])
  }

  /** What `getQueryString(parameters)` returns (`None` for an undefined
      parameters object). */
  function QueryString<D>(parameters: Option<Parameters<D>>, encode: string -> string, toIso: D -> string): string
  {
    var entries := if parameters.None? then [] else Entries(parameters.value, encode, toIso);
    if |entries| > 0 then "?" + Join(entries, "&") else ""
  }

  /** `getQueryString(parameters)`, with `encodeURIComponent` and
      `toISOString` given as `encode` and `toIso`. */
  method GetQueryString<D>(parameters: Option<Parameters<D>>, encode: string -> string, toIso: D -> string) returns (r: string)
    ensures r == QueryString(parameters, encode, toIso)
  {
    var parametersList: seq<string> := [];
    if parameters.Some? {
      var all := parameters.value;
      var i := 0;
      while i < |all|
        invariant 0 <= i <= |all|
        invariant parametersList == Entries(all[..i], encode, toIso)
      {
        var (key, value) := all[i];
        assert all[..i + 1][..i] == all[..i];
        if !value.Missing? {
          var text := match value case DateValue(date) => toIso(date) case Plain(text) => text;
          parametersList := parametersList + [key + "=" + encode(text)];
        }
        i := i + 1;
      }
      assert all[..|all|] == all;
    }
    if |parametersList| > 0 {
      r := "?" + Join(parametersList, "&");
    } else {
      r := "";
    }
  }

  /** There is one entry per present value. */
  lemma {:induction false} EntriesCount<D>(parameters: Parameters<D>, encode: string -> string, toIso: D -> string)
    ensures |Entries(parameters, encode, toIso)| == |PresentPairs(parameters, encode, toIso)|
    ensures Entries(parameters, encode, toIso) == [] <==> forall i :: 0 <= i < |parameters| ==> parameters[i].1.Missing?
    decreases |parameters|
  {
    if parameters != [] {
      var front := parameters[..|parameters| - 1];
      EntriesCount(front, encode, toIso);
      assert forall i :: 0 <= i < |front| ==> front[i] == parameters[i];
    }
  }

  /** The query string is empty exactly when there are no parameters or
      every value is `null` or `undefined`; otherwise it starts with "?". */
  lemma QueryStringEmpty<D>(parameters: Option<Parameters<D>>, encode: string -> string, toIso: D -> string)
    ensures QueryString(parameters, encode, toIso) == "" <==>
      parameters.None? || forall i :: 0 <= i < |parameters.value| ==> parameters.value[i].1.Missing?
    ensures QueryString(parameters, encode, toIso) != "" ==> QueryString(parameters, encode, toIso)[0] == '?'
  {
    if parameters.Some? {
      EntriesCount(parameters.value, encode, toIso);
    }
  }

  /** One entry read back: the text before the first "=" and the rest. */
  function ParseEntry(entry: string): (string, string)
  {
    match IndexOf(entry, '=')
    case None => (entry, "")
    case Some(i) => (entry[..i], entry[i + 1..])
  }

  /** A query string read back into its `(key, encoded value)` pairs. */
  function ParseQuery(query: string): seq<(string, string)>
  {
    if |query| == 0 || query[0] != '?' then []
    else
      var pieces := Split(query[1..], '&');
      seq(|pieces|, i requires 0 <= i < |pieces| => ParseEntry(pieces[i]))
  }

  /** No key holds "&" or "=", and the encoder never produces either
      (`encodeURIComponent` escapes both). */
  ghost predicate Unambiguous<D>(parameters: Parameters<D>, encode: string -> string)
  {
    && (forall i :: 0 <= i < |parameters| ==> '&' !in parameters[i].0 && '=' !in parameters[i].0)
    && (forall text :: '&' !in encode(text) && '=' !in encode(text))
  }

  /** Reading the query string back gives the present keys and their
      encoded values, in enumeration order. */
  lemma QueryRoundTrip<D>(parameters: Option<Parameters<D>>, encode: string -> string, toIso: D -> string)
    requires parameters.Some? ==> Unambiguous(parameters.value, encode)
    ensures ParseQuery(QueryString(parameters, encode, toIso)) ==
      (if parameters.None? then [] else PresentPairs(parameters.value, encode, toIso))
  {
    if parameters.Some? {
      var entries := Entries(parameters.value, encode, toIso);
      EntriesParse(parameters.value, encode, toIso);
      EntriesCount(parameters.value, encode, toIso);
      if |entries| > 0 {
        var query := QueryString(parameters, encode, toIso);
        assert query[1..] == Join(entries, "&");
        SplitJoin(entries, '&');
      }
    }
  }

  /** Each entry holds no "&", and reads back as its pair. */
  lemma {:induction false} EntriesParse<D>(parameters: Parameters<D>, encode: string -> string, toIso: D -> string)
    requires Unambiguous(parameters, encode)
    ensures var entries := Entries(parameters, encode, toIso);
      && |entries| == |PresentPairs(parameters, encode, toIso)|
      && forall i :: 0 <= i < |entries| ==>
           '&' !in entries[i] && ParseEntry(entries[i]) == PresentPairs(parameters, encode, toIso)[i]
    decreases |parameters|
  {
    if parameters != [] {
      var front := parameters[..|parameters| - 1];
      assert forall i :: 0 <= i < |front| ==> front[i] == parameters[i];
      EntriesParse(front, encode, toIso);
      var (key, value) := parameters[|parameters| - 1];
      if !value.Missing? {
        var encoded := encode(ValueText(value, toIso));
        assert '=' !in key && '&' !in key && '&' !in encoded && '=' !in encoded;
        IndexOfAfter(key, '=', encoded);
        assert key + "=" + encoded == key + ['='] + encoded;
        assert (key + "=" + encoded)[..|key|] == key;
        assert (key + "=" + encoded)[|key| + 1..] == encoded;
      }
    }
  }

  /** The messages shown for each kind of error. */
  datatype ErrorMessages = ErrorMessages(unauthorized: string, internalServerError: string, notFound: string, unknownError: string)

  const DefaultErrorMessages := ErrorMessages("Unauthorized access", "Internal server error", "Resource not found", "Unknown error")

  /** The statuses that have a message of their own. */
  predicate KnownStatus(status: int)
  {
    status == 401 || status == 404 || status == 500
  }

  /** `parseErrors(response, errorMessages)` of src/api-client.tsx and
      api-client.ts: the message for the response's status. */
  function ParseErrors(status: int, messages: ErrorMessages): (r: string)
    ensures status == 401 ==> r == messages.unauthorized
    ensures status == 404 ==> r == messages.notFound
    ensures status == 500 ==> r == messages.internalServerError
    ensures !KnownStatus(status) ==> r == messages.unknownError
  {
    match status
    case 401 => messages.unauthorized
    case 404 => messages.notFound
    case 500 => messages.internalServerError
    case _ => messages.unknownError
  }

  /** With the default messages, the message tells which of the four kinds
      of error occurred. */
  lemma DefaultMessagesIdentifyStatus(status: int, other: int)
    requires ParseErrors(status, DefaultErrorMessages) == ParseErrors(other, DefaultErrorMessages)
    ensures KnownStatus(status) <==> KnownStatus(other)
    ensures KnownStatus(status) ==> status == other
  {
  }

  /** A failed response as index.ts sees it: its status and whether it has a
      `json` method. */
  datatype ErrorResponse = ErrorResponse(status: int, hasJson: bool)

  /** What `parseErrors(error, showError)` of index.ts passes to `showError`:
      one message now, or (for another status with a JSON body) the body
      once it has been read. */
  datatype Report = Shown(message: string) | FromBody

  function ReportErrors(response: Option<ErrorResponse>, messages: ErrorMessages): (r: Report)
    ensures response.None? ==> r == Shown(messages.unknownError)
    ensures response.Some? && KnownStatus(response.value.status) ==> r == Shown(ParseErrors(response.value.status, messages))
    ensures response.Some? && !KnownStatus(response.value.status) ==> (r == FromBody <==> response.value.hasJson)
  {
    if response.None? then Shown(messages.unknownError)
    else
      match response.value.status
      case 401 => Shown(messages.unauthorized)
      case 404 => Shown(messages.notFound)
      case 500 => Shown(messages.internalServerError)
      case _ => if !response.value.hasJson then Shown(messages.unknownError) else FromBody
  }

  /** Wherever index.ts shows a message at once, it is the message the newer
      `parseErrors` returns for the same status. */
  lemma ReportAgreesWithParseErrors(response: ErrorResponse, messages: ErrorMessages)
    ensures ReportErrors(Some(response), messages).Shown? ==>
      ReportErrors(Some(response), messages).message == ParseErrors(response.status, messages)
  {
  }

  /** The status test of `fetch` in index.ts: anything outside 200..299
      throws a `ResponseError`. */
  predicate IsErrorStatus(status: int)
  {
    status >= 300 || status < 200
  }

  /** `response.ok` of the Fetch standard, which the newer clients test. */
  predicate OkStatus(status: int)
  {
    200 <= status <= 299
  }

  /** index.ts throws exactly for the responses the newer clients treat as
      not ok. */
  lemma ErrorStatusIsNotOk(status: int)
    ensures IsErrorStatus(status) <==> !OkStatus(status)
  {
  }

  datatype Credentials = SameOrigin | Omit

  /** The `RequestInit` that `fetch` passes to `window.fetch`. */
  datatype RequestInit<D> = RequestInit(verb: string, credentials: Credentials, headers: seq<(string, string)>, body: Option<D>)

  const JsonHeaders: seq<(string, string)> := [("Accept", "application/json"), ("Content-Type", "application/json")]

  /** The request set-up of `SimpleApiClient.fetch` in src/api-client.tsx:
      `authorizationHeader` is what `getAuthorizationHeader()` resolved to
      (not asked without a user manager); `data` is `None` for null or
      undefined. */
  method BuildRequest<D>(verb: string, data: Option<D>, hasUserManager: bool, authorizationHeader: Option<string>)
    returns (init: RequestInit<D>)
    ensures init.verb == verb && init.body == data
    ensures hasUserManager && NonEmpty(authorizationHeader) ==>
      init.headers == JsonHeaders + [("Authorization", authorizationHeader.value)]
    ensures !(hasUserManager && NonEmpty(authorizationHeader)) ==> init.headers == JsonHeaders
    ensures init.credentials == Omit <==> hasUserManager && NonEmpty(authorizationHeader)
  {
    var headers := JsonHeaders;
    var credentials := SameOrigin;
    if hasUserManager {
      if authorizationHeader.Some? && authorizationHeader.value != "" {
        headers := headers + [("Authorization", authorizationHeader.value)];
        credentials := Omit;
      }
    }
    init := RequestInit(verb, credentials, headers, data);
  }

  /** The request set-up of `fetch` in api-client.ts: the same headers,
      and credentials always "same-origin". */
  function LegacyRequest<D>(verb: string, data: Option<D>, hasUserManager: bool, authorizationHeader: Option<string>): (init: RequestInit<D>)
    ensures init.verb == verb && init.body == data && init.credentials == SameOrigin
    ensures |init.headers| >= 2 && init.headers[..2] == JsonHeaders
    ensures forall h :: ("Authorization", h) in init.headers <==>
      hasUserManager && NonEmpty(authorizationHeader) && h == authorizationHeader.value
  {
    RequestInit(verb, SameOrigin,
      JsonHeaders + (if hasUserManager && NonEmpty(authorizationHeader) then [("Authorization", authorizationHeader.value)] else []),
      data)
  }

  /** The two clients send the same headers and body; they differ only in
      the credentials, and only when the Authorization header is sent. */
  method CompareClients<D>(verb: string, data: Option<D>, hasUserManager: bool, authorizationHeader: Option<string>)
    returns (current: RequestInit<D>, legacy: RequestInit<D>)
    ensures current.headers == legacy.headers && current.body == legacy.body && current.verb == legacy.verb
    ensures legacy.credentials == SameOrigin
    ensures current.credentials != legacy.credentials <==> hasUserManager && NonEmpty(authorizationHeader)
  {
    current := BuildRequest(verb, data, hasUserManager, authorizationHeader);
    legacy := LegacyRequest(verb, data, hasUserManager, authorizationHeader);
  }
}
