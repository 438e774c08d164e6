/**
 * What every `Cobalt` method shares: the base URL and token fixed by the
 * constructor, the bearer header, and the status test that turns a response
 * into either its parsed body or a thrown error.
 */
module Http {
  import opened Wrappers
  import opened Strings
  import opened JsValues

  const DefaultBaseUrl: string := "https://api.gocobalt.io"

  /** The constructor's options; both may be left out. */
  datatype CobaltOptions = CobaltOptions(baseUrl: Option<string>, token: Option<string>)

  /** A received response: its status and its body, already parsed from JSON. */
  datatype Response = Response(status: int, body: JsValue)

  /** `res.status >= 400 && res.status < 600`. */
  predicate IsErrorStatus(status: int) {
    400 <= status < 600
  }

  /**
   * The common tail of every request: a rejected fetch rejects, an error status
   * throws the parsed error body, anything else yields the parsed body.
   */
  function CheckStatus(fetched: Result<Response, Error>): (r: Result<JsValue, Error>)
    ensures fetched.Failure? ==> r == Failure(fetched.error)
    ensures fetched.Success? ==>
      (r.Failure? <==> 400 <= fetched.value.status < 600)
    ensures fetched.Success? && r.Failure? ==> r.error == Thrown(fetched.value.body)
    ensures fetched.Success? && r.Success? ==> r.value == fetched.value.body
  {
    match fetched
    case Failure(e) => Failure(e)
    case Success(res) =>
      if IsErrorStatus(res.status) then Failure(Thrown(res.body)) else Success(res.body)
  }

  /**
   * A request whose result is one field of the response body (`data.auth_url`,
   * `data.success`): the status test, then the property read, which throws a
   * TypeError on a `null` body.
   */
  function ReadField(fetched: Result<Response, Error>, key: string): (r: Result<JsValue, Error>)
    ensures fetched.Failure? ==> r == Failure(fetched.error)
    ensures fetched.Success? && IsErrorStatus(fetched.value.status) ==> r == Failure(Thrown(fetched.value.body))
    ensures fetched.Success? && !IsErrorStatus(fetched.value.status) ==> r == Member(fetched.value.body, key)
  {
    match CheckStatus(fetched)
    case Failure(e) => Failure(e)
    case Success(data) => Member(data, key)
  }

  predicate HasScheme(url: string) {
    StartsWith(url, "http://") || StartsWith(url, "https://")
  }

  /**
   * The constructor's base URL: the default when absent or empty, kept when it
   * already names a scheme (`/^https?:\/\//`), otherwise prefixed with "https://".
   */
  function NormalizeBaseUrl(baseUrl: Option<string>): (r: string)
    ensures HasScheme(r)
    ensures !StringTruthy(baseUrl) ==> r == DefaultBaseUrl
    ensures StringTruthy(baseUrl) && HasScheme(baseUrl.value) ==> r == baseUrl.value
    ensures StringTruthy(baseUrl) && !HasScheme(baseUrl.value) ==> r == "https://" + baseUrl.value
  {
    if !StringTruthy(baseUrl) then
      assert DefaultBaseUrl[..8] == "https://";
      DefaultBaseUrl
    else if HasScheme(baseUrl.value) then baseUrl.value
    else
      assert ("https://" + baseUrl.value)[..8] == "https://";
      "https://" + baseUrl.value
  }

  /** Feeding a normalised base URL back into a constructor changes nothing. */
  lemma NormalizeBaseUrlIdempotent(baseUrl: Option<string>)
    ensures NormalizeBaseUrl(Some(NormalizeBaseUrl(baseUrl))) == NormalizeBaseUrl(baseUrl)
  {
  }

  /** `options.token || ""`. */
  function TokenOrEmpty(token: Option<string>): (r: string)
    ensures token.Some? ==> r == token.value
    ensures token.None? ==> r == ""
  {
    if StringTruthy(token) then token.value else ""
  }

  /** The `authorization` header every request carries. */
  function BearerHeader(token: string): (h: string)
    ensures StripPrefix(h, "Bearer ") == Some(token)
  {
    StripPrefixOfConcat("Bearer ", token);
    "Bearer " + token
  }
}
