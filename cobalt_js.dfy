/**
 * The compiled snapshot of the client (cobalt.js): accounts carry an auth type
 * and a status, "connected" means some OAuth2 account is active, `connect`
 * dispatches on an explicit auth type. The URL builders here are those of
 * `disconnect` (with its optional `?auth_type=`) and `getExecutions`, which only
 * this snapshot has, and `getConfig`, whose optional `/configId` segment
 * cobalt.ts writes the same way.
 */
module CobaltJs {
  import opened Wrappers
  import opened Strings
  import opened JsValues
  import Http
  import Requests
  import opened PollSession

  datatype AuthType = OAuth2 | KeyBased
  datatype AuthStatus = Active | Expired

  /** The string values of the `AuthType` enum. */
  function AuthTypeName(t: AuthType): (name: string)
    ensures name != ""
  {
    match t
    case OAuth2 => "oauth2"
    case KeyBased => "keybased"
  }

  datatype ConnectedAccount = ConnectedAccount(authType: AuthType, status: AuthStatus)

  /** The part of an application record the poll reads. */
  datatype Application = Application(connectedAccounts: Option<seq<ConnectedAccount>>)

  /** `accounts.filter(a => a.auth_type === AuthType.OAuth2)`. */
  function OAuth2Accounts(accounts: seq<ConnectedAccount>): seq<ConnectedAccount> {
    if accounts == [] then []
    else if accounts[0].authType == OAuth2 then [accounts[0]] + OAuth2Accounts(accounts[1..])
    else OAuth2Accounts(accounts[1..])
  }

  /** `accounts.some(a => a.status === AuthStatus.Active)`. */
  predicate SomeActive(accounts: seq<ConnectedAccount>) {
    accounts != [] && (accounts[0].status == Active || SomeActive(accounts[1..]))
  }

  /** `app && app.connected_accounts?.filter(…oauth2…).some(…active…)`. */
  predicate IsConnected(app: Option<Application>) {
    app.Some? && app.value.connectedAccounts.Some?
    && SomeActive(OAuth2Accounts(app.value.connectedAccounts.value))
  }

  predicate IsActiveOAuth2(a: ConnectedAccount) {
    a.authType == OAuth2 && a.status == Active
  }

  lemma {:induction false} FilterThenSome(accounts: seq<ConnectedAccount>)
    ensures SomeActive(OAuth2Accounts(accounts)) <==> exists i :: 0 <= i < |accounts| && IsActiveOAuth2(accounts[i])
  {
    if accounts != [] {
      FilterThenSome(accounts[1..]);
      if exists i :: 0 <= i < |accounts[1..]| && IsActiveOAuth2(accounts[1..][i]) {
        var i :| 0 <= i < |accounts[1..]| && IsActiveOAuth2(accounts[1..][i]);
        assert IsActiveOAuth2(accounts[i + 1]);
      }
      if exists i :: 0 <= i < |accounts| && IsActiveOAuth2(accounts[i]) {
        var i :| 0 <= i < |accounts| && IsActiveOAuth2(accounts[i]);
        if i > 0 {
          assert IsActiveOAuth2(accounts[1..][i - 1]);
        }
      }
    }
  }

  /** Connected exactly when the record lists some active OAuth2 account. */
  lemma IsConnectedIff(app: Option<Application>)
    ensures IsConnected(app) <==>
      app.Some? && app.value.connectedAccounts.Some?
      && exists i :: 0 <= i < |app.value.connectedAccounts.value|
                     && IsActiveOAuth2(app.value.connectedAccounts.value[i])
  {
    if app.Some? && app.value.connectedAccounts.Some? {
      FilterThenSome(app.value.connectedAccounts.value);
    }
  }

  /** Expired OAuth2 accounts and key-based accounts of any status never make an application connected. */
  lemma OnlyActiveOAuth2Counts(accounts: seq<ConnectedAccount>)
    requires forall i :: 0 <= i < |accounts| ==> accounts[i].authType == KeyBased || accounts[i].status == Expired
    ensures !IsConnected(Some(Application(Some(accounts))))
  {
    IsConnectedIff(Some(Application(Some(accounts))));
  }

  /** Adding an account that is not an active OAuth2 one leaves the signal unchanged. */
  lemma OtherAccountsDoNotMatter(accounts: seq<ConnectedAccount>, extra: ConnectedAccount)
    requires !IsActiveOAuth2(extra)
    ensures IsConnected(Some(Application(Some(accounts + [extra])))) == IsConnected(Some(Application(Some(accounts))))
  {
    FilterThenSome(accounts);
    FilterThenSome(accounts + [extra]);
    if exists i :: 0 <= i < |accounts + [extra]| && IsActiveOAuth2((accounts + [extra])[i]) {
      var i :| 0 <= i < |accounts + [extra]| && IsActiveOAuth2((accounts + [extra])[i]);
      assert i < |accounts| && IsActiveOAuth2(accounts[i]);
    }
    if exists i :: 0 <= i < |accounts| && IsActiveOAuth2(accounts[i]) {
      var i :| 0 <= i < |accounts| && IsActiveOAuth2(accounts[i]);
      assert IsActiveOAuth2((accounts + [extra])[i]);
    }
  }

  /** One tick's `getApp(slug)`: its `.then` branch on the connected signal, or its `.catch`. */
  function Reduce(fetched: Result<Option<Application>, Error>): (q: Query)
    ensures q == Connected <==> fetched.Success? && IsConnected(fetched.value)
    ensures q == NotConnected <==> fetched.Success? && !IsConnected(fetched.value)
    ensures fetched.Failure? ==> q == QueryFailed(fetched.error)
  {
    match fetched
    case Failure(e) => QueryFailed(e)
    case Success(app) => if IsConnected(app) then Connected else NotConnected
  }

  /**
   * On a polling session, a tick resolves `true` exactly when the fetched
   * record has an active OAuth2 account, and rejects exactly when the query failed.
   */
  lemma TickSettlesOnConnectedAccounts(s: State, fetched: Result<Option<Application>, Error>)
    requires Inv(s) && s.outcome.Pending?
    ensures var r := Step(s, Tick(Reduce(fetched)));
      && (r.outcome == Resolved(true) <==>
            fetched.Success? && fetched.value.Some? && fetched.value.value.connectedAccounts.Some?
            && exists i :: 0 <= i < |fetched.value.value.connectedAccounts.value|
                           && IsActiveOAuth2(fetched.value.value.connectedAccounts.value[i]))
      && (r.outcome.Rejected? <==> fetched.Failure?)
      && (fetched.Failure? ==> r.outcome == Rejected(fetched.error) && r.closeCalls == s.closeCalls)
      && (Reduce(fetched) == NotConnected && s.popupPresent && s.popupClosed ==> r.outcome == Resolved(false))
      && (Reduce(fetched) == NotConnected && !(s.popupPresent && s.popupClosed) ==> r.outcome.Pending? && r.timerActive)
      && (Reduce(fetched) == Connected ==> r.closeCalls == s.closeCalls + (if s.popupPresent then 1 else 0))
  {
    if fetched.Success? {
      IsConnectedIff(fetched.value);
    }
  }

  type Payload = map<string, string>

  /** Which request `connect` ends up making. */
  datatype Call =
    | OAuthCall(slug: string, params: Option<Payload>)
    | KeyBasedCall(slug: string, payload: Option<Payload>)

  /**
   * `connect({ slug, type, payload })`: an explicit type chooses; otherwise a
   * payload (any object, even an empty one, is truthy) means key-based, and no
   * payload means OAuth2 without parameters.
   */
  function Connect(slug: string, authType: Option<string>, payload: Option<Payload>): (c: Call)
    ensures c.slug == slug
    ensures c.KeyBasedCall? <==>
      authType == Some("keybased") || (authType != Some("oauth2") && payload.Some?)
    ensures c.KeyBasedCall? ==> c.payload == payload
    ensures c.OAuthCall? ==> c.params == (if authType == Some("oauth2") then payload else None)
  {
    if authType == Some(AuthTypeName(OAuth2)) then OAuthCall(slug, payload)
    else if authType == Some(AuthTypeName(KeyBased)) then KeyBasedCall(slug, payload)
    else if payload.Some? then KeyBasedCall(slug, payload)
    else OAuthCall(slug, None)
  }

  /** A type string outside the enum is treated exactly as no type. */
  lemma UnknownTypeIsDefault(slug: string, name: string, payload: Option<Payload>)
    requires name != "oauth2" && name != "keybased"
    ensures Connect(slug, Some(name), payload) == Connect(slug, None, payload)
  {
  }

  /** A payload is never dropped: it is forwarded unless the default branch chose OAuth2, which needs none. */
  lemma ConnectForwardsPayload(slug: string, authType: Option<string>, payload: Option<Payload>)
    requires payload.Some?
    ensures match Connect(slug, authType, payload)
      case OAuthCall(_, params) => params == payload && authType == Some("oauth2")
      case KeyBasedCall(_, p) => p == payload
  {
  }

  /** `keybased(slug, payload)`: the status test, then `data.success` (see Http.ReadField). */
  function KeyBasedResult(fetched: Result<Http.Response, Error>): Result<JsValue, Error> {
    Http.ReadField(fetched, "success")
  }

  /** The save resolves with the body's `success` flag, and throws the body on an error status. */
  lemma KeyBasedResultCases(status: int, fields: map<string, JsValue>, success: bool)
    ensures !Http.IsErrorStatus(status) ==>
      KeyBasedResult(Success(Http.Response(status, Obj(fields["success" := Bool(success)])))) == Success(Bool(success))
    ensures Http.IsErrorStatus(status) ==>
      KeyBasedResult(Success(Http.Response(status, Obj(fields)))) == Failure(Thrown(Obj(fields)))
    ensures !Http.IsErrorStatus(status) ==>
      KeyBasedResult(Success(Http.Response(status, Null))) == Failure(TypeError)
  {
  }

  const DisconnectPath: string := "/api/v1/linked-acc/integration/"

  /** `${baseUrl}/api/v1/linked-acc/integration/${slug}${type ? `?auth_type=${type}` : ""}`. */
  function DisconnectUrl(baseUrl: string, slug: string, authType: Option<AuthType>): (url: string)
    ensures StartsWith(url, baseUrl + DisconnectPath + slug)
  {
    var tail := if authType.Some? then "?auth_type=" + AuthTypeName(authType.value) else "";
    StripPrefixOfConcat(baseUrl + DisconnectPath + slug, tail);
    baseUrl + DisconnectPath + slug + tail
  }

  function AuthTypeOfName(name: string): Option<AuthType> {
    if name == "oauth2" then Some(OAuth2) else if name == "keybased" then Some(KeyBased) else None
  }

  /** Reads the slug and the optional auth type back from a `disconnect` URL. */
  function ParseDisconnectUrl(baseUrl: string, url: string): Option<(string, Option<AuthType>)> {
    match StripPrefix(url, baseUrl + DisconnectPath)
    case None => None
    case Some(rest) =>
      var (slug, query) := SplitFirst(rest, '?');
      if query.None? then Some((slug, None))
      else match StripPrefix(query.value, "auth_type=")
        case None => None
        case Some(name) =>
          match AuthTypeOfName(name)
          case None => None
          case Some(t) => Some((slug, Some(t)))
  }

  /** The `disconnect` URL reads back to its slug, and to its auth type exactly when one was given. */
  lemma DisconnectUrlRoundTrip(baseUrl: string, slug: string, authType: Option<AuthType>)
    requires '?' !in slug
    ensures ParseDisconnectUrl(baseUrl, DisconnectUrl(baseUrl, slug, authType)) == Some((slug, authType))
  {
    var tail := if authType.Some? then "?auth_type=" + AuthTypeName(authType.value) else "";
    assert DisconnectUrl(baseUrl, slug, authType) == baseUrl + DisconnectPath + (slug + tail);
    StripPrefixOfConcat(baseUrl + DisconnectPath, slug + tail);
    if authType.Some? {
      var name := AuthTypeName(authType.value);
      assert slug + tail == slug + ['?'] + ("auth_type=" + name);
      SplitFirstOfConcat(slug, '?', "auth_type=" + name);
      StripPrefixOfConcat("auth_type=", name);
    } else {
      assert slug + tail == slug;
      SplitFirstAbsent(slug, '?');
    }
  }

  const ConfigSlugPath: string := "/api/v2/f-sdk/slug/"

  /** `${baseUrl}/api/v2/f-sdk/slug/${slug}/config${configId ? `/${configId}` : ""}`. */
  function GetConfigUrl(baseUrl: string, slug: string, configId: Option<string>): (url: string)
    ensures StartsWith(url, baseUrl + ConfigSlugPath + slug + "/config")
  {
    var tail := if StringTruthy(configId) then "/" + configId.value else "";
    StripPrefixOfConcat(baseUrl + ConfigSlugPath + slug + "/config", tail);
    baseUrl + ConfigSlugPath + slug + "/config" + tail
  }

  /** Reads the slug and the optional config ID back from a `getConfig` URL. */
  function ParseConfigUrl(baseUrl: string, url: string): Option<(string, Option<string>)> {
    match StripPrefix(url, baseUrl + ConfigSlugPath)
    case None => None
    case Some(rest) =>
      var (slug, afterSlash) := SplitFirst(rest, '/');
      if afterSlash.None? then None
      else match StripPrefix(afterSlash.value, "config")
        case None => None
        case Some(tail) =>
          if tail == "" then Some((slug, None))
          else match StripPrefix(tail, "/")
            case None => None
            case Some(id) => Some((slug, Some(id)))
  }

  /** The `getConfig` URL reads back to its slug, and to its config ID exactly when that ID is non-empty. */
  lemma GetConfigUrlRoundTrip(baseUrl: string, slug: string, configId: Option<string>)
    requires '/' !in slug
    ensures ParseConfigUrl(baseUrl, GetConfigUrl(baseUrl, slug, configId))
         == Some((slug, if StringTruthy(configId) then configId else None))
  {
    var tail := if StringTruthy(configId) then "/" + configId.value else "";
    var afterSlash := "config" + tail;
    assert GetConfigUrl(baseUrl, slug, configId) == baseUrl + ConfigSlugPath + (slug + ['/'] + afterSlash);
    StripPrefixOfConcat(baseUrl + ConfigSlugPath, slug + ['/'] + afterSlash);
    SplitFirstOfConcat(slug, '/', afterSlash);
    StripPrefixOfConcat("config", tail);
    if StringTruthy(configId) {
      StripPrefixOfConcat("/", configId.value);
    }
  }

  const ExecutionPath: string := "/api/v2/public/execution"

  /**
   * `getExecutions({ page = 1, limit = 10 } = {})`: destructuring defaults apply
   * only to absent values, so an explicit 0 is sent as 0 (unlike `getWorkflows`).
   */
  function GetExecutionsUrl(baseUrl: string, page: Option<int>, limit: Option<int>): (url: string)
    ensures StartsWith(url, baseUrl + ExecutionPath + "?")
  {
    var query := Requests.PageLimitQuery(page.GetOr(1), limit.GetOr(10));
    StripPrefixOfConcat(baseUrl + ExecutionPath + "?", query);
    baseUrl + ExecutionPath + "?" + query
  }

  function ParseExecutionsUrl(baseUrl: string, url: string): Option<(int, int)> {
    match StripPrefix(url, baseUrl + ExecutionPath + "?")
    case None => None
    case Some(query) =>
      match Requests.ParsePageLimit(query)
      case Some((page, limit, None)) => Some((page, limit))
      case _ => None
  }

  lemma GetExecutionsUrlRoundTrip(baseUrl: string, page: Option<int>, limit: Option<int>)
    ensures ParseExecutionsUrl(baseUrl, GetExecutionsUrl(baseUrl, page, limit))
         == Some((page.GetOr(1), limit.GetOr(10)))
  {
    var query := Requests.PageLimitQuery(page.GetOr(1), limit.GetOr(10));
    StripPrefixOfConcat(baseUrl + ExecutionPath + "?", query);
    Requests.ParsePageLimitRoundTrip(page.GetOr(1), limit.GetOr(10), None);
    assert query + "" == query;
  }

  /** `data?.workflow ?? data`: the created workflow, whether or not the server wrapped it. */
  function UnwrapWorkflow(data: JsValue): (r: JsValue)
    ensures r == data || (data.Obj? && "workflow" in data.fields && r == data.fields["workflow"])
    ensures IsNullish(r) ==> r == data
  {
    Coalesce(OptionalMember(data, "workflow"), data)
  }

  /** A wrapped workflow is unwrapped; any other body is returned as it came. */
  lemma UnwrapWorkflowCases(fields: map<string, JsValue>, w: JsValue, bare: JsValue)
    requires !IsNullish(w)
    requires !bare.Obj? || "workflow" !in bare.fields || IsNullish(bare.fields["workflow"])
    ensures UnwrapWorkflow(Obj(fields["workflow" := w])) == w
    ensures UnwrapWorkflow(bare) == bare
  {
  }

  /** The client object: the base URL and token every request uses. */
  class Cobalt {
    var baseUrl: string
    var token: string

    constructor (options: Http.CobaltOptions)
      ensures baseUrl == Http.NormalizeBaseUrl(options.baseUrl)
      ensures token == Http.TokenOrEmpty(options.token)
      ensures Http.HasScheme(baseUrl)
    {
      baseUrl := Http.NormalizeBaseUrl(options.baseUrl);
      token := Http.TokenOrEmpty(options.token);
    }
  }
}
