/**
 * The TypeScript snapshot of the client (cobalt.ts): an application record
 * carries a `connected` flag and a `reauth_required` flag, and `connect` first
 * fetches the application, then runs the OAuth2 session or posts the key-based
 * save, settling its own promise on the first `resolve` or `reject` it reaches.
 */
module CobaltTs {
  import opened Wrappers
  import opened JsValues
  import Http
  import opened PollSession

  datatype AuthType = OAuth2 | KeyBased

  /** The part of an `Application` the poll and `connect` read. */
  datatype Application = Application(authType: AuthType, connected: Option<bool>, reauthRequired: Option<bool>)

  /** `app && app.connected === true && !app.reauth_required`. */
  predicate IsConnected(app: Option<Application>) {
    app.Some? && app.value.connected == Some(true) && app.value.reauthRequired != Some(true)
  }

  /**
   * Connected only on an explicit `connected: true`; an absent or false flag,
   * or a required re-authorization, means not connected. The auth type plays no part.
   */
  lemma IsConnectedCases(authType: AuthType, connected: Option<bool>, reauthRequired: Option<bool>)
    ensures connected != Some(true) ==> !IsConnected(Some(Application(authType, connected, reauthRequired)))
    ensures reauthRequired == Some(true) ==> !IsConnected(Some(Application(authType, connected, reauthRequired)))
    ensures connected == Some(true) && reauthRequired != Some(true) ==>
      IsConnected(Some(Application(authType, connected, reauthRequired)))
    ensures !IsConnected(None)
  {
  }

  /** One tick's `getApp(slug)`: its `.then` branch on the connected signal, or its `.catch`. */
  function Reduce(fetched: Result<Option<Application>, Error>): (q: Query)
    ensures q == Connected <==> fetched.Success? && IsConnected(fetched.value)
    ensures q == NotConnected <==> fetched.Success? && !IsConnected(fetched.value)
    ensures fetched.Failure? ==> q == QueryFailed(fetched.error)
  {
    match fetched
    case Failure(e) => QueryFailed(e)
    case Success(app) => if IsConnected(app) then Connected else NotConnected
  }

  /**
   * On a polling session, a tick resolves `true` exactly when the fetched record
   * says `connected: true` without `reauth_required`, and rejects exactly when
   * the query failed.
   */
  lemma TickSettlesOnConnectedFlag(s: State, fetched: Result<Option<Application>, Error>)
    requires Inv(s) && s.outcome.Pending?
    ensures var r := Step(s, Tick(Reduce(fetched)));
      && (r.outcome == Resolved(true) <==>
            fetched.Success? && fetched.value.Some?
            && fetched.value.value.connected == Some(true) && fetched.value.value.reauthRequired != Some(true))
      && (r.outcome.Rejected? <==> fetched.Failure?)
      && (fetched.Failure? ==> r.outcome == Rejected(fetched.error) && r.closeCalls == s.closeCalls)
      && (Reduce(fetched) == NotConnected && s.popupPresent && s.popupClosed ==> r.outcome == Resolved(false))
      && (Reduce(fetched) == NotConnected && !(s.popupPresent && s.popupClosed) ==> r.outcome.Pending? && r.timerActive)
      && (Reduce(fetched) == Connected ==> r.closeCalls == s.closeCalls + (if s.popupPresent then 1 else 0))
      && (r.outcome == Resolved(false) ==> s.popupPresent && s.popupClosed)
  {
  }

  /** Which request `connect` made after fetching the application. */
  datatype Route = NoRequest | ViaOAuth | ViaKeyBasedSave

  /** The value `await this.oauth(…)` hands to `resolve`, or the error it throws. */
  function FromOAuth(oauth: Outcome<bool>): (r: Outcome<JsValue>)
    ensures oauth.Pending? <==> r.Pending?
    ensures oauth.Resolved? ==> r == Resolved(Bool(oauth.value))
    ensures oauth.Rejected? ==> r == Rejected(oauth.error)
  {
    match oauth
    case Pending => Pending
    case Resolved(b) => Resolved(Bool(b))
    case Rejected(e) => Rejected(e)
  }

  /**
   * `connect(slug, payload)`, given what each awaited call comes to: the
   * application fetch, the OAuth2 session's outcome (Pending when it never
   * settles) and the key-based save's response. Each `resolve`/`reject` it
   * reaches is applied in order; only the first takes effect.
   */
  method Connect(app: Result<Option<Application>, Error>, oauth: Outcome<bool>, save: Result<Http.Response, Error>)
    returns (route: Route, promise: Outcome<JsValue>)
    ensures app.Failure? ==> route == NoRequest && promise == Rejected(app.error)
    ensures route == ViaOAuth <==> app.Success? && app.value.Some? && app.value.value.authType == OAuth2
    ensures route == ViaKeyBasedSave <==> app.Success? && (app.value.None? || app.value.value.authType != OAuth2)
    ensures route == ViaOAuth ==> promise == FromOAuth(oauth)
    ensures route == ViaKeyBasedSave && save.Failure? ==> promise == Rejected(save.error)
    ensures route == ViaKeyBasedSave && save.Success? && Http.IsErrorStatus(save.value.status) ==>
      promise == Rejected(Thrown(save.value.body))
    ensures route == ViaKeyBasedSave && save.Success? && !Http.IsErrorStatus(save.value.status) ==>
      promise == (match Member(save.value.body, "success")
                  case Success(v) => Resolved(v)
                  case Failure(e) => Rejected(e))
    ensures promise.Pending? ==> route == ViaOAuth && oauth.Pending?
  {
    promise := Pending;
    match app {
      case Failure(e) =>
        route := NoRequest;
        promise := Settle(promise, Rejected(e));
      case Success(a) =>
        if a.Some? && a.value.authType == OAuth2 {
          route := ViaOAuth;
          promise := Settle(promise, FromOAuth(oauth));
        } else {
          route := ViaKeyBasedSave;
          match save {
            case Failure(e) =>
              promise := Settle(promise, Rejected(e));
            case Success(res) =>
              var bodyConsumed := false;
              if Http.IsErrorStatus(res.status) {
                // `reject(error)` does not end the function: execution goes on below
                promise := Settle(promise, Rejected(Thrown(res.body)));
                bodyConsumed := true;
              }
              if bodyConsumed {
                // a second `res.json()` throws, and the catch's `reject` comes too late
                promise := Settle(promise, Rejected(TypeError));
              } else {
                match Member(res.body, "success") {
                  case Success(v) => promise := Settle(promise, Resolved(v));
                  case Failure(e) => promise := Settle(promise, Rejected(e));
                }
              }
          }
        }
    }
  }

  /** The client object: the base URL and token every request uses. */
  class Cobalt {
    var baseUrl: string
    var token: string

    constructor (options: Http.CobaltOptions)
      ensures baseUrl == Http.NormalizeBaseUrl(options.baseUrl)
      ensures token == Http.TokenOrEmpty(options.token)
      ensures Http.HasScheme(baseUrl)
    {
      baseUrl := Http.NormalizeBaseUrl(options.baseUrl);
      token := Http.TokenOrEmpty(options.token);
    }
  }
}
