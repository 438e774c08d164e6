/**
 * The OAuth poll session of `Cobalt.oauth`: fetch the authorization URL, open a
 * popup on it, then every 3000 ms query the application and either settle the
 * returned promise or keep polling. Both snapshots of the client run this same
 * machine; they differ only in how a fetched application reduces to the
 * "connected" signal (see CobaltJs.Reduce and CobaltTs.Reduce).
 *
 * The timer, the popup and the promise are state: the promise is an outcome
 * that settles once, the popup an optional handle with a `closed` flag and a
 * count of `close()` calls, and each firing of the interval is one event.
 */
module PollSession {
  import opened Wrappers
  import opened JsValues
  import Http

  /** `setInterval(…, 3e3)`. */
  const PollPeriodMs: nat := 3000

  /** A promise: pending until the first `resolve` or `reject`, fixed from then on. */
  datatype Outcome<+T> = Pending | Resolved(value: T) | Rejected(error: Error)

  /** `resolve`/`reject` on a promise: only the first settlement takes effect. */
  function Settle<T>(current: Outcome<T>, attempt: Outcome<T>): (r: Outcome<T>)
    ensures current.Pending? ==> r == attempt
    ensures !current.Pending? ==> r == current
  {
    if current.Pending? then attempt else current
  }

  /** What one tick's application query came to, once reduced to the connected signal. */
  datatype Query = Connected | NotConnected | QueryFailed(error: Error)

  datatype Event =
    | Tick(query: Query)    // the interval fired and its query finished
    | PopupClosedByUser     // the user closed the popup (the browser sets `closed`)

  /** Everything a session owns. */
  datatype State = State(
    outcome: Outcome<bool>,
    timerActive: bool,
    windowOpened: bool,     // whether `window.open` ran
    popupPresent: bool,     // whether `window.open` returned a handle
    popupClosed: bool,      // the handle's `closed` flag
    closeCalls: nat,        // `close()` calls made by the session
    queries: nat            // status queries made
  )

  /** `getOAuthUrl`: the status test, then `data.auth_url` (see Http.ReadField). */
  function AuthUrl(fetched: Result<Http.Response, Error>): Result<JsValue, Error> {
    Http.ReadField(fetched, "auth_url")
  }

  /**
   * The session after the URL fetch: a failure rejects before anything is opened
   * or scheduled; otherwise the popup is opened (`popupOpens` says whether the
   * environment returned a handle) and the timer starts.
   */
  function Start(authUrl: Result<JsValue, Error>, popupOpens: bool): (s: State)
    ensures Inv(s)
    ensures s.closeCalls == 0 && s.queries == 0 && !s.popupClosed
    ensures authUrl.Failure? ==>
      s.outcome == Rejected(authUrl.error) && !s.timerActive && !s.windowOpened && !s.popupPresent
    ensures authUrl.Success? ==>
      s.outcome.Pending? && s.timerActive && s.windowOpened && s.popupPresent == popupOpens
  {
    match authUrl
    case Failure(e) => State(Rejected(e), false, false, false, false, 0, 0)
    case Success(_) => State(Pending, true, true, popupOpens, false, 0, 0)
  }

  /** What holds of a session at every point of its life. */
  ghost predicate Inv(s: State) {
    && (s.timerActive <==> s.outcome.Pending?)
    && (s.timerActive ==> s.windowOpened)
    && (s.popupPresent ==> s.windowOpened)
    && (!s.popupPresent ==> !s.popupClosed && s.closeCalls == 0)
    && (!s.windowOpened ==> s.queries == 0)
    && s.closeCalls <= 1
    && (s.closeCalls == 1 ==> s.outcome == Resolved(true))
    && (s.outcome == Resolved(true) && s.popupPresent ==> s.closeCalls == 1)
    && (s.outcome == Resolved(false) ==> s.popupPresent && s.popupClosed && s.closeCalls == 0)
  }

  /** The interval callback, and the user closing the popup. */
  function Step(s: State, e: Event): (r: State)
    ensures Inv(s) ==> Inv(r)
    ensures r.popupPresent == s.popupPresent && r.windowOpened == s.windowOpened
    ensures !s.timerActive ==>
      (r.outcome == s.outcome && r.timerActive == s.timerActive && r.closeCalls == s.closeCalls && r.queries == s.queries)
    ensures Inv(s) && r.closeCalls > s.closeCalls ==> e == Tick(Connected) && r.outcome == Resolved(true)
  {
    match e
    case PopupClosedByUser => s.(popupClosed := s.popupPresent)
    case Tick(q) =>
      if !s.timerActive then s  // a cleared interval never fires again
      else
        var polled := s.(queries := s.queries + 1);
        match q
        case Connected =>
          // `connectWindow && connectWindow.close()`, `clearInterval`, `resolve(true)`
          polled.(outcome := Settle(s.outcome, Resolved(true)), timerActive := false,
                  closeCalls := if s.popupPresent then s.closeCalls + 1 else s.closeCalls,
                  popupClosed := s.popupPresent)
        case NotConnected =>
          if s.popupPresent && s.popupClosed then
            // the user closed the popup without authorizing: `clearInterval`, `resolve(false)`
            polled.(outcome := Settle(s.outcome, Resolved(false)), timerActive := false)
          else polled
        case QueryFailed(err) =>
          // `clearInterval`, `reject(e)`; the popup is left as it is
          polled.(outcome := Settle(s.outcome, Rejected(err)), timerActive := false)
  }

  /** The session after a run of events. */
  function Run(s: State, events: seq<Event>): (r: State)
    ensures Inv(s) ==> Inv(r)
    ensures r.popupPresent == s.popupPresent && r.windowOpened == s.windowOpened
    ensures Inv(s) && !s.outcome.Pending? ==>
      r.outcome == s.outcome && !r.timerActive && r.closeCalls == s.closeCalls && r.queries == s.queries
    ensures r.closeCalls >= s.closeCalls
    decreases |events|
  {
    if events == [] then s else Run(Step(s, events[0]), events[1..])
  }

  lemma {:induction false} RunAppend(s: State, first: seq<Event>, second: seq<Event>)
    ensures Run(s, first + second) == Run(Run(s, first), second)
    decreases |first|
  {
    if first != [] {
      assert (first + second)[0] == first[0];
      assert (first + second)[1..] == first[1..] + second;
      RunAppend(Step(s, first[0]), first[1..], second);
    } else {
      assert first + second == second;
    }
  }

  /**
   * The outcome settles once: whatever happens after the first settlement,
   * the outcome, the timer, the `close()` count and the number of queries stay
   * as they were.
   */
  lemma SettlesOnce(s: State, first: seq<Event>, later: seq<Event>)
    requires Inv(s) && !Run(s, first).outcome.Pending?
    ensures Run(s, first + later).outcome == Run(s, first).outcome
    ensures !Run(s, first + later).timerActive
    ensures Run(s, first + later).closeCalls == Run(s, first).closeCalls
    ensures Run(s, first + later).queries == Run(s, first).queries
  {
    RunAppend(s, first, later);
  }

  /**
   * `close()` is called exactly once by a session that resolved `true` with a
   * popup handle (even one the user had already closed), and never otherwise.
   */
  lemma CloseOnlyOnSuccess(authUrl: Result<JsValue, Error>, popupOpens: bool, events: seq<Event>)
    ensures var r := Run(Start(authUrl, popupOpens), events);
      r.closeCalls == (if r.outcome == Resolved(true) && authUrl.Success? && popupOpens then 1 else 0)
  {
  }

  /** A URL fetch answered with an error status rejects with the error body and opens nothing. */
  lemma AuthUrlErrorOpensNothing(status: int, body: JsValue, popupOpens: bool)
    requires 400 <= status < 600
    ensures var s := Start(AuthUrl(Success(Http.Response(status, body))), popupOpens);
      s.outcome == Rejected(Thrown(body)) && !s.windowOpened && !s.timerActive
  {
  }

  /** Without a popup handle the session never resolves `false`: it can only succeed, fail or keep polling. */
  lemma NoPopupNeverAbandons(authUrl: Result<JsValue, Error>, events: seq<Event>)
    ensures Run(Start(authUrl, false), events).outcome != Resolved(false)
  {
  }

  /** A failed URL fetch rejects with its error and nothing ever happens afterwards. */
  lemma UrlFailureShortCircuits(err: Error, popupOpens: bool, events: seq<Event>)
    ensures var r := Run(Start(Failure(err), popupOpens), events);
      && r.outcome == Rejected(err) && !r.timerActive && !r.windowOpened && !r.popupPresent
      && r.queries == 0 && r.closeCalls == 0
  {
  }

  function Repeat(e: Event, n: nat): (r: seq<Event>)
    ensures |r| == n && forall i :: 0 <= i < n ==> r[i] == e
  {
    if n == 0 then [] else [e] + Repeat(e, n - 1)
  }

  /** Inconclusive ticks with the popup still open (or absent) only count queries. */
  lemma {:induction false} InconclusiveTicksKeepPolling(s: State, n: nat)
    requires s.outcome.Pending? && s.timerActive && !s.popupClosed
    ensures Run(s, Repeat(Tick(NotConnected), n)) == s.(queries := s.queries + n)
    decreases n
  {
    if n > 0 {
      assert Repeat(Tick(NotConnected), n)[1..] == Repeat(Tick(NotConnected), n - 1);
      InconclusiveTicksKeepPolling(Step(s, Tick(NotConnected)), n - 1);
    }
  }

  /**
   * Success path: "not connected" on the first n ticks and "connected" on the
   * next resolves `true` at that tick, with exactly one `close()` on a popup
   * that was opened and none without one.
   */
  lemma SucceedsAtTick(url: JsValue, popupOpens: bool, n: nat)
    ensures var r := Run(Start(Success(url), popupOpens), Repeat(Tick(NotConnected), n) + [Tick(Connected)]);
      && r.outcome == Resolved(true) && !r.timerActive && r.queries == n + 1
      && r.closeCalls == (if popupOpens then 1 else 0)
  {
    var s := Start(Success(url), popupOpens);
    InconclusiveTicksKeepPolling(s, n);
    RunAppend(s, Repeat(Tick(NotConnected), n), [Tick(Connected)]);
  }

  /**
   * Abandonment path: the user closes the popup after n inconclusive ticks; the
   * next inconclusive tick resolves `false` without any `close()` call.
   */
  lemma AbandonedAtTick(url: JsValue, n: nat)
    ensures var r := Run(Start(Success(url), true),
                         Repeat(Tick(NotConnected), n) + [PopupClosedByUser, Tick(NotConnected)]);
      && r.outcome == Resolved(false) && !r.timerActive && r.queries == n + 1 && r.closeCalls == 0
  {
    var s := Start(Success(url), true);
    InconclusiveTicksKeepPolling(s, n);
    RunAppend(s, Repeat(Tick(NotConnected), n), [PopupClosedByUser, Tick(NotConnected)]);
  }

  /**
   * Query-failure path: a failing query on tick n + 1 rejects with exactly that
   * error, no query is made afterwards, and the popup is not closed.
   */
  lemma FailsAtTick(url: JsValue, popupOpens: bool, n: nat, err: Error, later: seq<Event>)
    ensures var r := Run(Start(Success(url), popupOpens),
                         Repeat(Tick(NotConnected), n) + [Tick(QueryFailed(err))] + later);
      && r.outcome == Rejected(err) && !r.timerActive && r.queries == n + 1 && r.closeCalls == 0
  {
    var s := Start(Success(url), popupOpens);
    var upTo := Repeat(Tick(NotConnected), n) + [Tick(QueryFailed(err))];
    InconclusiveTicksKeepPolling(s, n);
    RunAppend(s, Repeat(Tick(NotConnected), n), [Tick(QueryFailed(err))]);
    RunAppend(s, upTo, later);
  }

  /** One session as an object: its fields are the popup, the timer and the promise. */
  class Session {
    var outcome: Outcome<bool>
    var timerActive: bool
    var periodMs: nat
    var windowOpened: bool
    var popupPresent: bool
    var popupClosed: bool
    var closeCalls: nat
    var queries: nat

    function View(): State
      reads this
    {
      State(outcome, timerActive, windowOpened, popupPresent, popupClosed, closeCalls, queries)
    }

    ghost predicate Valid()
      reads this
    {
      Inv(View()) && (timerActive ==> periodMs == PollPeriodMs)
    }

    /** `oauth(slug, params)` up to the first tick, given the URL fetch's result. */
    constructor (authUrl: Result<JsValue, Error>, popupOpens: bool)
      ensures Valid()
      ensures View() == Start(authUrl, popupOpens)
      ensures timerActive ==> periodMs == PollPeriodMs
    {
      outcome := Start(authUrl, popupOpens).outcome;
      timerActive := authUrl.Success?;
      periodMs := if authUrl.Success? then PollPeriodMs else 0;
      windowOpened := authUrl.Success?;
      popupPresent := authUrl.Success? && popupOpens;
      popupClosed := false;
      closeCalls := 0;
      queries := 0;
    }

    /** The interval callback, once its application query has finished. */
    method Tick(q: Query)
      requires Valid()
      modifies this
      ensures Valid()
      ensures View() == Step(old(View()), Event.Tick(q))
      ensures periodMs == old(periodMs)
    {
      if !timerActive {
        return;
      }
      queries := queries + 1;
      match q {
        case Connected =>
          if popupPresent {
            closeCalls := closeCalls + 1;
            popupClosed := true;
          }
          timerActive := false;
          outcome := Settle(outcome, Resolved(true));
        case NotConnected =>
          if popupPresent && popupClosed {
            timerActive := false;
            outcome := Settle(outcome, Resolved(false));
          }
        case QueryFailed(err) =>
          timerActive := false;
          outcome := Settle(outcome, Rejected(err));
      }
    }

    /** The environment: the user closes the popup window. */
    method PopupClosedByUser()
      requires Valid()
      modifies this
      ensures Valid()
      ensures View() == Step(old(View()), Event.PopupClosedByUser)
      ensures periodMs == old(periodMs)
    {
      popupClosed := popupPresent;
    }
  }
}
