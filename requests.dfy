/**
 * Request shaping that both snapshots of the client write the same way: the
 * optional `/slug` segment of `getApp`, the pagination query of `getWorkflows`
 * and the `labels` default of `config`. Each URL builder comes with the reader
 * that recovers its arguments from the URL.
 */
module Requests {
  import opened Wrappers
  import opened Strings
  import opened JsValues

  const ApplicationPath: string := "/api/v2/f-sdk/application"
  const WorkflowPath: string := "/api/v2/public/workflow"

  /** `${baseUrl}/api/v2/f-sdk/application${slug ? `/${slug}` : ""}`. */
  function GetAppUrl(baseUrl: string, slug: Option<string>): (url: string)
    ensures StartsWith(url, baseUrl + ApplicationPath)
  {
    StripPrefixOfConcat(baseUrl + ApplicationPath, if StringTruthy(slug) then "/" + slug.value else "");
    baseUrl + ApplicationPath + (if StringTruthy(slug) then "/" + slug.value else "")
  }

  /** Reads back which application a `getApp` URL asks for: `Some(None)` for the list of all. */
  function AppSlugOf(baseUrl: string, url: string): Option<Option<string>> {
    match StripPrefix(url, baseUrl + ApplicationPath)
    case None => None
    case Some(rest) =>
      if rest == "" then Some(None)
      else match StripPrefix(rest, "/")
        case None => None
        case Some(slug) => Some(Some(slug))
  }

  /** A non-empty slug selects one application; an absent or empty one asks for them all. */
  lemma GetAppUrlRoundTrip(baseUrl: string, slug: Option<string>)
    ensures AppSlugOf(baseUrl, GetAppUrl(baseUrl, slug))
         == Some(if StringTruthy(slug) then slug else None)
  {
    var tail := if StringTruthy(slug) then "/" + slug.value else "";
    StripPrefixOfConcat(baseUrl + ApplicationPath, tail);
    if StringTruthy(slug) {
      StripPrefixOfConcat("/", slug.value);
    }
  }

  /** `page=${page}&limit=${limit}`. */
  function PageLimitQuery(page: int, limit: int): string {
    "page=" + IntToString(page) + "&limit=" + IntToString(limit)
  }

  /** Reads `page=P&limit=L` followed, optionally, by `&` and a tail. */
  function ParsePageLimit(query: string): Option<(int, int, Option<string>)> {
    match StripPrefix(query, "page=")
    case None => None
    case Some(afterPage) =>
      var (pageText, afterAmp) := SplitFirst(afterPage, '&');
      if afterAmp.None? then None
      else match StripPrefix(afterAmp.value, "limit=")
        case None => None
        case Some(afterLimit) =>
          var (limitText, tail) := SplitFirst(afterLimit, '&');
          match (ParseInt(pageText), ParseInt(limitText))
          case (Some(page), Some(limit)) => Some((page, limit, tail))
          case _ => None
  }

  lemma ParsePageLimitRoundTrip(page: int, limit: int, tail: Option<string>)
    ensures ParsePageLimit(PageLimitQuery(page, limit) + (if tail.Some? then "&" + tail.value else ""))
         == Some((page, limit, tail))
  {
    var p, l := IntToString(page), IntToString(limit);
    var t := if tail.Some? then "&" + tail.value else "";
    var query := PageLimitQuery(page, limit) + t;
    var afterLimit := l + t;
    var afterPage := p + ['&'] + ("limit=" + afterLimit);
    assert query == "page=" + afterPage;
    StripPrefixOfConcat("page=", afterPage);
    IntToStringHasNoSeparator(page, '&');
    IntToStringHasNoSeparator(limit, '&');
    SplitFirstOfConcat(p, '&', "limit=" + afterLimit);
    StripPrefixOfConcat("limit=", afterLimit);
    if tail.Some? {
      assert afterLimit == l + ['&'] + tail.value;
      SplitFirstOfConcat(l, '&', tail.value);
    } else {
      assert afterLimit == l;
      SplitFirstAbsent(l, '&');
    }
    ParseIntOfIntToString(page);
    ParseIntOfIntToString(limit);
  }

  datatype WorkflowsParams = WorkflowsParams(slug: Option<string>, page: Option<int>, limit: Option<int>)

  /** The query `getWorkflows` actually sends. */
  datatype WorkflowsQuery = WorkflowsQuery(page: int, limit: int, slug: Option<string>)

  /** `params?.page || 1`, `params?.limit || 100`, and the slug only when non-empty. */
  function EffectiveWorkflowsQuery(params: Option<WorkflowsParams>): WorkflowsQuery {
    match params
    case None => WorkflowsQuery(1, 100, None)
    case Some(p) =>
      WorkflowsQuery(NumberOr(p.page, 1), NumberOr(p.limit, 100),
                     if StringTruthy(p.slug) then p.slug else None)
  }

  /** Zero and absent paging values fall back to the defaults; an empty slug is dropped. */
  lemma WorkflowsQueryDefaults(params: Option<WorkflowsParams>)
    ensures var q := EffectiveWorkflowsQuery(params);
      && q.page != 0 && q.limit != 0
      && (params.None? ==> q == WorkflowsQuery(1, 100, None))
      && (params.Some? ==>
            && (params.value.page.Some? && params.value.page.value != 0 ==> q.page == params.value.page.value)
            && (params.value.page.None? || params.value.page.value == 0 ==> q.page == 1)
            && (params.value.limit.Some? && params.value.limit.value != 0 ==> q.limit == params.value.limit.value)
            && (params.value.limit.None? || params.value.limit.value == 0 ==> q.limit == 100))
      && (q.slug.Some? <==> params.Some? && StringTruthy(params.value.slug))
      && (q.slug.Some? ==> q.slug == params.value.slug && q.slug.value != "")
  {
  }

  function GetWorkflowsUrl(baseUrl: string, params: Option<WorkflowsParams>): (url: string)
    ensures StartsWith(url, baseUrl + WorkflowPath + "?page=")
  {
    var q := EffectiveWorkflowsQuery(params);
    var tail := if q.slug.Some? then "&slug=" + q.slug.value else "";
    assert PageLimitQuery(q.page, q.limit) + tail == "page=" + (IntToString(q.page) + "&limit=" + IntToString(q.limit) + tail);
    StripPrefixOfConcat(baseUrl + WorkflowPath + "?page=", IntToString(q.page) + "&limit=" + IntToString(q.limit) + tail);
    baseUrl + WorkflowPath + "?" + PageLimitQuery(q.page, q.limit) + tail
  }

  /** Reads page, limit and slug back from a `getWorkflows` URL. */
  function ParseWorkflowsUrl(baseUrl: string, url: string): Option<WorkflowsQuery> {
    match StripPrefix(url, baseUrl + WorkflowPath + "?")
    case None => None
    case Some(query) =>
      match ParsePageLimit(query)
      case None => None
      case Some((page, limit, tail)) =>
        if tail.None? then Some(WorkflowsQuery(page, limit, None))
        else match StripPrefix(tail.value, "slug=")
          case None => None
          case Some(slug) => if slug == "" then None else Some(WorkflowsQuery(page, limit, Some(slug)))
  }

  /** The URL carries exactly the effective page, limit and slug. */
  lemma GetWorkflowsUrlRoundTrip(baseUrl: string, params: Option<WorkflowsParams>)
    ensures ParseWorkflowsUrl(baseUrl, GetWorkflowsUrl(baseUrl, params)) == Some(EffectiveWorkflowsQuery(params))
  {
    var q := EffectiveWorkflowsQuery(params);
    var tail := if q.slug.Some? then Some("slug=" + q.slug.value) else None;
    var query := PageLimitQuery(q.page, q.limit) + (if tail.Some? then "&" + tail.value else "");
    assert GetWorkflowsUrl(baseUrl, params) == baseUrl + WorkflowPath + "?" + query;
    StripPrefixOfConcat(baseUrl + WorkflowPath + "?", query);
    ParsePageLimitRoundTrip(q.page, q.limit, tail);
    if q.slug.Some? {
      StripPrefixOfConcat("slug=", q.slug.value);
    }
  }

  datatype LabelValue = Text(text: string) | Number(number: int) | Flag(flag: bool)
  datatype Label = Label(name: string, value: LabelValue)

  /** The `config` payload: `labels` may be left out by the caller. */
  datatype ConfigPayload = ConfigPayload(slug: string, configId: Option<string>, labels: Option<seq<Label>>)

  /** `{ ...payload, labels: payload.labels || [] }`: the body always carries `labels`. */
  function ConfigBody(payload: ConfigPayload): (body: ConfigPayload)
    ensures body.labels.Some?
    ensures body.slug == payload.slug && body.configId == payload.configId
    ensures payload.labels.Some? ==> body.labels == payload.labels
    ensures payload.labels.None? ==> body.labels == Some([])
  {
    payload.(labels := Some(payload.labels.GetOr([])))
  }

  /** Shaping a body that is already shaped changes nothing. */
  lemma ConfigBodyIdempotent(payload: ConfigPayload)
    ensures ConfigBody(ConfigBody(payload)) == ConfigBody(payload)
  {
  }
}
