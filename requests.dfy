/**
 * Package `requests` (requests/request.go): a Worker owning one client
 * whose timeout and transport every call may change for good. Send checks
 * the method, merges non-nil Params (even an empty map), picks the body
 * (FormData before JSON), builds the request, writes Content-Type and then
 * the caller's headers, and finally applies Timeout and Proxy to the shared
 * client.
 */
module Requests {
  import opened Http
  import opened UrlValues
  import Make

  /** Options; `None` fields are nil, "" and 0 are unset. */
  datatype Options = Options(
    params: Option<StrMap>,
    headers: StrMap,
    json: Option<seq<byte>>,
    formData: Option<StrMap>,
    timeout: int,
    proxy: string)

  /** MakeUrl: `&` when the URL already has a `?`, otherwise `?`, then the encoding. */
  function MakeUrl(lib: Library, urlStr: string, params: StrMap): (r: string)
    ensures |urlStr| < |r| && r[..|urlStr|] == urlStr
    ensures r[|urlStr|] == if '?' in urlStr then '&' else '?'
    ensures r[|urlStr| + 1..] == Encode(lib, OfMap(params))
  {
    urlStr + (if '?' in urlStr then "&" else "?") + Encode(lib, OfMap(params))
  }

  /** A URL that already carries a query gets `&` and the new pair. */
  lemma MakeUrlJoinsWithAmpersand(lib: Library)
    ensures MakeUrl(lib, "https://x/y?z=1", map["a" := "b"])
         == "https://x/y?z=1&" + lib.queryEscape("a") + "=" + lib.queryEscape("b")
  {
    assert '?' in "https://x/y?z=1" by { assert "https://x/y?z=1"[11] == '?'; }
    EncodeSingle(lib, "a", "b");
  }

  /** The body and its Content-Type: FormData wins, then JSON, else none. */
  datatype BodyMode = BodyMode(body: Body, contentType: string)

  function ChooseBody(lib: Library, opts: Option<Options>): BodyMode {
    if opts.Some? && opts.value.formData.Some? then
      BodyMode(Multipart(lib.boundary, opts.value.formData.value), MultipartType(lib))
    else if opts.Some? && opts.value.json.Some? then
      BodyMode(Bytes(opts.value.json.value), JsonType)
    else BodyMode(NoBody, "")
  }

  /** The outcome of one Send and the client it leaves behind. */
  datatype Step = Step(outcome: Outcome, client: Client)

  /** Send, up to `c.client.Do(req)`, as a function of the client before the call. */
  function SendStep(lib: Library, client: Client, requested: string, urlStr: string, opts: Option<Options>): Step {
    var verb := ToUpper(lib, requested);
    if !Supported(verb) then Step(Failed(UnsupportedMethod(verb)), client)
    else
      var u := if opts.Some? && opts.value.params.Some? then MakeUrl(lib, urlStr, opts.value.params.value) else urlStr;
      var mode := ChooseBody(lib, opts);
      if !lib.newRequestOk(verb, u) then Step(Failed(RequestFailed), client)
      else
        var typed: StrMap := if mode.contentType != "" then map[ContentType := mode.contentType] else map[];
        if opts.None? then Step(Ready(client, HttpRequest(verb, u, mode.body, typed)), client)
        else
          var o := opts.value;
          var req := HttpRequest(verb, u, mode.body, typed + o.headers);
          var timed := if o.timeout > 0 then client.(timeout := o.timeout) else client;
          if o.proxy == "" then Step(Ready(timed, req), timed)
          else if !lib.parses(o.proxy) then Step(Failed(ProxyInvalid(o.proxy)), timed)
          else
            var routed := timed.(proxy := Some(o.proxy));
            Step(Ready(routed, req), routed)
  }

  class Worker {
    var client: Client

    /** NewWorker: `&http.Client{}`, zero timeout and no transport. */
    constructor ()
      ensures client == DefaultClient
    {
      client := DefaultClient;
    }

    /** SetDefaultTimeout: overwrites the timeout, whatever its sign. */
    method SetDefaultTimeout(timeout: int)
      modifies this
      ensures client == old(client).(timeout := timeout)
    {
      client := client.(timeout := timeout);
    }

    /** SetDefaultProxy: panics on an unparsable URL, else replaces the transport. */
    method SetDefaultProxy(lib: Library, proxy: string) returns (panicked: bool)
      modifies this
      ensures panicked <==> !lib.parses(proxy)
      ensures panicked ==> client == old(client)
      ensures !panicked ==> client == old(client).(proxy := Some(proxy))
    {
      if !lib.parses(proxy) {
        return true;
      }
      client := client.(proxy := Some(proxy));
      panicked := false;
    }

    /** Send: the same steps as SendStep, with the header loop and the client writes in place. */
    method Send(lib: Library, requested: string, urlStr: string, opts: Option<Options>) returns (r: Outcome)
      modifies this
      ensures Step(r, client) == SendStep(lib, old(client), requested, urlStr, opts)
    {
      var verb := ToUpper(lib, requested);
      if verb != MethodGet && verb != MethodPost {
        return Failed(UnsupportedMethod(verb));
      }
      var u := urlStr;
      if opts.Some? && opts.value.params.Some? {
        u := MakeUrl(lib, u, opts.value.params.value);
      }
      var mode := ChooseBody(lib, opts);
      if !lib.newRequestOk(verb, u) {
        return Failed(RequestFailed);
      }
      var header: StrMap := map[];
      if mode.contentType != "" {
        header := header[ContentType := mode.contentType];
      }
      if opts.Some? {
        var o := opts.value;
        header := Make.SetHeaders(header, o.headers);
        if o.timeout > 0 {
          client := client.(timeout := o.timeout);
        }
        if o.proxy != "" {
          if !lib.parses(o.proxy) {
            return Failed(ProxyInvalid(o.proxy));
          }
          client := client.(proxy := Some(o.proxy));
        }
      }
      r := Ready(client, HttpRequest(verb, u, mode.body, header));
    }

    /** Get: Send with "GET". */
    method Get(lib: Library, urlStr: string, opts: Option<Options>) returns (r: Outcome)
      modifies this
      ensures Step(r, client) == SendStep(lib, old(client), MethodGet, urlStr, opts)
    {
      r := Send(lib, MethodGet, urlStr, opts);
    }

    /** Post: Send with "POST". */
    method Post(lib: Library, urlStr: string, opts: Option<Options>) returns (r: Outcome)
      modifies this
      ensures Step(r, client) == SendStep(lib, old(client), MethodPost, urlStr, opts)
    {
      r := Send(lib, MethodPost, urlStr, opts);
    }
  }

  /**
   * An unsupported method is refused before the URL, the body or the client
   * is looked at; "get" counts as GET.
   */
  lemma SendRejectsFirst(lib: Library, client: Client, requested: string, urlStr: string, opts: Option<Options>)
    ensures var s := SendStep(lib, client, requested, urlStr, opts);
      (s.outcome.Failed? && s.outcome.error.UnsupportedMethod?) <==> !Supported(ToUpper(lib, requested))
    ensures !Supported(ToUpper(lib, requested)) ==>
      SendStep(lib, client, requested, urlStr, opts) == Step(Failed(UnsupportedMethod(ToUpper(lib, requested))), client)
    ensures SendStep(lib, client, "get", urlStr, opts) == SendStep(lib, client, MethodGet, urlStr, opts)
  {
    UpperGet(lib);
  }

  /** Params, even an empty map, rewrite the URL on GET and POST alike; nil leaves it. */
  lemma SendUrl(lib: Library, client: Client, requested: string, urlStr: string, opts: Option<Options>)
    ensures var s := SendStep(lib, client, requested, urlStr, opts);
      s.outcome.Ready? ==>
        s.outcome.request.url == if opts.Some? && opts.value.params.Some? then MakeUrl(lib, urlStr, opts.value.params.value) else urlStr
  {
  }

  /**
   * Body precedence: FormData over JSON with a multipart Content-Type, JSON
   * alone with application/json, neither giving no body and no Content-Type
   * from the helper, and a POST is not refused for it.
   */
  lemma SendBody(lib: Library, client: Client, requested: string, urlStr: string, opts: Option<Options>)
    ensures var s := SendStep(lib, client, requested, urlStr, opts);
      s.outcome.Ready? ==>
        && (opts.Some? && opts.value.formData.Some? ==>
              s.outcome.request.body == Multipart(lib.boundary, opts.value.formData.value))
        && (opts.Some? && opts.value.formData.None? && opts.value.json.Some? ==>
              s.outcome.request.body == Bytes(opts.value.json.value))
        && (opts.None? || (opts.value.formData.None? && opts.value.json.None?) ==>
              s.outcome.request.body == NoBody)
    ensures var s := SendStep(lib, client, requested, urlStr, opts);
      var caller := if opts.Some? then opts.value.headers else map[];
      s.outcome.Ready? && ContentType !in caller ==>
        && (opts.Some? && opts.value.formData.Some? ==> s.outcome.request.header[ContentType] == MultipartType(lib))
        && (opts.Some? && opts.value.formData.None? && opts.value.json.Some? ==> s.outcome.request.header[ContentType] == JsonType)
        && (opts.None? || (opts.value.formData.None? && opts.value.json.None?) ==> ContentType !in s.outcome.request.header)
  {
  }

  /**
   * A POST without a body is never refused: this copy has no invalid-POST
   * error at all, and a POST with neither FormData nor JSON is sent with no
   * body and only the caller's headers, on any client, when the request can
   * be built and no proxy is asked for.
   */
  lemma SendBodilessPost(lib: Library, client: Client, urlStr: string, opts: Option<Options>)
    ensures SendStep(lib, client, MethodPost, urlStr, opts).outcome != Failed(InvalidPost)
    ensures var u := if opts.Some? && opts.value.params.Some? then MakeUrl(lib, urlStr, opts.value.params.value) else urlStr;
      (opts.None? || (opts.value.formData.None? && opts.value.json.None? && opts.value.proxy == ""))
      && lib.newRequestOk(MethodPost, u) ==>
        var timed := if opts.Some? && opts.value.timeout > 0 then client.(timeout := opts.value.timeout) else client;
        var caller := if opts.Some? then opts.value.headers else map[];
        SendStep(lib, client, MethodPost, urlStr, opts) == Step(Ready(timed, HttpRequest(MethodPost, u, NoBody, caller)), timed)
  {
    UpperPost(lib);
    assert map[] + (if opts.Some? then opts.value.headers else map[]) == (if opts.Some? then opts.value.headers else map[]);
  }

  /** The caller's headers are written last: they win over the computed Content-Type. */
  lemma SendHeadersWin(lib: Library, client: Client, requested: string, urlStr: string, o: Options)
    ensures var s := SendStep(lib, client, requested, urlStr, Some(o));
      s.outcome.Ready? ==> forall k :: k in o.headers ==> k in s.outcome.request.header && s.outcome.request.header[k] == o.headers[k]
  {
  }

  /**
   * The client: untouched until the request is built; then a positive
   * Timeout is written for good (even when the proxy is then rejected),
   * and a parsable Proxy replaces the transport for good.
   */
  lemma SendClientEffects(lib: Library, client: Client, requested: string, urlStr: string, o: Options)
    ensures var s := SendStep(lib, client, requested, urlStr, Some(o));
      var timed := if o.timeout > 0 then client.(timeout := o.timeout) else client;
      && (s.outcome.Failed? && (s.outcome.error.UnsupportedMethod? || s.outcome.error.RequestFailed?) ==> s.client == client)
      && (s.outcome.Failed? && s.outcome.error.ProxyInvalid? ==> s.client == timed && o.proxy != "" && !lib.parses(o.proxy))
      && (s.outcome.Ready? ==> s.client == (if o.proxy != "" then timed.(proxy := Some(o.proxy)) else timed))
      && (s.outcome.Ready? ==> s.outcome.client == s.client)
      && !s.outcome.Panicked?
  {
  }

  /** An unparsable proxy is an error only after a timeout has been applied. */
  lemma SendProxyErrorAfterTimeout(lib: Library, client: Client, requested: string, urlStr: string, o: Options)
    requires Supported(ToUpper(lib, requested))
    requires lib.newRequestOk(ToUpper(lib, requested), if o.params.Some? then MakeUrl(lib, urlStr, o.params.value) else urlStr)
    requires o.timeout > 0 && o.proxy != "" && !lib.parses(o.proxy)
    ensures SendStep(lib, client, requested, urlStr, Some(o)) == Step(Failed(ProxyInvalid(o.proxy)), client.(timeout := o.timeout))
  {
  }

  /** Settings persist: a later call without Timeout or Proxy sends with the earlier ones. */
  lemma SendSettingsPersist(lib: Library, client: Client, requested: string, urlStr: string, o: Options, later: Options, urlStr': string)
    requires SendStep(lib, client, requested, urlStr, Some(o)).outcome.Ready?
    requires later.timeout <= 0 && later.proxy == ""
    ensures var first := SendStep(lib, client, requested, urlStr, Some(o));
      var second := SendStep(lib, first.client, requested, urlStr', Some(later));
      second.outcome.Ready? ==> second.outcome.client == first.client
  {
  }
}
