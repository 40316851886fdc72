/**
 * request.go of package greqs: a Request record whose Do merges Params
 * into its own Url field (for every method, before the client is built)
 * and then dispatches like Send, with Data before Form on a POST.
 */
module RequestDo {
  import opened Http
  import opened UrlValues
  import Make
  import Tools

  /** The fields of a Request, as a value. */
  datatype Fields = Fields(
    verb: string,
    url: string,
    params: Option<StrMap>,
    headers: StrMap,
    data: Option<Data>,
    form: Option<StrMap>,
    proxy: string,
    timeout: int)

  /** What Do returns, and the Url it leaves in the record. */
  datatype DoResult = DoResult(outcome: Outcome, url: string)

  /** Do, up to `Do(cli, req)`, as a function of the fields before the call. */
  function DoSpec(lib: Library, f: Fields): DoResult {
    var verb := ToUpper(lib, f.verb);
    if !Supported(verb) then DoResult(Failed(UnsupportedMethod(verb)), f.url)
    else
      var u := if f.params.Some? then Tools.MakeUrl(lib, f.url, f.params.value) else f.url;
      var outcome :=
        match Tools.GetClient(lib, f.proxy, f.timeout)
        case Err(e) => Panicked(e)
        case Ok(cli) =>
          if verb == MethodGet then Attach(cli, Make.MakeGetRequest(lib, u, f.headers))
          else if f.data.Some? then Attach(cli, Make.MakePostRequest(lib, u, f.headers, f.data))
          else if f.form.Some? then Attach(cli, Make.MakePostFormRequest(lib, u, f.headers, f.form.value))
          else Failed(InvalidPost);
      DoResult(outcome, u)
  }

  class Request {
    var verb: string
    var url: string
    var params: Option<StrMap>
    var headers: StrMap
    var data: Option<Data>
    var form: Option<StrMap>
    var proxy: string
    var timeout: int

    function Snapshot(): Fields
      reads this
    {
      Fields(verb, url, params, headers, data, form, proxy, timeout)
    }

    /** A `&Request{...}` literal. */
    constructor (f: Fields)
      ensures Snapshot() == f
    {
      verb, url, params, headers := f.verb, f.url, f.params, f.headers;
      data, form, proxy, timeout := f.data, f.form, f.proxy, f.timeout;
    }

    /** Do: the only field it writes is Url. */
    method Do(lib: Library) returns (r: Outcome)
      modifies this`url
      ensures DoResult(r, url) == DoSpec(lib, old(Snapshot()))
      ensures Snapshot() == old(Snapshot()).(url := url)
    {
      var m := ToUpper(lib, verb);
      if m != MethodGet && m != MethodPost {
        return Failed(UnsupportedMethod(m));
      }
      if params.Some? {
        url := Tools.MakeUrl(lib, url, params.value);
      }
      var built := Tools.GetClient(lib, proxy, timeout);
      if built.Err? {
        return Panicked(built.error);
      }
      var cli := built.value;
      if m == MethodGet {
        r := Attach(cli, Make.MakeGetRequest(lib, url, headers));
      } else if data.Some? {
        r := Attach(cli, Make.MakePostRequest(lib, url, headers, data));
      } else if form.Some? {
        r := Attach(cli, Make.MakePostFormRequest(lib, url, headers, form.value));
      } else {
        r := Failed(InvalidPost);
      }
    }
  }

  /** An unsupported method leaves Url untouched and is reported before anything else. */
  lemma DoRejects(lib: Library, f: Fields)
    ensures !Supported(ToUpper(lib, f.verb)) <==> DoSpec(lib, f).outcome.Failed? && DoSpec(lib, f).outcome.error.UnsupportedMethod?
    ensures !Supported(ToUpper(lib, f.verb)) ==> DoSpec(lib, f) == DoResult(Failed(UnsupportedMethod(ToUpper(lib, f.verb))), f.url)
  {
  }

  /**
   * Params rewrite the stored Url for GET and POST alike, whatever follows
   * (a proxy panic, a build error, an invalid POST); nil Params leave it.
   */
  lemma DoRewritesUrl(lib: Library, f: Fields)
    requires Supported(ToUpper(lib, f.verb))
    ensures DoSpec(lib, f).url == if f.params.Some? then Tools.MakeUrl(lib, f.url, f.params.value) else f.url
    ensures var r := DoSpec(lib, f).outcome; r.Ready? ==> r.request.url == DoSpec(lib, f).url
  {
  }

  /** Do is not idempotent: a second call on the same record merges Params again. */
  lemma DoTwice(lib: Library, f: Fields, p: StrMap)
    requires Supported(ToUpper(lib, f.verb)) && f.params == Some(p)
    ensures var once := DoSpec(lib, f).url;
      DoSpec(lib, f.(url := once)).url == Tools.MakeUrl(lib, Tools.MakeUrl(lib, f.url, p), p)
  {
  }

  /** A second Do with non-empty Params yields a strictly longer Url. */
  lemma DoTwiceGrows(lib: Library, f: Fields, p: StrMap)
    requires Supported(ToUpper(lib, f.verb)) && f.params == Some(p) && p != map[]
    ensures |DoSpec(lib, f).url| > |f.url|
  {
    EncodeOfMapEmpty(lib, p);
    Tools.MakeUrlSuffix(lib, f.url, p);
    assert Tools.MakeUrl(lib, f.url, p)[|f.url|..] != "";
  }

  /** A GET ignores Data and Form and goes out with no body and the caller's headers. */
  lemma DoGetIgnoresBody(lib: Library, f: Fields, data: Option<Data>, form: Option<StrMap>)
    requires ToUpper(lib, f.verb) == MethodGet
    ensures DoSpec(lib, f) == DoSpec(lib, f.(data := data, form := form))
    ensures var r := DoSpec(lib, f).outcome; r.Ready? ==> r.request.body == NoBody && r.request.header == f.headers
  {
  }

  /**
   * POST precedence: Data before Form, and neither is an error (reported
   * with the Url already rewritten).
   */
  lemma DoPostBody(lib: Library, f: Fields)
    requires ToUpper(lib, f.verb) == MethodPost
    requires Tools.GetClient(lib, f.proxy, f.timeout).Ok?
    ensures var d := DoSpec(lib, f);
      && (f.data.Some? && d.outcome.Ready? ==> d.outcome.request.body == Bytes(lib.marshal(f.data)))
      && (f.data.None? && f.form.Some? && d.outcome.Ready? ==> d.outcome.request.body == Text(Encode(lib, OfMap(f.form.value))))
      && (f.data.None? && f.form.None? <==> d.outcome == Failed(InvalidPost))
  {
  }

  /** The client is built after the rewrite: an unparsable proxy panics with Url already changed. */
  lemma DoProxyPanic(lib: Library, f: Fields)
    requires Supported(ToUpper(lib, f.verb))
    requires f.proxy != "" && !lib.parses(f.proxy)
    ensures DoSpec(lib, f).outcome == Panicked(ProxyInvalid(f.proxy))
    ensures DoSpec(lib, f).url == if f.params.Some? then Tools.MakeUrl(lib, f.url, f.params.value) else f.url
  {
  }
}
