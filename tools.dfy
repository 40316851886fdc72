/**
 * tools.go of package greqs: query-string merging, client construction,
 * a random integer helper and the `Send` dispatch. toolset.go repeats
 * SetHeaders, GetClient, Options and Send of this file unchanged, so
 * these members model both copies.
 */
module Tools {
  import opened Http
  import opened UrlValues
  import Make

  /** `q.Add(key, val)` for every entry: keys are distinct, so one value each. */
  method FillByAdd(params: StrMap) returns (q: Values)
    ensures q.Keys == params.Keys
    ensures forall k :: k in q ==> q[k] == [params[k]]
    ensures q == OfMap(params)
  {
    q := map[];
    var todo := params.Keys;
    while todo != {}
      invariant todo <= params.Keys
      invariant q.Keys == params.Keys - todo
      invariant forall k :: k in q ==> q[k] == [params[k]]
      decreases |todo|
    {
      var k :| k in todo;
      q := Add(q, k, params[k]);
      todo := todo - {k};
    }
    assert q == OfMap(params);
  }

  /**
   * MakeUrl: a `?` only when the URL has none, then the encoded parameters
   * glued on directly, with no `&`.
   */
  function MakeUrl(lib: Library, url: string, params: StrMap): (r: string)
    ensures |url| <= |r| && r[..|url|] == url
    ensures '?' in r
  {
    var base := if '?' in url then url else url + "?";
    assert base[..|url|] == url;
    base + Encode(lib, OfMap(params))
  }

  /** What MakeUrl appends: `?` plus the encoding, or the bare encoding. */
  lemma MakeUrlSuffix(lib: Library, url: string, params: StrMap)
    ensures '?' in url ==> MakeUrl(lib, url, params)[|url|..] == Encode(lib, OfMap(params))
    ensures '?' !in url ==> MakeUrl(lib, url, params)[|url|..] == "?" + Encode(lib, OfMap(params))
  {
  }

  /**
   * A URL that already carries a query gets the first pair appended with
   * no separator: `z=1` and `a=b` run together.
   */
  lemma MakeUrlNoSeparator(lib: Library)
    ensures MakeUrl(lib, "https://x/y?z=1", map["a" := "b"])
         == "https://x/y?z=1" + lib.queryEscape("a") + "=" + lib.queryEscape("b")
  {
    assert '?' in "https://x/y?z=1" by { assert "https://x/y?z=1"[11] == '?'; }
    EncodeSingle(lib, "a", "b");
  }

  /** Empty (non-nil) parameters add only the `?` a query-less URL lacks. */
  lemma MakeUrlEmptyParams(lib: Library, url: string)
    ensures MakeUrl(lib, url, map[]) == if '?' in url then url else url + "?"
  {
    EncodeOfMapEmpty(lib, map[]);
  }

  /**
   * GetClient: a fresh client; a proxy transport only for a non-empty
   * proxy (an unparsable one panics, `Err`), a timeout only when positive.
   */
  function GetClient(lib: Library, proxy: string, timeout: int): (r: Result<Client>)
    ensures r.Err? <==> proxy != "" && !lib.parses(proxy)
    ensures r.Err? ==> r.error == ProxyInvalid(proxy)
    ensures r.Ok? ==> r.value.proxy == (if proxy == "" then None else Some(proxy))
    ensures r.Ok? ==> r.value.timeout == (if timeout > 0 then timeout else 0)
  {
    var client := DefaultClient;
    if proxy != "" && !lib.parses(proxy) then Err(ProxyInvalid(proxy))
    else
      var withProxy := if proxy != "" then client.(proxy := Some(proxy)) else client;
      Ok(if timeout > 0 then withProxy.(timeout := timeout) else withProxy)
  }

  /** Without a proxy and a positive timeout the client keeps its zero defaults. */
  lemma GetClientDefaults(lib: Library, timeout: int)
    requires timeout <= 0
    ensures GetClient(lib, "", timeout) == Ok(DefaultClient)
  {
  }

  // ---- RandInt: Go's 64-bit int arithmetic ----

  const Two64: int := 0x1_0000_0000_0000_0000
  const MinInt64: int := -0x8000_0000_0000_0000
  const MaxInt64: int := 0x7fff_ffff_ffff_ffff

  type Int64 = x: int | MinInt64 <= x <= MaxInt64

  /** Two's-complement wrap-around of a 64-bit `int` operation. */
  function Wrap(x: int): (r: Int64)
    ensures MinInt64 <= x <= MaxInt64 ==> r == x
    ensures (r - x) % Two64 == 0
  {
    var y := x % Two64;
    if y > MaxInt64 then y - Two64 else y
  }

  /**
   * RandInt as written: `min + r.Intn(max-min+1)` in wrapping arithmetic.
   * `draw` stands for the time-seeded source; Intn(n) is `draw % n`.
   * `None` is the panic of Intn on a non-positive argument.
   */
  function RandInt(min: Int64, max: Int64, draw: nat): Option<Int64> {
    var n := Wrap(Wrap(max - min) + 1);
    if n <= 0 then None else Some(Wrap(min + draw % n))
  }

  /** On a range whose width fits in an int64, the result lies in [min, max]. */
  lemma RandIntInRange(min: Int64, max: Int64, draw: nat)
    requires min <= max && max - min < MaxInt64
    ensures RandInt(min, max, draw).Some?
    ensures min <= RandInt(min, max, draw).value <= max
  {
    var n := Wrap(Wrap(max - min) + 1);
    assert n == max - min + 1;
    assert 0 <= draw % n < n;
  }

  /** Every value of such a range is drawn for some state of the source. */
  lemma RandIntCovers(min: Int64, max: Int64, x: Int64)
    requires min <= x <= max && max - min < MaxInt64
    ensures RandInt(min, max, x - min) == Some(x)
  {
    var n := Wrap(Wrap(max - min) + 1);
    assert n == max - min + 1;
    ModSmall(x - min, n);
    assert Wrap(min + (x - min)) == x;
  }

  lemma ModSmall(a: int, n: int)
    requires 0 <= a < n
    ensures a % n == a
  {
  }

  /**
   * The wrap-around in `max-min+1`: the full int64 range panics, and a
   * reversed range can return a value outside [min, max].
   */
  lemma RandIntSpanOverflow()
    ensures RandInt(MinInt64, MaxInt64, 0) == None
    ensures RandInt(MaxInt64, MinInt64, 1) == Some(MinInt64 as Int64)
  {
    assert Wrap(MaxInt64 - MinInt64) == -1;
    assert Wrap(MinInt64 - MaxInt64) == 1;
    assert Wrap(MaxInt64 + 1) == MinInt64;
  }

  /** RandInt with the width computed without wrap-around. */
  function RandIntExact(min: Int64, max: Int64, draw: nat): (r: Option<Int64>)
    ensures r.Some? <==> min <= max
    ensures r.Some? ==> min <= r.value <= max
  {
    if max < min then None else Some(min + draw % (max - min + 1))
  }

  /** The corrected helper reaches every value of every non-empty range. */
  lemma RandIntExactCovers(min: Int64, max: Int64, x: Int64)
    requires min <= x <= max
    ensures RandIntExact(min, max, x - min) == Some(x)
  {
    ModSmall(x - min, max - min + 1);
  }

  // ---- Send ----

  /** Options of tools.go; `None` fields are nil maps, "" and 0 are unset. */
  datatype Options = Options(
    params: Option<StrMap>,
    headers: StrMap,
    data: Option<Data>,
    form: Option<StrMap>,
    proxy: string,
    timeout: int)

  /** `&Options{}`. */
  const NoOptions := Options(None, map[], None, None, "", 0)

  /**
   * Send, up to `Do(cli, req)`: upper-case and check the method, build the
   * client (before any branch), then GET with Params merged, or POST with
   * Data before Form and an error when neither is set.
   */
  function Send(lib: Library, requested: string, url: string, opts: Option<Options>): Outcome {
    var verb := ToUpper(lib, requested);
    if !Supported(verb) then Failed(UnsupportedMethod(verb))
    else
      var o := if opts.None? then NoOptions else opts.value;
      match GetClient(lib, o.proxy, o.timeout)
      case Err(e) => Panicked(e)
      case Ok(cli) =>
        if verb == MethodGet then
          var u := if o.params.Some? then MakeUrl(lib, url, o.params.value) else url;
          Attach(cli, Make.MakeGetRequest(lib, u, o.headers))
        else if o.data.Some? then Attach(cli, Make.MakePostRequest(lib, url, o.headers, o.data))
        else if o.form.Some? then Attach(cli, Make.MakePostFormRequest(lib, url, o.headers, o.form.value))
        else Failed(InvalidPost)
  }

  /** SendGetRequest. */
  function SendGetRequest(lib: Library, url: string, opts: Option<Options>): Outcome {
    Send(lib, MethodGet, url, opts)
  }

  /** SendPostRequest. */
  function SendPostRequest(lib: Library, url: string, opts: Option<Options>): Outcome {
    Send(lib, MethodPost, url, opts)
  }

  /**
   * SendGetRequest and SendPostRequest pass a supported method, so they
   * never fail on the method; the GET helper never reports an invalid POST.
   */
  lemma SendHelpersSupported(lib: Library, url: string, opts: Option<Options>)
    ensures !(SendGetRequest(lib, url, opts).Failed? && SendGetRequest(lib, url, opts).error.UnsupportedMethod?)
    ensures !(SendPostRequest(lib, url, opts).Failed? && SendPostRequest(lib, url, opts).error.UnsupportedMethod?)
    ensures SendGetRequest(lib, url, opts) != Failed(InvalidPost)
  {
    UpperGet(lib);
    UpperPost(lib);
  }

  /** The method check comes first: it is the only source of UnsupportedMethod. */
  lemma SendRejectsMethod(lib: Library, requested: string, url: string, opts: Option<Options>)
    ensures var r := Send(lib, requested, url, opts);
      (r.Failed? && r.error.UnsupportedMethod?) <==> !Supported(ToUpper(lib, requested))
    ensures !Supported(ToUpper(lib, requested)) ==> Send(lib, requested, url, opts) == Failed(UnsupportedMethod(ToUpper(lib, requested)))
  {
  }

  /** Methods are case-insensitive: "get" and "post" dispatch like GET and POST. */
  lemma SendIgnoresCase(lib: Library, url: string, opts: Option<Options>)
    ensures Send(lib, "get", url, opts) == Send(lib, MethodGet, url, opts)
    ensures Send(lib, "post", url, opts) == Send(lib, MethodPost, url, opts)
  {
    UpperGet(lib);
    UpperPost(lib);
  }

  /** nil options behave exactly like `&Options{}`. */
  lemma SendNilOptions(lib: Library, requested: string, url: string)
    ensures Send(lib, requested, url, None) == Send(lib, requested, url, Some(NoOptions))
  {
  }

  /** Params are merged only on the GET path; a POST keeps the URL as given. */
  lemma SendPostIgnoresParams(lib: Library, url: string, o: Options)
    ensures Send(lib, MethodPost, url, Some(o)) == Send(lib, MethodPost, url, Some(o.(params := None)))
    ensures var r := Send(lib, MethodPost, url, Some(o)); r.Ready? ==> r.request.url == url
  {
    UpperPost(lib);
  }

  /** A GET never looks at Data or Form, and sends the merged URL with no body. */
  lemma SendGetIgnoresBody(lib: Library, url: string, o: Options, data: Option<Data>, form: Option<StrMap>)
    ensures Send(lib, MethodGet, url, Some(o)) == Send(lib, MethodGet, url, Some(o.(data := data, form := form)))
    ensures var r := Send(lib, MethodGet, url, Some(o));
      r.Ready? ==> r.request == HttpRequest(MethodGet, if o.params.Some? then MakeUrl(lib, url, o.params.value) else url, NoBody, o.headers)
  {
    UpperGet(lib);
  }

  /**
   * POST body precedence: Data before Form; with neither, the error comes
   * without any request being built (once the client was built).
   */
  lemma SendPostBody(lib: Library, url: string, o: Options)
    requires GetClient(lib, o.proxy, o.timeout).Ok?
    ensures var r := Send(lib, MethodPost, url, Some(o));
      lib.newRequestOk(MethodPost, url) ==>
      && (o.data.Some? ==> r.Ready? && r.request.body == Bytes(lib.marshal(o.data)) && r.request.header[ContentType] == JsonType)
      && (o.data.None? && o.form.Some? ==> r.Ready? && r.request.body == Text(Encode(lib, OfMap(o.form.value))) && r.request.header[ContentType] == FormType)
    ensures o.data.None? && o.form.None? <==> Send(lib, MethodPost, url, Some(o)) == Failed(InvalidPost)
  {
    UpperPost(lib);
  }

  /**
   * The client is built before the branch: an unparsable proxy panics
   * even for a POST that would have been rejected as invalid.
   */
  lemma SendProxyPanicFirst(lib: Library, requested: string, url: string, o: Options)
    requires Supported(ToUpper(lib, requested))
    requires o.proxy != "" && !lib.parses(o.proxy)
    ensures Send(lib, requested, url, Some(o)) == Panicked(ProxyInvalid(o.proxy))
  {
  }

  /** A ready request goes out on the client GetClient built from the options. */
  lemma SendClient(lib: Library, requested: string, url: string, o: Options)
    ensures var r := Send(lib, requested, url, Some(o));
      r.Ready? ==> Ok(r.client) == GetClient(lib, o.proxy, o.timeout)
  {
  }
}
