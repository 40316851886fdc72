/**
 * The request builders of make.go (the same text as tools.go's), the
 * header loop they call, and the loop that fills a form's url.Values.
 * A builder fails only when http.NewRequest does; otherwise it returns the
 * request with the input URL, its body, and its headers.
 */
module Make {
  import opened Http
  import opened UrlValues

  /**
   * SetHeaders: `req.Header.Set(key, val)` for every entry, in Go's map
   * order. Keys are distinct, so every order gives `h + headers`.
   */
  method SetHeaders(h: StrMap, headers: StrMap) returns (r: StrMap)
    ensures forall k :: k in headers ==> k in r && r[k] == headers[k]
    ensures forall k :: k !in headers ==> (k in r <==> k in h) && (k in h ==> r[k] == h[k])
    ensures r == h + headers
  {
    r := h;
    var todo := headers.Keys;
    ghost var done: set<string> := {};
    while todo != {}
      invariant todo + done == headers.Keys && todo !! done
      invariant r == h + Restrict(headers, done)
      decreases |todo|
    {
      var k :| k in todo;
      RestrictGrows(h, headers, done, k);
      r := r[k := headers[k]];
      todo := todo - {k};
      done := done + {k};
    }
    assert Restrict(headers, headers.Keys) == headers;
  }

  /** The entries of `m` whose keys are in `ks`. */
  function Restrict(m: StrMap, ks: set<string>): StrMap {
    map k | k in ks && k in m :: m[k]
  }

  /** One more key set moves the merge by exactly that entry. */
  lemma RestrictGrows(h: StrMap, m: StrMap, done: set<string>, k: string)
    requires k in m
    ensures h + Restrict(m, done + {k}) == (h + Restrict(m, done))[k := m[k]]
  {
    assert Restrict(m, done + {k}) == Restrict(m, done)[k := m[k]];
  }

  /** `val.Set(k, v)` for every form entry: exactly one value per key. */
  method FillBySet(form: StrMap) returns (v: Values)
    ensures v.Keys == form.Keys
    ensures forall k :: k in v ==> v[k] == [form[k]]
    ensures v == OfMap(form)
  {
    v := map[];
    var todo := form.Keys;
    while todo != {}
      invariant todo <= form.Keys
      invariant v.Keys == form.Keys - todo
      invariant forall k :: k in v ==> v[k] == [form[k]]
      decreases |todo|
    {
      var k :| k in todo;
      v := Set(v, k, form[k]);
      todo := todo - {k};
    }
    assert v == OfMap(form);
  }

  /** MakeGetRequest: a GET with no body and the caller's headers. */
  function MakeGetRequest(lib: Library, url: string, headers: StrMap): (r: Result<HttpRequest>)
    ensures r.Ok? <==> lib.newRequestOk(MethodGet, url)
    ensures r.Err? ==> r.error == RequestFailed
    ensures r.Ok? ==> r.value == HttpRequest(MethodGet, url, NoBody, headers)
  {
    if !lib.newRequestOk(MethodGet, url) then Err(RequestFailed)
    else Ok(HttpRequest(MethodGet, url, NoBody, map[] + headers))
  }

  /** Headers set first, then a forced Content-Type. */
  function HeadersThen(headers: StrMap, contentType: string): (h: StrMap)
    ensures h.Keys == headers.Keys + {ContentType}
    ensures h[ContentType] == contentType
    ensures forall k :: k in headers && k != ContentType ==> h[k] == headers[k]
  {
    (map[] + headers)[ContentType := contentType]
  }

  /**
   * MakePostRequest: the JSON encoding of `data` as body (a marshal error
   * is dropped), Content-Type set after the caller's headers.
   */
  function MakePostRequest(lib: Library, url: string, headers: StrMap, data: Option<Data>): (r: Result<HttpRequest>)
    ensures r.Ok? <==> lib.newRequestOk(MethodPost, url)
    ensures r.Err? ==> r.error == RequestFailed
    ensures r.Ok? ==> r.value.verb == MethodPost && r.value.url == url
    ensures r.Ok? ==> r.value.body == Bytes(lib.marshal(data))
    ensures r.Ok? ==> r.value.header.Keys == headers.Keys + {ContentType}
    ensures r.Ok? ==> r.value.header[ContentType] == JsonType
    ensures r.Ok? ==> forall k :: k in headers && k != ContentType ==> r.value.header[k] == headers[k]
  {
    if !lib.newRequestOk(MethodPost, url) then Err(RequestFailed)
    else Ok(HttpRequest(MethodPost, url, Bytes(lib.marshal(data)), HeadersThen(headers, JsonType)))
  }

  /**
   * MakePostFormRequest: the url-encoding of the form (one value per key)
   * as body, Content-Type set after the caller's headers.
   */
  function MakePostFormRequest(lib: Library, url: string, headers: StrMap, form: StrMap): (r: Result<HttpRequest>)
    ensures r.Ok? <==> lib.newRequestOk(MethodPost, url)
    ensures r.Err? ==> r.error == RequestFailed
    ensures r.Ok? ==> r.value.verb == MethodPost && r.value.url == url
    ensures r.Ok? ==> r.value.body == Text(Encode(lib, OfMap(form)))
    ensures r.Ok? ==> r.value.header.Keys == headers.Keys + {ContentType}
    ensures r.Ok? ==> r.value.header[ContentType] == FormType
    ensures r.Ok? ==> forall k :: k in headers && k != ContentType ==> r.value.header[k] == headers[k]
  {
    if !lib.newRequestOk(MethodPost, url) then Err(RequestFailed)
    else
      var body := Text(Encode(lib, OfMap(form)));
      Ok(HttpRequest(MethodPost, url, body, HeadersThen(headers, FormType)))
  }

  /** Whatever Content-Type the caller passes, the POST builders replace it. */
  lemma ContentTypeForced(lib: Library, url: string, headers: StrMap, data: Option<Data>, form: StrMap, v: string)
    ensures MakePostRequest(lib, url, headers[ContentType := v], data)
         == MakePostRequest(lib, url, headers - {ContentType}, data)
    ensures MakePostFormRequest(lib, url, headers[ContentType := v], form)
         == MakePostFormRequest(lib, url, headers - {ContentType}, form)
  {
    if lib.newRequestOk(MethodPost, url) {
      assert HeadersThen(headers[ContentType := v], JsonType) == HeadersThen(headers - {ContentType}, JsonType);
      assert HeadersThen(headers[ContentType := v], FormType) == HeadersThen(headers - {ContentType}, FormType);
    }
  }
}
