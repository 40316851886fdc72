/**
 * reqs.go of package greqs: Get, Post and PostForm each fill a fresh
 * Request with the method, the URL, the headers and one payload, and call
 * its Do. No Params, Proxy or Timeout is ever set on that Request.
 */
module Reqs {
  import opened Http
  import opened UrlValues
  import opened RequestDo

  /** The Request literal each helper builds. */
  function Literal(verb: string, url: string, headers: StrMap, data: Option<Data>, form: Option<StrMap>): Fields {
    Fields(verb, url, None, headers, data, form, "", 0)
  }

  /** Get: a GET of the URL as given, on a default client. */
  method Get(lib: Library, url: string, headers: StrMap) returns (r: Outcome)
    ensures r == DoSpec(lib, Literal(MethodGet, url, headers, None, None)).outcome
    ensures r.Ready? <==> lib.newRequestOk(MethodGet, url)
    ensures r.Ready? ==> r.client == DefaultClient && r.request == HttpRequest(MethodGet, url, NoBody, headers)
    ensures !r.Ready? ==> r == Failed(RequestFailed)
  {
    var req := new Request(Literal(MethodGet, url, headers, None, None));
    UpperGet(lib);
    r := req.Do(lib);
  }

  /** Post: a JSON POST; nil data makes it an invalid POST. */
  method Post(lib: Library, url: string, headers: StrMap, data: Option<Data>) returns (r: Outcome)
    ensures r == DoSpec(lib, Literal(MethodPost, url, headers, data, None)).outcome
    ensures data.None? ==> r == Failed(InvalidPost)
    ensures data.Some? ==> (r.Ready? <==> lib.newRequestOk(MethodPost, url))
    ensures r.Ready? ==> r.client == DefaultClient && r.request.url == url && r.request.body == Bytes(lib.marshal(data))
    ensures r.Ready? ==> r.request.header[ContentType] == JsonType
  {
    var req := new Request(Literal(MethodPost, url, headers, data, None));
    UpperPost(lib);
    r := req.Do(lib);
  }

  /** PostForm: a url-encoded POST; a nil form makes it an invalid POST. */
  method PostForm(lib: Library, url: string, headers: StrMap, form: Option<StrMap>) returns (r: Outcome)
    ensures r == DoSpec(lib, Literal(MethodPost, url, headers, None, form)).outcome
    ensures form.None? ==> r == Failed(InvalidPost)
    ensures form.Some? ==> (r.Ready? <==> lib.newRequestOk(MethodPost, url))
    ensures r.Ready? ==> r.client == DefaultClient && r.request.url == url
    ensures r.Ready? && form.Some? ==> r.request.body == Text(Encode(lib, OfMap(form.value)))
    ensures r.Ready? ==> r.request.header[ContentType] == FormType
  {
    var req := new Request(Literal(MethodPost, url, headers, None, form));
    UpperPost(lib);
    r := req.Do(lib);
  }
}
