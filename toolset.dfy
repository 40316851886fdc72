/**
 * The request helpers of toolset.go. Get, Post and PostForm build their
 * request inline (the same code as the builders of make.go) and send it
 * with http.DefaultClient, so no proxy or timeout ever applies to them.
 * Post and PostForm take the payload before the headers.
 */
module Toolset {
  import opened Http
  import opened UrlValues
  import Make

  /** Get: a GET with no body and exactly the caller's headers. */
  function Get(lib: Library, url: string, headers: StrMap): (r: Outcome)
    ensures r.Ready? <==> lib.newRequestOk(MethodGet, url)
    ensures !r.Ready? ==> r == Failed(RequestFailed)
    ensures r.Ready? ==> r.client == DefaultClient
    ensures r.Ready? ==> r.request == HttpRequest(MethodGet, url, NoBody, headers)
  {
    Attach(DefaultClient, Make.MakeGetRequest(lib, url, headers))
  }

  /** Post: JSON body; Content-Type is set after the caller's headers. */
  function Post(lib: Library, url: string, data: Option<Data>, headers: StrMap): (r: Outcome)
    ensures r.Ready? <==> lib.newRequestOk(MethodPost, url)
    ensures !r.Ready? ==> r == Failed(RequestFailed)
    ensures r.Ready? ==> r.client == DefaultClient && r.request.url == url
    ensures r.Ready? ==> r.request.body == Bytes(lib.marshal(data))
    ensures r.Ready? ==> r.request.header.Keys == headers.Keys + {ContentType}
    ensures r.Ready? ==> r.request.header[ContentType] == JsonType
    ensures r.Ready? ==> forall k :: k in headers && k != ContentType ==> r.request.header[k] == headers[k]
  {
    Attach(DefaultClient, Make.MakePostRequest(lib, url, headers, data))
  }

  /** PostForm: url-encoded body with one value per form key. */
  function PostForm(lib: Library, url: string, form: StrMap, headers: StrMap): (r: Outcome)
    ensures r.Ready? <==> lib.newRequestOk(MethodPost, url)
    ensures !r.Ready? ==> r == Failed(RequestFailed)
    ensures r.Ready? ==> r.client == DefaultClient && r.request.url == url
    ensures r.Ready? ==> r.request.body == Text(Encode(lib, OfMap(form)))
    ensures r.Ready? ==> r.request.header.Keys == headers.Keys + {ContentType}
    ensures r.Ready? ==> r.request.header[ContentType] == FormType
    ensures r.Ready? ==> forall k :: k in headers && k != ContentType ==> r.request.header[k] == headers[k]
  {
    Attach(DefaultClient, Make.MakePostFormRequest(lib, url, headers, form))
  }

  /** A caller's Content-Type never reaches the wire through Post. */
  lemma PostOverridesContentType(lib: Library, url: string, data: Option<Data>, headers: StrMap, v: string)
    ensures Post(lib, url, data, headers[ContentType := v]) == Post(lib, url, data, headers - {ContentType})
  {
    Make.ContentTypeForced(lib, url, headers, data, map[], v);
  }
}
