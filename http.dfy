/**
 * The parts of Go's standard library that the request helpers depend on,
 * reduced to what the helpers observe. Library behaviour that the helpers
 * treat as a black box (escaping, URL parsing, JSON encoding, the random
 * multipart boundary, upper-casing outside ASCII) is a field of `Library`,
 * so every statement proved below holds for every such behaviour.
 */
module Http {

  newtype byte = x: int | 0 <= x < 256

  datatype Option<T> = None | Some(value: T)

  /** A Go `map[string]string`; a nil map ranges like an empty one. */
  type StrMap = map<string, string>

  /** A dynamically typed value, the `any` of a `map[string]any` payload. */
  datatype Dynamic =
    | Null
    | Bool(b: bool)
    | Number(n: int)
    | Str(s: string)
    | List(items: seq<Dynamic>)
    | Object(fields: map<string, Dynamic>)

  /** A JSON payload (`map[string]any`); `None` is the nil map. */
  type Data = map<string, Dynamic>

  /** Library behaviour the helpers call but never inspect. */
  datatype Library = Library(
    upperOther: char -> char,                // unicode.ToUpper on runes outside ASCII
    queryEscape: string -> string,           // url.QueryEscape
    parses: string -> bool,                  // url.Parse returns no error
    newRequestOk: (string, string) -> bool,  // http.NewRequest(method, url, body) returns no error
    marshal: Option<Data> -> seq<byte>,      // json.Marshal, its error dropped
    boundary: string                         // the random boundary of a multipart.Writer
  )

  const MethodGet := "GET"
  const MethodPost := "POST"
  const ContentType := "Content-Type"
  const JsonType := "application/json"
  const FormType := "application/x-www-form-urlencoded"

  /** multipart.Writer.FormDataContentType for a boundary of hex digits. */
  function MultipartType(lib: Library): string {
    "multipart/form-data; boundary=" + lib.boundary
  }

  /** A request body as an io.Reader would deliver it. */
  datatype Body =
    | NoBody
    | Bytes(bytes: seq<byte>)
    | Text(text: string)
    | Multipart(boundary: string, fields: StrMap)

  /** An *http.Request as the helpers leave it: header keys as given. */
  datatype HttpRequest = HttpRequest(verb: string, url: string, body: Body, header: StrMap)

  /**
   * An *http.Client: `proxy` is `Some(p)` when its Transport routes through
   * the proxy URL `p`, `None` when Transport is nil; `timeout` is its Timeout
   * (a time.Duration, 0 meaning none).
   */
  datatype Client = Client(proxy: Option<string>, timeout: int)

  /** `&http.Client{}`, also http.DefaultClient as the helpers use it. */
  const DefaultClient := Client(None, 0)

  datatype Error =
    | UnsupportedMethod(verb: string)  // neither GET nor POST after upper-casing
    | RequestFailed                      // http.NewRequest returned an error
    | ProxyInvalid(proxy: string)        // url.Parse rejected the proxy URL
    | InvalidPost                        // a POST with neither JSON nor form body

  datatype Result<T> = Ok(value: T) | Err(error: Error)

  /**
   * How a dispatch ends before the network round trip: ready to hand
   * `request` to `client.Do`, returned an error, or panicked.
   */
  datatype Outcome =
    | Ready(client: Client, request: HttpRequest)
    | Failed(error: Error)
    | Panicked(cause: Error)

  /** Attaches the client to a built request, passing a builder error on. */
  function Attach(client: Client, built: Result<HttpRequest>): (r: Outcome)
    ensures built.Ok? <==> r.Ready?
    ensures built.Ok? ==> r.client == client && r.request == built.value
    ensures built.Err? ==> r == Failed(built.error)
  {
    match built
    case Ok(req) => Ready(client, req)
    case Err(e) => Failed(e)
  }

  /** unicode.ToUpper on one rune: ASCII letters are fixed, the rest is library behaviour. */
  function UpperRune(lib: Library, c: char): char {
    if 'a' <= c <= 'z' then (c as int - 32) as char
    else if c as int < 128 then c
    else lib.upperOther(c)
  }

  /** strings.ToUpper: rune by rune. */
  function ToUpper(lib: Library, s: string): (r: string)
    ensures |r| == |s|
    ensures forall i :: 0 <= i < |s| ==> r[i] == UpperRune(lib, s[i])
  {
    if s == [] then [] else [UpperRune(lib, s[0])] + ToUpper(lib, s[1..])
  }

  /** GET and POST are the only methods the helpers accept. */
  predicate Supported(verb: string) {
    verb == MethodGet || verb == MethodPost
  }

  lemma UpperGet(lib: Library)
    ensures ToUpper(lib, "GET") == MethodGet
    ensures ToUpper(lib, "get") == MethodGet
  {
    assert UpperRune(lib, 'g') == 'G' && UpperRune(lib, 'e') == 'E' && UpperRune(lib, 't') == 'T';
  }

  lemma UpperPost(lib: Library)
    ensures ToUpper(lib, "POST") == MethodPost
    ensures ToUpper(lib, "post") == MethodPost
  {
    assert UpperRune(lib, 'p') == 'P' && UpperRune(lib, 'o') == 'O' && UpperRune(lib, 's') == 'S';
  }

  /** Over ASCII, upper-casing does not depend on the library. */
  lemma {:induction false} UpperAsciiFixed(lib: Library, lib': Library, s: string)
    requires forall i :: 0 <= i < |s| ==> s[i] as int < 128
    ensures ToUpper(lib, s) == ToUpper(lib', s)
  {
    if s != [] {
      UpperAsciiFixed(lib, lib', s[1..]);
    }
  }
}
