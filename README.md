# greqs request construction, modelled in Dafny

greqs is a small Go HTTP helper library. This project models the part of it
that decides what goes on the wire, up to the point where the client sends
the request:

- how parameters are merged into a URL;
- how a method, an options record and a payload become a request (method,
  URL, body, headers);
- which client (proxy, timeout) sends it;
- which calls change state that later calls see;
- the `{}` templating and the colour rendering of the `log` package.

Each near-duplicate copy of the dispatch logic keeps its own differences, in
its own module:

| module | file | what it holds |
|---|---|---|
| `Http` | (shared) | request, client, body and outcome values; `strings.ToUpper`; the `Library` record of abstract standard-library behaviour |
| `UrlValues` | (shared) | `url.Values`, `Add`/`Set` and `Encode` (sorted keys, `k=v` pairs joined by `&`) |
| `Make` | make.go, tools.go | `SetHeaders`, the three request builders, the form-filling loop |
| `Tools` | tools.go, toolset.go | `MakeUrl` (no `&`), `GetClient`, `RandInt`, `Options`, `Send` |
| `Toolset` | toolset.go | `Get`, `Post`, `PostForm` on `http.DefaultClient` |
| `Requests` | requests/request.go | `MakeUrl` (with `&`), the stateful `Worker` and its `Send` |
| `RequestDo` | request.go | the `Request` record and `Do`, which rewrites its own `Url` |
| `Reqs` | reqs.go | `Get`, `Post`, `PostForm` built on `Request.Do` |
| `Workers` | worker.go | the hook-running `Worker` |
| `LogPrint` | log/print.go | `PyFormat`, the colour table, `Print` as a render function |

Several copies are textually identical, and each is modelled once:

- The builders of make.go are the same as those of tools.go:36-70.
- toolset.go's `SetHeaders` (14-19), `GetClient` (41-54), `Options` (109-116) and `Send` (119-168) are the same as tools.go's.
- Hence `Make.SetHeaders`, `Tools.GetClient` and `Tools.Send` stand for both copies.

How the model is shaped:

- Standard-library behaviour that the code treats as a black box is a field of `Http.Library`, so every property holds for every such behaviour:
  - `url.QueryEscape`;
  - whether `url.Parse` accepts a string;
  - whether `http.NewRequest` fails;
  - `json.Marshal`;
  - the random multipart boundary;
  - upper-casing outside ASCII.
- A Go panic is the outcome `Panicked`.
- An error return is `Failed`.
- A request that is ready for `client.Do` is `Ready(client, request)`.
- The loops over Go maps choose keys in any order (`:|`). For the header, form and parameter loops every order gives the same result because map keys are distinct; the multipart writer is the exception (see "## Left out").

The copies differ from one another in these points, and each module keeps the behaviour of its own copy:

- tools.go's `MakeUrl` never inserts `&`: `https://x/y?z=1` with `{a: b}` becomes `https://x/y?z=1a=b` (`Tools.MakeUrlNoSeparator`). Only requests/request.go joins with `&` (`Requests.MakeUrlJoinsWithAmpersand`).
- requests/request.go checks FormData before JSON. tools.go, toolset.go and request.go check Data before Form.
- requests/request.go accepts a POST with no body (`Requests.SendBodilessPost`). The other copies reject it.
- Parameters apply when the map is non-nil, even when it is empty. An empty map still adds the `?` a URL lacks (`Tools.MakeUrlEmptyParams`) or the `&`.

## Model

| member | source | states |
|---|---|---|
| Http.Attach | tools.go:134-138 | a builder error is passed on unchanged; a built request is sent on the given client |
| Http.ToUpper | tools.go:120 | upper-casing keeps the length and maps every rune through the rune rule (ASCII a-z to A-Z) |
| Http.UpperGet | requests/request.go:83-84 | "get" and "GET" both become GET |
| Http.UpperPost | tools.go:120-121 | "post" and "POST" both become POST |
| Http.UpperAsciiFixed | tools.go:120 | on ASCII text upper-casing does not depend on the library's non-ASCII behaviour |
| UrlValues.Encode | tools.go:24 | reference definition of `Values.Encode` (also requests/request.go:74); stated by SortedKeys, PairsOfMap, EncodeOfMapEmpty and EncodeSingle |
| UrlValues.SortedKeys | tools.go:24 | Encode visits every key exactly once, in strictly increasing byte order |
| UrlValues.PairsOfMap | tools.go:58-63 | Values built from a string map give exactly one `k=v` pair per key, in sorted key order |
| UrlValues.EncodeOfMapEmpty | tools.go:17-24 | the encoding of a map's parameters is empty exactly when the map is empty |
| UrlValues.EncodeSingle | requests/request.go:69-77 | a one-key map encodes to its single escaped `k=v` pair |
| Make.SetHeaders | tools.go:29-33 | every given key gets its value; every other header is left as it was (toolset.go:14-19 is the same loop) |
| Make.FillBySet | make.go:35-38 | the form's Values have exactly the form's keys, one value each |
| Make.MakeGetRequest | make.go:12-19 | fails only (and always) when NewRequest fails; otherwise GET, the input URL, no body, the caller's headers |
| Make.HeadersThen | make.go:28-29 | Content-Type set after the caller's headers: it is present with the forced value, other keys keep theirs |
| Make.MakePostRequest | make.go:22-31 | fails only when NewRequest fails; otherwise POST, the input URL, the marshalled body, Content-Type application/json whatever the caller sent |
| Make.MakePostFormRequest | make.go:34-46 | fails only when NewRequest fails; otherwise the url-encoded one-value-per-key form body, Content-Type application/x-www-form-urlencoded |
| Make.ContentTypeForced | tools.go:45-70 | the caller's Content-Type has no effect on either POST builder |
| Tools.FillByAdd | tools.go:17-20 | the parameters' Values have exactly the map's keys, one value each |
| Tools.MakeUrl | tools.go:16-26 | the result starts with the input URL and contains `?` |
| Tools.MakeUrlSuffix | tools.go:21-24 | what is appended is the bare encoding when the URL has `?`, else `?` plus the encoding |
| Tools.MakeUrlNoSeparator | toolset_test.go:15-22 | an existing query gets the first pair glued on with no `&` |
| Tools.MakeUrlEmptyParams | tools.go:16-26 | empty parameters add only the missing `?` |
| Tools.GetClient | tools.go:73-86 | panics exactly for a non-empty unparsable proxy; proxy only when non-empty, timeout only when positive (toolset.go:41-54 is the same function) |
| Tools.GetClientDefaults | tools.go:82-85 | no proxy and a non-positive timeout leave the zero client |
| Tools.Wrap | tools.go:104 | Go `int` arithmetic: the identity inside int64, congruent modulo 2^64 outside |
| Tools.RandInt | tools.go:102-106 | as written: `None` (the panic of `Intn`) when the wrapped width is not positive, else `min` plus the draw modulo the width, wrapped; reference definition, stated by the RandInt lemmas below |
| Tools.RandIntInRange | tools.go:102-106 | when the width fits, the result lies in [min, max] |
| Tools.RandIntCovers | tools.go:104 | every value of such a range is reachable |
| Tools.RandIntSpanOverflow | tools.go:104 | as written: the full int64 range panics, and the extreme reversed range (MaxInt64, MinInt64) returns MinInt64 |
| Tools.RandIntExact | tools.go:102-106 | corrected: a value exists exactly for a non-empty range, and lies in it |
| Tools.RandIntExactCovers | tools.go:102-106 | corrected: every value of every non-empty range is reachable |
| Tools.Send | tools.go:119-158 | reference definition of Send up to `Do` (toolset.go:119-158 is the same); stated by the Send lemmas below |
| Tools.SendGetRequest | tools.go:161-163 | Send with GET; stated by SendHelpersSupported |
| Tools.SendPostRequest | tools.go:166-168 | Send with POST; stated by SendHelpersSupported |
| Tools.SendHelpersSupported | tools.go:161-168 | neither helper fails on the method; the GET helper never reports an invalid POST |
| Tools.SendRejectsMethod | tools.go:120-123 | UnsupportedMethod happens exactly when the upper-cased method is neither GET nor POST, before anything else |
| Tools.SendIgnoresCase | tools.go:120 | "get"/"post" dispatch like GET/POST |
| Tools.SendNilOptions | tools.go:125-127 | nil options behave exactly like empty ones |
| Tools.SendPostIgnoresParams | tools.go:140-157 | a POST never merges Params: its URL is the input URL |
| Tools.SendGetIgnoresBody | tools.go:130-138 | a GET ignores Data and Form and sends the merged URL with no body and the caller's headers (also toolset.go:130-138) |
| Tools.SendPostBody | tools.go:141-156 | Data before Form with their Content-Types when NewRequest accepts the URL; neither is exactly the invalid-POST error whatever NewRequest would do, so no request is built for it (also toolset.go:141-156) |
| Tools.SendProxyPanicFirst | tools.go:128 | the client is built before the branch: a bad proxy panics even for an invalid POST |
| Tools.SendClient | tools.go:128 | a ready request is sent on the client GetClient builds from the options |
| Toolset.Get | toolset.go:71-79 | fails only when NewRequest fails; GET, no body, the caller's headers, default client |
| Toolset.Post | toolset.go:82-91 | JSON body, Content-Type application/json after the caller's headers, default client |
| Toolset.PostForm | toolset.go:94-106 | url-encoded form body, Content-Type application/x-www-form-urlencoded, default client |
| Toolset.PostOverridesContentType | toolset.go:88-89 | a caller's Content-Type never changes what Post sends |
| Requests.MakeUrl | requests/request.go:68-79 | input URL as prefix, then `&` if it has `?` else `?`, then the encoding |
| Requests.MakeUrlJoinsWithAmpersand | requests/request.go:73-74 | an existing query is joined with `&` |
| Requests.ChooseBody | requests/request.go:93-112 | reference definition of the body choice; stated by SendBody and SendBodilessPost |
| Requests.SendStep | requests/request.go:82-150 | reference definition of Send up to `c.client.Do`, with the client it leaves; stated by the Send lemmas below |
| Requests.Worker.constructor | requests/request.go:37-41 | a new worker's client has no transport and a zero timeout |
| Requests.Worker.SetDefaultTimeout | requests/request.go:44-46 | the timeout is overwritten unconditionally, nothing else changes |
| Requests.Worker.SetDefaultProxy | requests/request.go:49-55 | panics exactly on an unparsable proxy (client unchanged), else replaces the transport |
| Requests.Worker.Send | requests/request.go:82-150 | the header loop and the client writes produce the outcome and the new client that SendStep gives |
| Requests.Worker.Get | requests/request.go:58-60 | Send with GET |
| Requests.Worker.Post | requests/request.go:63-65 | Send with POST |
| Requests.SendRejectsFirst | requests/request.go:83-86 | UnsupportedMethod exactly for non-GET/POST, with the client untouched; "get" is GET |
| Requests.SendUrl | requests/request.go:89-91 | non-nil Params (even empty) rewrite the URL for both methods; nil leaves it |
| Requests.SendBody | requests/request.go:96-123 | FormData over JSON (multipart type), JSON alone (application/json), neither: no body and no Content-Type |
| Requests.SendBodilessPost | requests/request.go:93-115 | no call ever fails as an invalid POST; a POST with neither FormData nor JSON and no proxy is sent, on any client, with no body and exactly the caller's headers |
| Requests.SendHeadersWin | requests/request.go:120-132 | the caller's headers are written after Content-Type and win |
| Requests.SendClientEffects | requests/request.go:134-149 | early errors leave the client; a positive timeout sticks; a valid proxy sticks; the error path keeps the timeout |
| Requests.SendProxyErrorAfterTimeout | requests/request.go:134-147 | an invalid proxy errors after the timeout was already written |
| Requests.SendSettingsPersist | requests/request.go:139-148 | a later call without Timeout/Proxy is sent on the client the earlier call configured |
| RequestDo.DoSpec | request.go:22-59 | reference definition of Do up to `Do(cli, req)`, with the Url it stores; stated by the Do lemmas below |
| RequestDo.Request.constructor | request.go:10-19 | a Request literal holds exactly the given fields |
| RequestDo.Request.Do | request.go:22-59 | writes only Url, and returns the outcome and Url that DoSpec gives |
| RequestDo.DoRejects | request.go:23-26 | UnsupportedMethod exactly for non-GET/POST, Url untouched |
| RequestDo.DoRewritesUrl | request.go:28-30 | non-nil Params rewrite the stored Url for both methods; the request uses it |
| RequestDo.DoTwice | request.go:28-30 | a second Do merges Params into the already merged Url |
| RequestDo.DoTwiceGrows | request.go:28-30 | with non-empty Params every Do lengthens the Url |
| RequestDo.DoGetIgnoresBody | request.go:34-40 | GET ignores Data/Form: no body, the caller's headers |
| RequestDo.DoPostBody | request.go:42-57 | Data before Form; neither is exactly the invalid-POST error |
| RequestDo.DoProxyPanic | request.go:28-32 | a bad proxy panics after the Url was rewritten |
| Reqs.Get | reqs.go:4-11 | Do on a GET literal: URL as given, no body, default client; fails only when NewRequest does |
| Reqs.Post | reqs.go:14-22 | Do on a POST literal: nil data is the invalid-POST error, else JSON body on the default client |
| Reqs.PostForm | reqs.go:25-33 | Do on a POST literal: nil form is the invalid-POST error, else the form body on the default client |
| Workers.GoSpec | worker.go:64-75 | reference definition of Go up to `Do(cli, req)`, with the hooks that ran; stated by GoHookOrder, GoProxyHookOverrides, GoWithoutHooks |
| Workers.Worker.constructor | worker.go:15-22 | stores proxy, timeout and both hooks as given |
| Workers.Worker.GetProxy | worker.go:24-26 | reads the stored proxy; stated by SetProxy |
| Workers.Worker.GetTimeout | worker.go:32-34 | reads the stored timeout; stated by SetTimeout |
| Workers.Worker.SetProxy | worker.go:24-30 | GetProxy returns the new proxy, the timeout is unchanged |
| Workers.Worker.SetTimeout | worker.go:32-38 | GetTimeout returns the new timeout, the proxy is unchanged |
| Workers.Worker.Go | worker.go:64-75 | without modifying the worker, runs the hooks and builds the client as GoSpec says |
| Workers.Worker.Get | worker.go:40-46 | a builder error returns with no hook run; else Go |
| Workers.Worker.Post | worker.go:48-54 | a builder error returns with no hook run; else Go |
| Workers.Worker.PostForm | worker.go:56-62 | a builder error returns with no hook run; else Go |
| Workers.Worker.Dispatch | worker.go:40-62 | the helpers' common tail: a builder error with an empty trace, else GoSpec; stated by the helpers' ensures |
| Workers.GoHookOrder | worker.go:64-75 | request hook first (even before a panic), proxy hook only on a built client; the hooked request is sent |
| Workers.GoProxyHookOverrides | worker_test.go:16-23 | the client sent is the proxy hook applied to the configured client |
| Workers.GoWithoutHooks | worker.go:64-75 | with no hooks the request is sent unchanged on GetClient's client |
| LogPrint.ReplaceFirst | log/print.go:11 | reference definition of `strings.Replace(s, "{}", v, 1)`; stated by ReplaceFirstAt and ReplaceFirstNone |
| LogPrint.Format | log/print.go:9-14 | reference definition of the loop, one ReplaceFirst per value; stated by PyFormat and the Format lemmas |
| LogPrint.PyFormat | log/print.go:9-14 | the loop replaces once per value, in order (Format) |
| LogPrint.ReplaceFirstAt | log/print.go:11 | the leftmost `{}` and only it becomes the value |
| LogPrint.ReplaceFirstNone | log/print.go:11 | with no `{}` the text is unchanged |
| LogPrint.FormatNoPlaceholder | log/print.go:10-12 | a template without `{}` is returned unchanged whatever the values |
| LogPrint.FormatNoValues | log/print.go:9-14 | no values: the template unchanged |
| LogPrint.FormatFillsInOrder | log/print.go:10-12 | value k fills placeholder k; surplus values dropped, surplus placeholders stay `{}`; for text pieces and values with no `{}` of their own that do not end in `{` (a stray `{` elsewhere is fine) |
| LogPrint.FormatKeepsStrayBrace | log/print.go:11 | `"{k: {}}"` with one value fills the slot and keeps the template's own `{` |
| LogPrint.FormatTwoValues | log/print_test.go:9-10 | the test's two-slot template gets name then code, for any values with no `{}` of their own that do not end in `{` |
| LogPrint.FormatValueReopens | log/print.go:11 | a value containing `{}` takes the next value in place of the template's own slot |
| LogPrint.ColorsKeys | log/print.go:38-55 | the table's names are the eight plain colours and their eight light variants |
| LogPrint.ColorsCount | log/print.go:38-55 | the table has sixteen names |
| LogPrint.ColorsCodes | log/print.go:38-55 | its codes are exactly 30-37 and 90-97 |
| LogPrint.Render | log/print.go:58-65 | reference definition of the text Print writes; stated by RenderColoured and the Printer shortcuts |
| LogPrint.RenderColoured | log/print.go:58-65 | the output differs from the plain line exactly for a known colour, and then wraps the content in the code and the reset |
| LogPrint.Red | log/print.go:22-24 | red is code 31 |
| LogPrint.Green | log/print.go:26-28 | green is code 32 |
| LogPrint.Yellow | log/print.go:30-32 | yellow is code 33 |
| LogPrint.Blue | log/print.go:34-36 | blue is code 34 |

## Left out

- Network I/O: `client.Do`, `http.DefaultClient.Do`, `io.ReadAll` and closing the body (tools.go:89-100, toolset.go:22-38 and 56-68, requests/request.go:153-165). Every dispatch stops at the request ready to send.
- response.go and the `Response` accessors of requests/request.go:168-205: thin wrappers over `encoding/json`, which is not part of this model.
- log/log.go: it reads the wall clock and only prints. log/print.go's `Print` is modelled as the string it writes (`Render`); the write itself and `fmt`'s `%v` rendering are not modelled (values are taken as already rendered).
- `http.Header` key canonicalisation: header keys are stored as given, so two keys differing only in case stay distinct.
- The character-level escaping of `url.QueryEscape`, the acceptance rule of `url.Parse`, the failure rule of `http.NewRequest`, the bytes of `json.Marshal`, and the random multipart boundary: all are `Library` fields, fixed but arbitrary.
- The multipart body's byte layout: a form-data body is `Multipart(boundary, fields)`, not the MIME encoding of RFC 7578. The source writes the fields in Go's random map iteration order (requests/request.go:101-103), so its body bytes can differ from call to call; the model's field map drops that order.
- Hooks mutate the request or client they are given; here each is a function from the value before to the value after, so a hook that keeps a reference to its argument is not modelled.
- Concurrency: the model is sequential; two goroutines sharing a `requests.Worker` are out of scope.
- `time.Duration` is an unbounded `int`; only `RandInt`'s 64-bit wrap-around is modelled.
- Tools.RandIntInRange: stated only for ranges whose width fits below MaxInt64, because the source's `max-min+1` wraps around outside them (see Findings).
- Requests.Worker.SetDefaultProxy: a panic is returned as a flag rather than unwinding the caller.
- LogPrint.FormatFillsInOrder: stated only when no text piece and no value contains `{}` or ends in `{`. Otherwise a value or piece can open or become a placeholder of its own, and the positional reading fails; FormatValueReopens shows one such case.
- `rand.New(rand.NewSource(time.Now().UnixNano()))`: the random source is the parameter `draw`, with `Intn(n)` as `draw % n`.

## Findings

| source | as written | input that shows it | evidently intended | confidence | as-written member | corrected member |
|---|---|---|---|---|---|---|
| tools.go:102-106 | `min + r.Intn(max-min+1)` in 64-bit `int` arithmetic | `RandInt(math.MinInt64, math.MaxInt64)`: `max-min+1` wraps to 0 and `Intn` panics; `RandInt(math.MaxInt64, math.MinInt64)` wraps to width 2 and can return `math.MinInt64`, outside the range | a value in [min, max] for every non-empty range, and a refusal for a reversed one | not executed | Tools.RandIntSpanOverflow | Tools.RandIntExact |
