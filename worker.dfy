/**
 * worker.go of package greqs: a Worker holding a proxy, a timeout and two
 * optional hooks. Its helpers build a request with the make.go builders
 * and hand it to Go, which runs the request hook, builds the client with
 * GetClient, runs the proxy hook on that client and sends.
 *
 * A hook mutates the request or client it is given; here it is the
 * function from the value before to the value after.
 */
module Workers {
  import opened Http
  import Make
  import Tools

  type RequestHook = HttpRequest -> HttpRequest
  type ProxyHook = Client -> Client

  /** Which hooks ran, in order. */
  datatype Event = RequestHookRan | ProxyHookRan

  /** The outcome of Go and the hooks it called on the way. */
  datatype Run = Run(outcome: Outcome, trace: seq<Event>)

  /** Go, up to `Do(cli, req)`, as a function of the worker's settings. */
  function GoSpec(lib: Library, proxy: string, timeout: int,
                  requestHook: Option<RequestHook>, proxyHook: Option<ProxyHook>, req: HttpRequest): Run
  {
    var sent := if requestHook.Some? then requestHook.value(req) else req;
    var before := if requestHook.Some? then [RequestHookRan] else [];
    match Tools.GetClient(lib, proxy, timeout)
    case Err(e) => Run(Panicked(e), before)
    case Ok(cli) =>
      if proxyHook.Some? then Run(Ready(proxyHook.value(cli), sent), before + [ProxyHookRan])
      else Run(Ready(cli, sent), before)
  }

  class Worker {
    var proxy: string
    var timeout: int
    var requestHook: Option<RequestHook>
    var proxyHook: Option<ProxyHook>

    /** NewWorker: stores its four arguments. */
    constructor (proxy: string, timeout: int, requestHook: Option<RequestHook>, proxyHook: Option<ProxyHook>)
      ensures this.proxy == proxy && this.timeout == timeout
      ensures this.requestHook == requestHook && this.proxyHook == proxyHook
    {
      this.proxy := proxy;
      this.timeout := timeout;
      this.requestHook := requestHook;
      this.proxyHook := proxyHook;
    }

    function GetProxy(): string
      reads this
    {
      proxy
    }

    function GetTimeout(): int
      reads this
    {
      timeout
    }

    /** SetProxy: GetProxy returns the new proxy; nothing else changes. */
    method SetProxy(p: string)
      modifies this`proxy
      ensures GetProxy() == p && GetTimeout() == old(GetTimeout())
    {
      proxy := p;
    }

    /** SetTimeout: GetTimeout returns the new timeout; nothing else changes. */
    method SetTimeout(t: int)
      modifies this`timeout
      ensures GetTimeout() == t && GetProxy() == old(GetProxy())
    {
      timeout := t;
    }

    /** Go: reads the settings as they are at the call; writes no field. */
    method Go(lib: Library, req: HttpRequest) returns (run: Run)
      ensures run == GoSpec(lib, proxy, timeout, requestHook, proxyHook, req)
    {
      var sent := req;
      var trace: seq<Event> := [];
      if requestHook.Some? {
        sent := requestHook.value(sent);
        trace := trace + [RequestHookRan];
      }
      var built := Tools.GetClient(lib, proxy, timeout);
      if built.Err? {
        return Run(Panicked(built.error), trace);
      }
      var cli := built.value;
      if proxyHook.Some? {
        cli := proxyHook.value(cli);
        trace := trace + [ProxyHookRan];
      }
      run := Run(Ready(cli, sent), trace);
    }

    /** The helpers: a builder error returns before any hook runs. */
    method Get(lib: Library, url: string, headers: StrMap) returns (run: Run)
      ensures run == Dispatch(lib, Make.MakeGetRequest(lib, url, headers))
    {
      var built := Make.MakeGetRequest(lib, url, headers);
      if built.Err? {
        return Run(Failed(built.error), []);
      }
      run := Go(lib, built.value);
    }

    method Post(lib: Library, url: string, headers: StrMap, data: Option<Data>) returns (run: Run)
      ensures run == Dispatch(lib, Make.MakePostRequest(lib, url, headers, data))
    {
      var built := Make.MakePostRequest(lib, url, headers, data);
      if built.Err? {
        return Run(Failed(built.error), []);
      }
      run := Go(lib, built.value);
    }

    method PostForm(lib: Library, url: string, headers: StrMap, form: StrMap) returns (run: Run)
      ensures run == Dispatch(lib, Make.MakePostFormRequest(lib, url, headers, form))
    {
      var built := Make.MakePostFormRequest(lib, url, headers, form);
      if built.Err? {
        return Run(Failed(built.error), []);
      }
      run := Go(lib, built.value);
    }

    /** A built request goes to Go; a build error is returned with no hook run. */
    function Dispatch(lib: Library, built: Result<HttpRequest>): Run
      reads this
    {
      match built
      case Err(e) => Run(Failed(e), [])
      case Ok(req) => GoSpec(lib, proxy, timeout, requestHook, proxyHook, req)
    }
  }

  /**
   * The hooks run in order: the request hook first (even when the client
   * then panics), the proxy hook only on a built client; what is sent is
   * the hooked request on the hooked client.
   */
  lemma GoHookOrder(lib: Library, proxy: string, timeout: int,
                    requestHook: Option<RequestHook>, proxyHook: Option<ProxyHook>, req: HttpRequest)
    ensures var run := GoSpec(lib, proxy, timeout, requestHook, proxyHook, req);
      && (RequestHookRan in run.trace <==> requestHook.Some?)
      && (ProxyHookRan in run.trace <==> proxyHook.Some? && Tools.GetClient(lib, proxy, timeout).Ok?)
      && (run.trace == [] || run.trace == [RequestHookRan] || run.trace == [ProxyHookRan] || run.trace == [RequestHookRan, ProxyHookRan])
      && (run.outcome.Panicked? <==> Tools.GetClient(lib, proxy, timeout).Err?)
      && (run.outcome.Ready? ==> run.outcome.request == if requestHook.Some? then requestHook.value(req) else req)
  {
  }

  /** The proxy hook has the last word on the client: it can undo the configured proxy. */
  lemma GoProxyHookOverrides(lib: Library, proxy: string, timeout: int,
                             requestHook: Option<RequestHook>, hook: ProxyHook, req: HttpRequest)
    requires Tools.GetClient(lib, proxy, timeout).Ok?
    ensures GoSpec(lib, proxy, timeout, requestHook, Some(hook), req).outcome.client
         == hook(Tools.GetClient(lib, proxy, timeout).value)
  {
  }

  /** Without hooks Go sends the request unchanged on GetClient's client. */
  lemma GoWithoutHooks(lib: Library, proxy: string, timeout: int, req: HttpRequest)
    ensures var run := GoSpec(lib, proxy, timeout, None, None, req);
      run.trace == [] &&
      (run.outcome.Ready? <==> Tools.GetClient(lib, proxy, timeout).Ok?) &&
      (run.outcome.Ready? ==> Ok(run.outcome.client) == Tools.GetClient(lib, proxy, timeout) && run.outcome.request == req)
  {
  }
}
