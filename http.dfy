/**
 * The parts of an incoming HTTP request that the error handler and the
 * logger read. In the application these come from the ambient `request()`
 * and `$request->route()`; here they are plain values.
 */
module Http {
  import opened Wrappers
  import opened PhpValue

  /**
   * A matched route: the methods it was declared for and its URI as declared
   * (`$route->uri`). That is the route's pattern, not the requested path, so
   * a parameterised route keeps its `{id}` placeholders.
   */
  datatype Route = Route(methods: seq<string>, uri: string)

  datatype HttpRequest = HttpRequest(
    route: Option<Route>,    // null when no route matched
    url: string,             // `$request->url()`
    verb: string,            // `$request->getMethod()`
    query: Value,            // `$request->query()`
    body: Value,             // `$request->post()`
    origin: Option<string>,  // the `Origin` header
    referer: Option<string>, // the `Referer` header
    ip: Option<string>)      // `$request->ip()`

  /** `$route->methods[0] ?? fallback`. */
  function FirstMethodOr(route: Route, fallback: string): (m: string)
    ensures |route.methods| > 0 ==> m == route.methods[0]
    ensures |route.methods| == 0 ==> m == fallback
  {
    if |route.methods| > 0 then route.methods[0] else fallback
  }
}
