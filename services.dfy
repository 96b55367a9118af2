/**
  Service and route generation (`services.js`): one service built from the
  first server, holding one route per operation of the document, in path order
  and then key order within each path item.
 */
module Services {
  import opened JsValues
  import opened Common

  /** A generated route; `plugins` is `None` when the route has no `plugins` key. */
  datatype Route = Route(
    tags: seq<string>,
    name: string,
    methods: seq<string>,
    paths: seq<string>,
    stripPath: bool,
    plugins: Option<seq<Json>>)

  datatype Service = Service(
    name: string,
    protocol: string,
    host: string,
    port: Number,
    path: string,
    plugins: seq<Json>,
    routes: seq<Route>,
    tags: seq<string>)

  datatype ServiceError = NoServersDefined

  datatype Result<T> = Success(value: T) | Failure(error: ServiceError)

  /** The eight path-item keys that name an operation. */
  predicate IsHttpMethod(key: string) {
    key == "get" || key == "put" || key == "post" || key == "delete" ||
    key == "options" || key == "head" || key == "patch" || key == "trace"
  }

  /** A path-item entry that yields a route: an HTTP method key with a truthy value. */
  predicate ProducesRoute(entry: (string, Json)) {
    IsHttpMethod(entry.0) && Truthy(entry.1)
  }

  // ---------------------------------------------------------------------------
  // Route names
  // ---------------------------------------------------------------------------

  /** `s.replace(/(?!^)\/(?!$)/g, '-')`: every `/` except one at the first or last index becomes `-`. */
  function ReplaceInteriorSlashes(s: string): (r: string)
    ensures |r| == |s|
    ensures forall i | 0 <= i < |s| ::
      r[i] == (if s[i] == '/' && 0 < i < |s| - 1 then '-' else s[i])
  {
    if |s| <= 2 then s
    else [s[0]] + SlashesToDashes(s[1..|s| - 1]) + [s[|s| - 1]]
  }

  function SlashesToDashes(s: string): (r: string)
    ensures |r| == |s|
    ensures forall i | 0 <= i < |s| :: r[i] == (if s[i] == '/' then '-' else s[i])
  {
    if s == [] then [] else [if s[0] == '/' then '-' else s[0]] + SlashesToDashes(s[1..])
  }

  /** First tier: the operation is truthy and its `x-kong-name` is a string. */
  function StringKongName(operation: Option<Json>): Option<string> {
    if operation.Some? && Truthy(operation.value) then
      var kongName := Field(operation.value, "x-kong-name");
      if kongName.Some? && kongName.value.Str? then Some(kongName.value.s) else None
    else None
  }

  /** Second tier: the operation is truthy and its `operationId` is truthy (a non-empty string). */
  function TruthyOperationId(operation: Option<Json>): Option<string> {
    if operation.Some? && Truthy(operation.value) then
      var id := Field(operation.value, "operationId");
      if id.Some? && id.value.Str? && Truthy(id.value) then Some(id.value.s) else None
    else None
  }

  /** What the fallback slug is made from: the path item's `x-kong-name`, else the path with interior slashes replaced. */
  function PathSlugSource(routePath: string, pathItem: PathItem): string {
    var kongName := Get(pathItem, "x-kong-name");
    if kongName.Some? && kongName.value.Str? && Truthy(kongName.value) then kongName.value.s
    else ReplaceInteriorSlashes(routePath)
  }

  /**
    Third tier: `<api>-<slug>-<method>`, or `<api>-<method>` when the slug is
    empty. The name always starts with the API name and ends with the method,
    and the slug is recoverable from between them.
   */
  function FallbackRouteName(h: Helpers, apiName: string, routePath: string, pathItem: PathItem, methodKey: string): (r: string)
    ensures |r| >= |apiName| + |methodKey| + 1
    ensures r[..|apiName| + 1] == apiName + "-"
    ensures r[|r| - |methodKey| - 1..] == "-" + methodKey
    ensures r == apiName + "-" + methodKey <==> h.generateSlug(PathSlugSource(routePath, pathItem)) == ""
    ensures h.generateSlug(PathSlugSource(routePath, pathItem)) != "" ==>
      r[|apiName| + 1..|r| - |methodKey| - 1] == h.generateSlug(PathSlugSource(routePath, pathItem))
  {
    var pathSlug := h.generateSlug(PathSlugSource(routePath, pathItem));
    apiName + (if pathSlug != "" then "-" + pathSlug else "") + "-" + methodKey
  }

  /**
    `generateRouteName(api, routePath, method)`. The caller always passes a key
    of `api.paths`. Precedence: a string `x-kong-name` on the operation, then a
    truthy `operationId`, then the fallback name.
   */
  function GenerateRouteName(h: Helpers, api: Api, routePath: string, methodKey: string): (r: string)
    requires routePath in Keys(api.paths)
    ensures var pathItem := Get(api.paths, routePath).value;
      var operation := Get(pathItem, methodKey);
      && (StringKongName(operation).Some? ==> r == h.generateSlug(StringKongName(operation).value))
      && (StringKongName(operation).None? && TruthyOperationId(operation).Some? ==>
            r == TruthyOperationId(operation).value)
      && (StringKongName(operation).None? && TruthyOperationId(operation).None? ==>
            r == FallbackRouteName(h, h.getName(api), routePath, pathItem, methodKey))
  {
    var name := h.getName(api);
    var pathItem := Get(api.paths, routePath).value;
    var operation := Get(pathItem, methodKey);
    if operation.Some? && Truthy(operation.value) && Field(operation.value, "x-kong-name").Some?
       && Field(operation.value, "x-kong-name").value.Str? then
      h.generateSlug(Field(operation.value, "x-kong-name").value.s)
    else if operation.Some? && Truthy(operation.value) && Field(operation.value, "operationId").Some?
       && Truthy(Field(operation.value, "operationId").value) && Field(operation.value, "operationId").value.Str? then
      Field(operation.value, "operationId").value.s
    else
      FallbackRouteName(h, name, routePath, pathItem, methodKey)
  }

  /** An `x-kong-name` that is not a string is ignored: the operation names the route as if the key were absent. */
  lemma NonStringKongNameFallsThrough(fields: Object)
    requires Get(fields, "x-kong-name").Some? && !Get(fields, "x-kong-name").value.Str?
    ensures StringKongName(Some(Obj(fields))) == None
    ensures StringKongName(Some(Obj(Remove(fields, "x-kong-name")))) == None
    ensures TruthyOperationId(Some(Obj(fields))) == TruthyOperationId(Some(Obj(Remove(fields, "x-kong-name"))))
  {
    assert Get(Remove(fields, "x-kong-name"), "operationId") == Get(fields, "operationId");
  }

  /**
    An operation with neither `x-kong-name` nor `operationId` takes the
    fallback name, `<api>-<slug>-<method>` when the slug is non-empty.
   */
  lemma PlainOperationName(h: Helpers, api: Api, routePath: string, methodKey: string, item: PathItem, fields: Object)
    requires Get(api.paths, routePath) == Some(item)
    requires Get(item, methodKey) == Some(Obj(fields))
    requires Get(fields, "x-kong-name") == None && Get(fields, "operationId") == None
    ensures routePath in Keys(api.paths)
    ensures var slug := h.generateSlug(PathSlugSource(routePath, item));
      slug != "" ==> GenerateRouteName(h, api, routePath, methodKey) == h.getName(api) + "-" + slug + "-" + methodKey
  {
  }

  // ---------------------------------------------------------------------------
  // Which entries of the document become routes, and in what order
  // ---------------------------------------------------------------------------

  /** The entry at `keyIndex` of the path item at `pathIndex` of `api.paths`. */
  datatype Position = Position(pathIndex: nat, keyIndex: nat)

  predicate ValidPosition(paths: seq<(string, PathItem)>, p: Position) {
    p.pathIndex < |paths| && p.keyIndex < |paths[p.pathIndex].1|
  }

  predicate AllValid(paths: seq<(string, PathItem)>, ops: seq<Position>) {
    forall k | 0 <= k < |ops| :: ValidPosition(paths, ops[k])
  }

  predicate IsOperationAt(paths: seq<(string, PathItem)>, p: Position) {
    ValidPosition(paths, p) && ProducesRoute(paths[p.pathIndex].1[p.keyIndex])
  }

  /** Document order: by path, then by key within the path item. */
  predicate Precedes(p: Position, q: Position) {
    p.pathIndex < q.pathIndex || (p.pathIndex == q.pathIndex && p.keyIndex < q.keyIndex)
  }

  /** The route-producing entries among the first `n` keys of path item `i`. */
  function ItemOperations(paths: seq<(string, PathItem)>, i: nat, n: nat): (r: seq<Position>)
    requires i < |paths| && n <= |paths[i].1|
    ensures AllValid(paths, r)
  {
    if n == 0 then []
    else
      ItemOperations(paths, i, n - 1)
      + (if ProducesRoute(paths[i].1[n - 1]) then [Position(i, n - 1)] else [])
  }

  /** The route-producing entries of the first `n` path items. */
  function OperationsUpTo(paths: seq<(string, PathItem)>, n: nat): (r: seq<Position>)
    requires n <= |paths|
    ensures AllValid(paths, r)
  {
    if n == 0 then []
    else OperationsUpTo(paths, n - 1) + ItemOperations(paths, n - 1, |paths[n - 1].1|)
  }

  /** The operations met before key `j` of path item `i`. */
  function OperationsBefore(paths: seq<(string, PathItem)>, i: nat, j: nat): (r: seq<Position>)
    requires i < |paths| && j <= |paths[i].1|
    ensures AllValid(paths, r)
  {
    OperationsUpTo(paths, i) + ItemOperations(paths, i, j)
  }

  function Operations(paths: seq<(string, PathItem)>): (r: seq<Position>) {
    OperationsUpTo(paths, |paths|)
  }

  lemma {:induction false} ItemOperationsInKeyOrder(paths: seq<(string, PathItem)>, i: nat, n: nat)
    requires i < |paths| && n <= |paths[i].1|
    ensures var ops := ItemOperations(paths, i, n);
      && (forall a, b | 0 <= a < b < |ops| :: ops[a].keyIndex < ops[b].keyIndex)
      && (forall p :: p in ops <==> p.pathIndex == i && p.keyIndex < n && IsOperationAt(paths, p))
  {
    if n > 0 {
      ItemOperationsInKeyOrder(paths, i, n - 1);
    }
  }

  /**
    The operations come out in document order, each exactly once, and they are
    exactly the entries whose key is an HTTP method and whose value is truthy.
   */
  lemma {:induction false} OperationsInDocumentOrder(paths: seq<(string, PathItem)>, n: nat)
    requires n <= |paths|
    ensures var ops := OperationsUpTo(paths, n);
      && (forall a, b | 0 <= a < b < |ops| :: Precedes(ops[a], ops[b]))
      && (forall p :: p in ops <==> p.pathIndex < n && IsOperationAt(paths, p))
  {
    if n > 0 {
      OperationsInDocumentOrder(paths, n - 1);
      ItemOperationsInKeyOrder(paths, n - 1, |paths[n - 1].1|);
    }
  }

  // ---------------------------------------------------------------------------
  // Routes
  // ---------------------------------------------------------------------------

  /** The route built for the entry at `p`. */
  function RouteAt(h: Helpers, api: Api, tags: seq<string>, globalPlugins: GlobalPlugins, p: Position): Route
    requires ValidPosition(api.paths, p)
  {
    var (routePath, pathItem) := api.paths[p.pathIndex];
    var (methodKey, operation) := pathItem[p.keyIndex];
    KeysAt(api.paths, p.pathIndex);
    var regularPlugins := h.generateOperationPlugins(
      operation,
      h.generatePathPlugins(pathItem),
      Or(h.getRequestValidatorPluginDirective(pathItem), globalPlugins.requestValidatorPlugin));
    var plugins := regularPlugins + h.generateSecurityPlugins(operation, api);
    Route(
      tags,
      GenerateRouteName(h, api, routePath, methodKey),
      [ToUpperAscii(methodKey)],
      [h.pathVariablesToRegex(routePath)],
      false,
      if |plugins| > 0 then Some(plugins) else None)
  }

  /** `xs.map(f)`. */
  function MapSeq<A, B>(f: A --> B, xs: seq<A>): (r: seq<B>)
    requires forall k | 0 <= k < |xs| :: f.requires(xs[k])
    ensures |r| == |xs|
    ensures forall k | 0 <= k < |xs| :: r[k] == f(xs[k])
  {
    seq(|xs|, k requires 0 <= k < |xs| => f(xs[k]))
  }

  lemma MapSeqSnoc<A, B>(f: A --> B, xs: seq<A>, x: A)
    requires forall k | 0 <= k < |xs| :: f.requires(xs[k])
    requires f.requires(x)
    ensures MapSeq(f, xs + [x]) == MapSeq(f, xs) + [f(x)]
  {
  }

  function RouteFor(h: Helpers, api: Api, tags: seq<string>, globalPlugins: GlobalPlugins): Position --> Route {
    p requires ValidPosition(api.paths, p) => RouteAt(h, api, tags, globalPlugins, p)
  }

  function RoutesAt(h: Helpers, api: Api, tags: seq<string>, globalPlugins: GlobalPlugins, ops: seq<Position>): (r: seq<Route>)
    requires AllValid(api.paths, ops)
  {
    MapSeq(RouteFor(h, api, tags, globalPlugins), ops)
  }

  /** A key that yields no route leaves the operations met so far unchanged. */
  lemma SkipKey(paths: seq<(string, PathItem)>, i: nat, j: nat)
    requires i < |paths| && j < |paths[i].1|
    requires !ProducesRoute(paths[i].1[j])
    ensures OperationsBefore(paths, i, j + 1) == OperationsBefore(paths, i, j)
  {
  }

  /** A key that yields a route appends that route. */
  lemma NextRoute(h: Helpers, api: Api, tags: seq<string>, globalPlugins: GlobalPlugins, i: nat, j: nat)
    requires i < |api.paths| && j < |api.paths[i].1|
    requires ProducesRoute(api.paths[i].1[j])
    ensures RoutesAt(h, api, tags, globalPlugins, OperationsBefore(api.paths, i, j + 1))
      == RoutesAt(h, api, tags, globalPlugins, OperationsBefore(api.paths, i, j)) + [RouteAt(h, api, tags, globalPlugins, Position(i, j))]
  {
    var before := OperationsBefore(api.paths, i, j);
    assert OperationsBefore(api.paths, i, j + 1) == before + [Position(i, j)];
    MapSeqSnoc(RouteFor(h, api, tags, globalPlugins), before, Position(i, j));
  }

  /** Finishing path item `i` completes the operations of the first `i + 1` path items. */
  lemma RoutesAtNextPath(paths: seq<(string, PathItem)>, i: nat)
    requires i < |paths|
    ensures OperationsBefore(paths, i, |paths[i].1|) == OperationsUpTo(paths, i + 1)
    ensures i + 1 < |paths| ==> OperationsBefore(paths, i + 1, 0) == OperationsUpTo(paths, i + 1)
  {
    assert ItemOperations(paths, i, |paths[i].1|) == OperationsUpTo(paths, i + 1)[|OperationsUpTo(paths, i)|..];
  }

  /** The routes of the generated service. */
  function Routes(h: Helpers, api: Api, tags: seq<string>): seq<Route> {
    RoutesAt(h, api, tags, h.generateGlobalPlugins(api), Operations(api.paths))
  }

  /**
    Every route has one upper-cased method, one compiled path, `strip_path`
    false and the given tags; its `plugins` key is present exactly when the
    regular plugins followed by the security plugins form a non-empty list, and
    then holds that list. The request validator handed to operation-plugin
    generation is the path item's when truthy, the global one otherwise.
   */
  lemma RouteShape(h: Helpers, api: Api, tags: seq<string>, k: nat)
    requires k < |Operations(api.paths)|
    ensures |Routes(h, api, tags)| == |Operations(api.paths)|
    ensures var p := Operations(api.paths)[k];
      var route := Routes(h, api, tags)[k];
      var (routePath, pathItem) := api.paths[p.pathIndex];
      var (methodKey, operation) := pathItem[p.keyIndex];
      var validator := h.getRequestValidatorPluginDirective(pathItem);
      var globalValidator := h.generateGlobalPlugins(api).requestValidatorPlugin;
      var plugins := h.generateOperationPlugins(
          operation,
          h.generatePathPlugins(pathItem),
          if validator.Some? && Truthy(validator.value) then validator else globalValidator)
        + h.generateSecurityPlugins(operation, api);
      && IsHttpMethod(methodKey) && Truthy(operation)
      && routePath in Keys(api.paths)
      && route.methods == [ToUpperAscii(methodKey)]
      && route.paths == [h.pathVariablesToRegex(routePath)]
      && !route.stripPath
      && route.tags == tags
      && route.name == GenerateRouteName(h, api, routePath, methodKey)
      && (route.plugins.Some? <==> |plugins| > 0)
      && (route.plugins.Some? ==> route.plugins.value == plugins)
  {
    var p := Operations(api.paths)[k];
    OperationsInDocumentOrder(api.paths, |api.paths|);
    assert p in Operations(api.paths);
    KeysAt(api.paths, p.pathIndex);
  }

  /**
    In a document whose path items are objects (distinct keys), the operation
    that `generateRouteName` looks up by path and method is the very entry the
    route loop is visiting, so each route is named from its own operation.
   */
  lemma RouteNamedFromOwnOperation(h: Helpers, api: Api, tags: seq<string>, k: nat)
    requires UniqueKeys(api.paths)
    requires forall i | 0 <= i < |api.paths| :: UniqueKeys(api.paths[i].1)
    requires k < |Operations(api.paths)|
    ensures |Routes(h, api, tags)| == |Operations(api.paths)|
    ensures var p := Operations(api.paths)[k];
      var name := Routes(h, api, tags)[k].name;
      var (routePath, pathItem) := api.paths[p.pathIndex];
      var (methodKey, operation) := pathItem[p.keyIndex];
      && (StringKongName(Some(operation)).Some? ==> name == h.generateSlug(StringKongName(Some(operation)).value))
      && (StringKongName(Some(operation)).None? && TruthyOperationId(Some(operation)).Some? ==>
            name == TruthyOperationId(Some(operation)).value)
      && (StringKongName(Some(operation)).None? && TruthyOperationId(Some(operation)).None? ==>
            name == FallbackRouteName(h, h.getName(api), routePath, pathItem, methodKey))
  {
    var p := Operations(api.paths)[k];
    RouteShape(h, api, tags, k);
    OperationsInDocumentOrder(api.paths, |api.paths|);
    assert p in Operations(api.paths);
    GetUnique(api.paths, p.pathIndex);
    GetUnique(api.paths[p.pathIndex].1, p.keyIndex);
  }

  // ---------------------------------------------------------------------------
  // The service
  // ---------------------------------------------------------------------------

  /** The service that `generateService(server, api, tags)` builds. */
  predicate ServiceFor(h: Helpers, server: Json, api: Api, tags: seq<string>, s: Service) {
    var parsedUrl := h.parseUrl(h.fillServerVariables(server));
    && s.name == h.getName(api)
    && s.host == s.name
    && s.protocol == DropLastChar(parsedUrl.protocol)
    && s.port == ToNumber(if parsedUrl.port != "" then parsedUrl.port else "80")
    && s.path == parsedUrl.pathname
    && s.plugins == h.generateGlobalPlugins(api).plugins
    && s.routes == Routes(h, api, tags)
    && s.tags == tags
  }

  /**
    The service's host is its name; its protocol is the parsed scheme without
    the trailing `:`; its port is the parsed port read as a number, and 80 when
    the URL gives none.
   */
  lemma ServiceShell(h: Helpers, server: Json, api: Api, tags: seq<string>, s: Service)
    requires ServiceFor(h, server, api, tags, s)
    ensures s.host == s.name == h.getName(api)
    ensures forall scheme :: h.parseUrl(h.fillServerVariables(server)).protocol == scheme + ":" ==> s.protocol == scheme
    ensures h.parseUrl(h.fillServerVariables(server)).port == "" ==> s.port == Int(80)
    ensures forall n: nat :: h.parseUrl(h.fillServerVariables(server)).port == DecimalString(n) ==> s.port == Int(n)
  {
    var parsedUrl := h.parseUrl(h.fillServerVariables(server));
    forall scheme | parsedUrl.protocol == scheme + ":" ensures s.protocol == scheme {
      assert parsedUrl.protocol[..|parsedUrl.protocol| - 1] == scheme;
    }
    ToNumberOfDecimal(80);
    assert DecimalString(80) == "80";
    forall n: nat | parsedUrl.port == DecimalString(n) ensures s.port == Int(n) {
      ToNumberOfDecimal(n);
    }
  }

  /**
    The body of the route loop for the operation at `(i, j)`: the base route,
    then the regular and security plugins, attached only when there are any.
   */
  method GenerateRoute(
    h: Helpers, api: Api, tags: seq<string>, globalPlugins: GlobalPlugins,
    pathValidatorPlugin: Option<Json>, pathPlugins: seq<Json>, i: nat, j: nat)
    returns (route: Route)
    requires i < |api.paths| && j < |api.paths[i].1|
    requires pathValidatorPlugin == h.getRequestValidatorPluginDirective(api.paths[i].1)
    requires pathPlugins == h.generatePathPlugins(api.paths[i].1)
    ensures route == RouteAt(h, api, tags, globalPlugins, Position(i, j))
  {
    var (routePath, pathItem) := api.paths[i];
    var (methodKey, operation) := pathItem[j];
    KeysAt(api.paths, i);
    var fullPathRegex := h.pathVariablesToRegex(routePath);
    route := Route(tags, GenerateRouteName(h, api, routePath, methodKey), [ToUpperAscii(methodKey)], [fullPathRegex], false, None);
    var securityPlugins := h.generateSecurityPlugins(operation, api);
    var regularPlugins := h.generateOperationPlugins(
      operation, pathPlugins, Or(pathValidatorPlugin, globalPlugins.requestValidatorPlugin));
    var plugins := regularPlugins + securityPlugins;
    if |plugins| > 0 {
      route := route.(plugins := Some(plugins));
    }
  }

  /**
    The inner loop of `generateService` for path item `i`: walks its keys in
    order, skips those that are not HTTP methods or whose value is falsy, and
    pushes one route for each of the others.
   */
  method PushPathRoutes(
    h: Helpers, api: Api, tags: seq<string>, globalPlugins: GlobalPlugins, i: nat, routes: seq<Route>)
    returns (routes': seq<Route>)
    requires i < |api.paths|
    requires routes == RoutesAt(h, api, tags, globalPlugins, OperationsUpTo(api.paths, i))
    ensures routes' == RoutesAt(h, api, tags, globalPlugins, OperationsUpTo(api.paths, i + 1))
  {
    var (routePath, pathItem) := api.paths[i];
    var pathValidatorPlugin := h.getRequestValidatorPluginDirective(pathItem);
    var pathPlugins := h.generatePathPlugins(pathItem);
    routes' := routes;
    assert OperationsBefore(api.paths, i, 0) == OperationsUpTo(api.paths, i);
    for j := 0 to |pathItem|
      invariant routes' == RoutesAt(h, api, tags, globalPlugins, OperationsBefore(api.paths, i, j))
    {
      var (methodKey, operation) := pathItem[j];
      if !IsHttpMethod(methodKey) {
        SkipKey(api.paths, i, j);
        continue;
      }
      if !Truthy(operation) {
        SkipKey(api.paths, i, j);
        continue;
      }
      var route := GenerateRoute(h, api, tags, globalPlugins, pathValidatorPlugin, pathPlugins, i, j);
      NextRoute(h, api, tags, globalPlugins, i, j);
      routes' := routes' + [route];
    }
    RoutesAtNextPath(api.paths, i);
  }

  /** `generateService`: the service shell, then one route per operation, pushed in document order. */
  method GenerateService(h: Helpers, server: Json, api: Api, tags: seq<string>) returns (s: Service)
    ensures ServiceFor(h, server, api, tags, s)
  {
    var serverUrl := h.fillServerVariables(server);
    var name := h.getName(api);
    var parsedUrl := h.parseUrl(serverUrl);
    var globalPlugins := h.generateGlobalPlugins(api);
    s := Service(
      name,
      DropLastChar(parsedUrl.protocol),
      name,
      ToNumber(if parsedUrl.port != "" then parsedUrl.port else "80"),
      parsedUrl.pathname,
      globalPlugins.plugins,
      [],
      tags);
    var routes := s.routes;
    for i := 0 to |api.paths|
      invariant routes == RoutesAt(h, api, tags, globalPlugins, OperationsUpTo(api.paths, i))
    {
      routes := PushPathRoutes(h, api, tags, globalPlugins, i, routes);
    }
    s := s.(routes := routes);
  }

  /** `generateServices`: no servers is an error; otherwise exactly one service, built from the first server. */
  method GenerateServices(h: Helpers, api: Api, tags: seq<string>) returns (r: Result<seq<Service>>)
    ensures r.Failure? <==> h.getAllServers(api) == []
    ensures r.Failure? ==> r.error == NoServersDefined
    ensures r.Success? ==> |r.value| == 1 && ServiceFor(h, h.getAllServers(api)[0], api, tags, r.value[0])
  {
    var servers := h.getAllServers(api);
    if |servers| == 0 {
      return Failure(NoServersDefined);
    }
    var service := GenerateService(h, servers[0], api, tags);
    return Success([service]);
  }
}
