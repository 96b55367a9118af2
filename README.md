# openapi-2-kong declarative config: services, routes and upstreams

This project models the generation pass of `openapi-2-kong` that turns a parsed
OpenAPI 3 document into Kong declarative-config objects:

- `generateServices` / `generateService` (`services.js`) build exactly one
  service from the first server. The service holds one route per operation of
  the document, in path order and then key order within each path item.
- `generateRouteName` (`services.js`) names each route by a three-tier
  precedence: the operation's `x-kong-name`, then its `operationId`, then
  `<api>-<slug>-<method>`.
- `generateUpstreams` (`upstreams.js`) builds at most one upstream from the root
  `x-kong-upstream-defaults`, named after the API. It lists one target per
  server whose resolved host is non-empty.

The collaborators these functions import (`getAllServers`, `fillServerVariables`,
`parseUrl`, `getName`, `generateSlug`, `pathVariablesToRegex`,
`generateGlobalPlugins`, `generatePathPlugins`,
`getRequestValidatorPluginDirective`, `generateOperationPlugins`,
`generateSecurityPlugins`) are fields of the `Common.Helpers` value that every
operation takes as a parameter. Each property proved here therefore holds
whatever those collaborators compute.

Files:

- `js_values.dfy` (module `JsValues`): the JavaScript runtime pieces the pass
  relies on. These are JSON values and their truthiness, and plain objects as
  ordered key/value sequences, so that `Object.keys` order is explicit. They
  also cover property access, object-literal key definition, `toUpperCase`,
  `substring(0, length - 1)`, and `Number(...)` on port strings.
- `common.dfy` (module `Common`): the parsed document (`Api`, path items) and
  the collaborators.
- `services.dfy` (module `Services`): route naming, the selection and order of
  operations, routes, the service, and the imperative generation methods.
  Each method is proved against a specification function.
- `upstreams.dfy` (module `Upstreams`): the upstream, its object form and the
  target-collection loop.
- `base_spec.dfy` (module `BaseSpec`): the three-path document of the
  `services.test.js` suite, with the operations and slug sources it yields.

`generateService` and `generateUpstreams` build a mutable object and push onto
one of its lists inside `for` loops. Here they are methods with those loops.
The object under construction is a datatype value that each iteration
reassigns, and it does not escape before the function returns. The inner loop
of `generateService` (one path item's keys, with its two `continue`s) is the
method `PushPathRoutes`. The body that builds one route is `GenerateRoute`.

## Model

| member | source | states |
|---|---|---|
| Services.GenerateServices | packages/openapi-2-kong/src/declarative-config/services.js:21-31 | Fails with `NoServersDefined` exactly when `getAllServers(api)` is empty. Otherwise it returns exactly one service, the one `generateService` builds from the first server. |
| Services.GenerateService | packages/openapi-2-kong/src/declarative-config/services.js:33-113 | The result is the service of `ServiceFor`: name and host `getName(api)`, the parsed protocol minus its last character, `Number(port \|\| '80')`, the parsed pathname, the global plugins, the tags, and `Routes(api)`, one route per operation in document order. |
| Services.PushPathRoutes | packages/openapi-2-kong/src/declarative-config/services.js:57-110 | One pass of the inner loop over the keys of path item `i` extends the routes of the first `i` path items to those of the first `i + 1`. |
| Services.GenerateRoute | packages/openapi-2-kong/src/declarative-config/services.js:84-106 | The route built in the loop body equals `RouteAt` for that operation. |
| Services.SkipKey | packages/openapi-2-kong/src/declarative-config/services.js:63-82 | A key that is not one of the eight HTTP methods, or whose value is falsy, adds no operation. |
| Services.NextRoute | packages/openapi-2-kong/src/declarative-config/services.js:84-108 | A key that yields a route appends exactly that operation's route after the routes so far. |
| Services.ItemOperationsInKeyOrder | packages/openapi-2-kong/src/declarative-config/services.js:63-83 | Within one path item the operations appear in strictly increasing key order. They are exactly the positions whose key is an HTTP method with a truthy value. |
| Services.OperationsInDocumentOrder | packages/openapi-2-kong/src/declarative-config/services.js:57-83 | All operations are sorted by path, then by key. Each appears once. A position is an operation iff its key is one of get/put/post/delete/options/head/patch/trace and its value is truthy. |
| Services.RouteShape | packages/openapi-2-kong/src/declarative-config/services.js:84-106 | There is one route per operation. The k-th has `methods = [upper(method)]`, `paths = [pathVariablesToRegex(path)]`, `strip_path` false, the given tags, and the `generateRouteName` name. `plugins` is present iff the regular-then-security plugin list is non-empty, and then equals it. The validator passed on is the path item's when truthy, else the global one. |
| Services.RouteNamedFromOwnOperation | packages/openapi-2-kong/src/declarative-config/services.js:57-88 | In a document whose path items have distinct keys, each route is named from the operation its own loop visits. The operation's string `x-kong-name` is slugged if present. Otherwise its non-empty string `operationId` is used. Otherwise the fallback name from the path item applies. |
| Services.ServiceShell | packages/openapi-2-kong/src/declarative-config/services.js:38-55 | Host equals name equals `getName(api)`. A parsed protocol `scheme + ":"` gives protocol `scheme`. An empty parsed port gives port 80, and a decimal port string gives its value. |
| Services.GenerateRouteName | packages/openapi-2-kong/src/declarative-config/services.js:115-135 | Strict precedence: a string `x-kong-name` on a truthy operation gives its slug; else a non-empty string `operationId` gives that id verbatim; else the fallback name. |
| Services.NonStringKongNameFallsThrough | packages/openapi-2-kong/src/declarative-config/services.js:123-129 | A non-string operation `x-kong-name` is ignored. The first two tiers decide as if the key were absent. |
| Services.PlainOperationName | packages/openapi-2-kong/src/declarative-config/services.js:123-134 | An operation with neither `x-kong-name` nor `operationId` is named `<api>-<slug>-<method>` when the slug is non-empty. |
| Services.FallbackRouteName | packages/openapi-2-kong/src/declarative-config/services.js:131-134 | The fallback name starts with `<api>-` and ends with `-<method>`. It is exactly `<api>-<method>` iff the slug is empty; otherwise the slug sits between them. |
| Services.ReplaceInteriorSlashes | packages/openapi-2-kong/src/declarative-config/services.js:132 | Same length. Each `/` becomes `-` except one at the first or last index. Every other character is kept. |
| JsValues.ToUpperAscii | packages/openapi-2-kong/src/declarative-config/services.js:89 | Same length, each character upper-cased pointwise. |
| JsValues.ToNumberOfDecimal | packages/openapi-2-kong/src/declarative-config/services.js:50 | `Number` reads back every decimal port string: `Number(String(n)) === n`. |
| JsValues.Get | packages/openapi-2-kong/src/declarative-config/services.js:58 | Property access is `undefined` iff the key is absent; otherwise it returns a value stored under that key. |
| JsValues.GetUnique | packages/openapi-2-kong/src/declarative-config/services.js:57-58 | In an object (distinct keys), looking up the key of the i-th property returns the i-th value. |
| JsValues.Set | packages/openapi-2-kong/src/declarative-config/upstreams.js:16-21 | Defining a key in an object literal makes it hold the new value and leaves every other key unchanged. An existing key keeps its position and a new key is appended. Distinct keys are preserved. |
| Upstreams.GenerateUpstreams | packages/openapi-2-kong/src/declarative-config/upstreams.js:5-35 | The result is empty iff `api.servers` is absent or empty. Otherwise it holds exactly one upstream over the root defaults (`{}` when absent), with name `getName(api)`, the given tags, and `TargetsOf` the servers as targets. |
| Upstreams.Upstream.ToObject | packages/openapi-2-kong/src/declarative-config/upstreams.js:16-21 | `{...defaults, name, targets, tags}`: `name`, `targets` and `tags` override same-named defaults. Every other default key is carried unchanged, and the key set is the defaults' plus those three. |
| Upstreams.TargetsOf | packages/openapi-2-kong/src/declarative-config/upstreams.js:23-32 | At most one target per server, and no target is empty. |
| Upstreams.TargetsOfAppend | packages/openapi-2-kong/src/declarative-config/upstreams.js:23-32 | Targets keep server order: collecting over `a + b` gives the targets of `a` followed by those of `b`. |
| Upstreams.TargetsOfMembers | packages/openapi-2-kong/src/declarative-config/upstreams.js:27-31 | A host is a target iff it is non-empty and some server resolves to it. |
| Upstreams.TargetsOfAllHosts | packages/openapi-2-kong/src/declarative-config/upstreams.js:23-32 | When every server resolves to a host, the k-th target is the k-th server's host. |
| Upstreams.TargetEntriesFromServers | packages/openapi-2-kong/src/declarative-config/upstreams.js:23-32 | Every `{target: host}` entry comes from a server whose resolved host is that non-empty host. |
| Upstreams.TargetEntriesCoverServers | packages/openapi-2-kong/src/declarative-config/upstreams.js:23-32 | Every server whose resolved host is non-empty has its `{target: host}` entry. |
| Upstreams.TargetEntriesInServerOrder | packages/openapi-2-kong/src/declarative-config/upstreams.js:23-32 | When every server resolves to a host, there is one entry per server and the k-th entry is the k-th server's. |
| Upstreams.TargetsObjectFromServers | packages/openapi-2-kong/src/declarative-config/upstreams.js:16-32 | In the upstream object, `targets` holds one `{target: host}` per server whose resolved host is non-empty. Every entry comes from such a server, and every such server has its entry. There are no more entries than servers. When every server resolves to a host, the k-th entry is the k-th server's. |
| Upstreams.UpstreamNamesServiceHost | packages/openapi-2-kong/src/declarative-config/upstreams.js:18 | For the same document, the upstream's name equals the service's name and its host. |
| BaseSpec.BaseSpecOperations | packages/openapi-2-kong/src/declarative-config/__tests__/services.test.js:9-23 | In the suite's document the operations are `post /cats`, `get /dogs`, `post /dogs`, `get /birds/{id}`, in that order. `summary` and the path-level `x-kong-name` are skipped. |
| BaseSpec.BaseSpecRoutes | packages/openapi-2-kong/src/declarative-config/__tests__/services.test.js:34-63 | The suite document's routes are the routes of those four operations, in that order. |
| BaseSpec.CatsItem | packages/openapi-2-kong/src/declarative-config/__tests__/services.test.js:10-14 | `/cats` is found, its `post` is `{}`, and its own `x-kong-name` "Cat stuff" is the slug source. |
| BaseSpec.DogsItem | packages/openapi-2-kong/src/declarative-config/__tests__/services.test.js:15-19 | `/dogs` is found after `/cats`, with its `get` and `post` operations and the path `/dogs` as slug source. |
| BaseSpec.BirdsItem | packages/openapi-2-kong/src/declarative-config/__tests__/services.test.js:20-22 | `/birds/{id}` is found, its `get` is `{}`, and its slug source is `/birds-{id}`. |
| BaseSpec.BirdsPathReplaced | packages/openapi-2-kong/src/declarative-config/__tests__/services.test.js:57 | `/birds/{id}` becomes `/birds-{id}`: only the interior slash is replaced. |
| BaseSpec.CatsRouteName | packages/openapi-2-kong/src/declarative-config/__tests__/services.test.js:36 | With the suite's name `My_API` and slug `Cat_stuff`, `post /cats` is named `My_API-Cat_stuff-post`. |
| BaseSpec.BirdsRouteName | packages/openapi-2-kong/src/declarative-config/__tests__/services.test.js:57 | With the suite's name `My_API` and slug `birds_id`, `get /birds/{id}` is named `My_API-birds_id-get`. |
| BaseSpec.CatsRoute | packages/openapi-2-kong/src/declarative-config/__tests__/services.test.js:35-41 | The first of the four routes is `post /cats`: it carries the `generateRouteName` name, methods `["POST"]`, its path regex, `strip_path` false and the tags. |
| BaseSpec.BirdsRoute | packages/openapi-2-kong/src/declarative-config/__tests__/services.test.js:56-62 | The last of the four routes is `get /birds/{id}`: it carries the `generateRouteName` name, methods `["GET"]`, its path regex, `strip_path` false and the tags. |
| BaseSpec.FirstAndLastRouteNames | packages/openapi-2-kong/src/declarative-config/__tests__/services.test.js:34-63 | With the suite's name and slugs, the first and last routes are named `My_API-Cat_stuff-post` and `My_API-birds_id-get`. |

## Left out

- The collaborators' internals are not part of this model: `../common`
  (`getAllServers`, `fillServerVariables`, `parseUrl`, `getName`,
  `generateSlug`, `pathVariablesToRegex`), `./plugins` and `./security-plugins`.
  Their source is not available, and the first ones rest on the WHATWG URL
  parser and regular-expression replacement. Each is an arbitrary total
  function in `Common.Helpers`.
- Failures the types rule out are not modelled. The collaborators are total,
  so a `parseUrl` that throws on a malformed server URL cannot abort
  `generateServices` or `generateUpstreams`. `api.paths` is always present and
  every path item is an object, so the `TypeError` that `Object.keys`
  (`services.js:57,63`) raises on a missing `paths` or a `null` path item
  cannot arise. JSON numbers are integers, so the truthiness of a fractional
  or `NaN` value cannot be expressed.
- Default ports: the service's port 443 for `https` URLs in the test suite comes
  from `parseUrl`. `generateService` itself only supplies `'80'` when the parsed
  port is empty, and that is what is modelled.
- The thrown `Error('no servers defined in spec')` is the `NoServersDefined`
  failure result. The message text is not modelled.
- Services.GenerateRouteName: a truthy `operationId` that is not a string (a
  number, an object) is returned verbatim by the source. The model takes only
  a string `operationId` as the second tier, because route names here are
  strings.
- Services.PathSlugSource: a truthy path-level `x-kong-name` that is not a
  string is passed to `generateSlug` by the source. The model uses only a
  non-empty string, because `generateSlug` takes a string here.
- JsValues.ToNumber: `Number(...)` is modelled for strings of decimal digits,
  which is what a parsed URL port is. Whitespace, signs, hexadecimal and
  fractional forms all map to `NaN`; floating point is not modelled.
- `Object.keys` lists integer-like keys first in ascending order. Here the key
  order is the order of the sequence as given.
- Upstreams.GenerateUpstreams: a truthy `x-kong-upstream-defaults` that is not
  an object is spread differently by JavaScript (e.g. a string spreads its
  characters). The model takes the defaults as an object or absent.
- Root `x-kong-route-defaults` merging and the path-level `strip_path`
  override, which the test suite exercises, are not performed by
  `services.js`, so they are not part of `GenerateService`.
- Flow type annotations and casts (`$FlowFixMe`) have no behaviour and are not
  modelled.
- Mutation in place: the service and the upstream under construction are
  datatype values that are reassigned. No alias to them exists before they are
  returned, so this loses nothing observable.

Three behaviours of the code worth noting:

- `generateUpstreams` reads only the root `servers` list, while
  `generateServices` uses `getAllServers(api)`.
- The upstream overlay also overwrites a `targets` key of the defaults, not
  only `name` and `tags`.
- `generateServices` returns a one-element list rather than a single service.
