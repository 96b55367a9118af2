/**
  The parsed OpenAPI 3 document as the generation pass sees it, and the
  collaborators it calls from `../common`, `./plugins` and `./security-plugins`.
  Those collaborators are not part of this model: each is a field of `Helpers`,
  so every property proved here holds whatever they compute.
 */
module Common {
  import opened JsValues

  /** A path item: its keys (`get`, `summary`, `x-kong-name`, ...) in key order. */
  type PathItem = Object

  /**
    The document root. `paths` keeps `Object.keys(api.paths)` order; `servers`
    is `None` when the key is absent; `upstreamDefaults` is the root
    `x-kong-upstream-defaults` object; `other` holds every remaining root key
    (`info`, `x-kong-plugin-*`, ...), read only by the collaborators.
   */
  datatype Api = Api(
    paths: seq<(string, PathItem)>,
    servers: Option<seq<Json>>,
    upstreamDefaults: Option<Object>,
    other: Object)

  /** The parts of a parsed URL the pass reads (`protocol` keeps its trailing `:`). */
  datatype ParsedUrl = ParsedUrl(protocol: string, host: string, port: string, pathname: string)

  /** What `generateGlobalPlugins(api)` returns. */
  datatype GlobalPlugins = GlobalPlugins(plugins: seq<Json>, requestValidatorPlugin: Option<Json>)

  /** The collaborators, under the names the source imports them by. */
  datatype Helpers = Helpers(
    getAllServers: Api -> seq<Json>,
    fillServerVariables: Json -> string,
    parseUrl: string -> ParsedUrl,
    getName: Api -> string,
    generateSlug: string -> string,
    pathVariablesToRegex: string -> string,
    generateGlobalPlugins: Api -> GlobalPlugins,
    generatePathPlugins: PathItem -> seq<Json>,
    getRequestValidatorPluginDirective: PathItem -> Option<Json>,
    generateOperationPlugins: (Json, seq<Json>, Option<Json>) -> seq<Json>,
    generateSecurityPlugins: (Json, Api) -> seq<Json>)
}
