/**
  Upstream generation (`upstreams.js`): at most one upstream, named after the
  API, that starts from the root `x-kong-upstream-defaults` object and lists
  one load-balancing target per server whose resolved host is non-empty.
 */
module Upstreams {
  import opened JsValues
  import opened Common
  import Services

  /**
    The upstream as `generateUpstreams` builds it: the defaults it was spread
    from, then the three keys the literal writes after the spread.
   */
  datatype Upstream = Upstream(defaults: Object, name: string, targets: seq<string>, tags: seq<string>)
  {
    /**
      The object `{...defaults, name, targets, tags}`: the three written keys
      win over same-named defaults, every other default is carried unchanged,
      and a default that shares a name keeps its position in the key order.
     */
    function ToObject(): (r: Object)
      ensures Get(r, "name") == Some(Str(name))
      ensures Get(r, "targets") == Some(Arr(TargetObjects(targets)))
      ensures Get(r, "tags") == Some(Arr(Strings(tags)))
      ensures forall k | k != "name" && k != "targets" && k != "tags" :: Get(r, k) == Get(defaults, k)
      ensures Keys(r) == Keys(defaults) + {"name", "targets", "tags"}
      ensures UniqueKeys(defaults) ==> UniqueKeys(r)
    {
      var withName := Set(defaults, "name", Str(name));
      var withTargets := Set(withName, "targets", Arr(TargetObjects(targets)));
      Set(withTargets, "tags", Arr(Strings(tags)))
    }
  }

  /** `[{target: host}, ...]`. */
  function TargetObjects(hosts: seq<string>): (r: seq<Json>)
    ensures |r| == |hosts|
    ensures forall k | 0 <= k < |hosts| :: r[k] == Obj([("target", Str(hosts[k]))])
  {
    seq(|hosts|, k requires 0 <= k < |hosts| => Obj([("target", Str(hosts[k]))]))
  }

  /** A list of strings as a JSON array. */
  function Strings(ss: seq<string>): (r: seq<Json>)
    ensures |r| == |ss|
    ensures forall k | 0 <= k < |ss| :: r[k] == Str(ss[k])
  {
    seq(|ss|, k requires 0 <= k < |ss| => Str(ss[k]))
  }

  /** `parseUrl(fillServerVariables(server)).host`: the server's host with its port. */
  function HostOf(h: Helpers, server: Json): string {
    h.parseUrl(h.fillServerVariables(server)).host
  }

  /** The targets collected from `servers`: each non-empty host, in server order. */
  function TargetsOf(h: Helpers, servers: seq<Json>): (r: seq<string>)
    ensures |r| <= |servers|
    ensures forall k | 0 <= k < |r| :: r[k] != ""
  {
    if servers == [] then []
    else
      var host := HostOf(h, servers[|servers| - 1]);
      TargetsOf(h, servers[..|servers| - 1]) + (if host != "" then [host] else [])
  }

  /** Collecting over two runs of servers is collecting over each, in order. */
  lemma {:induction false} TargetsOfAppend(h: Helpers, a: seq<Json>, b: seq<Json>)
    ensures TargetsOf(h, a + b) == TargetsOf(h, a) + TargetsOf(h, b)
  {
    if b == [] {
      assert a + b == a;
    } else {
      assert (a + b)[..|a + b| - 1] == a + b[..|b| - 1];
      assert (a + b)[|a + b| - 1] == b[|b| - 1];
      TargetsOfAppend(h, a, b[..|b| - 1]);
    }
  }

  /** A host is a target exactly when some server resolves to it and it is non-empty. */
  lemma {:induction false} TargetsOfMembers(h: Helpers, servers: seq<Json>, host: string)
    ensures host in TargetsOf(h, servers) <==> host != "" && exists s | s in servers :: HostOf(h, s) == host
  {
    if servers != [] {
      var init := servers[..|servers| - 1];
      var last := servers[|servers| - 1];
      TargetsOfMembers(h, init, host);
      assert servers == init + [last];
      if host != "" && HostOf(h, last) == host {
        assert last in servers;
      }
      if exists s | s in servers :: HostOf(h, s) == host {
        var s :| s in servers && HostOf(h, s) == host;
        if s != last {
          assert s in init;
        }
      }
      if exists s | s in init :: HostOf(h, s) == host {
        var s :| s in init && HostOf(h, s) == host;
        assert s in servers;
      }
    }
  }

  /** When every server resolves to a host, there is one target per server, in the same order. */
  lemma {:induction false} TargetsOfAllHosts(h: Helpers, servers: seq<Json>)
    requires forall k | 0 <= k < |servers| :: HostOf(h, servers[k]) != ""
    ensures |TargetsOf(h, servers)| == |servers|
    ensures forall k | 0 <= k < |servers| :: TargetsOf(h, servers)[k] == HostOf(h, servers[k])
  {
    if servers != [] {
      TargetsOfAllHosts(h, servers[..|servers| - 1]);
    }
  }

  /** `item` is the `{target: host}` entry of some server that resolves to a non-empty host. */
  predicate TargetOfSomeServer(h: Helpers, servers: seq<Json>, item: Json) {
    exists s | s in servers :: HostOf(h, s) != "" && item == Obj([("target", Str(HostOf(h, s)))])
  }

  /** Every `{target: host}` entry built from `servers` comes from a server that resolves to that non-empty host. */
  lemma TargetEntriesFromServers(h: Helpers, servers: seq<Json>)
    ensures forall item | item in TargetObjects(TargetsOf(h, servers)) :: TargetOfSomeServer(h, servers, item)
  {
    var targets := TargetsOf(h, servers);
    var items := TargetObjects(targets);
    forall item | item in items
      ensures TargetOfSomeServer(h, servers, item)
    {
      var k :| 0 <= k < |items| && items[k] == item;
      TargetsOfMembers(h, servers, targets[k]);
      assert targets[k] in targets;
    }
  }

  /** Every server that resolves to a non-empty host has its `{target: host}` entry. */
  lemma TargetEntriesCoverServers(h: Helpers, servers: seq<Json>)
    ensures forall s | s in servers && HostOf(h, s) != "" ::
      Obj([("target", Str(HostOf(h, s)))]) in TargetObjects(TargetsOf(h, servers))
  {
    var targets := TargetsOf(h, servers);
    forall s | s in servers && HostOf(h, s) != ""
      ensures Obj([("target", Str(HostOf(h, s)))]) in TargetObjects(targets)
    {
      TargetsOfMembers(h, servers, HostOf(h, s));
      var k :| 0 <= k < |targets| && targets[k] == HostOf(h, s);
      assert TargetObjects(targets)[k] == Obj([("target", Str(HostOf(h, s)))]);
    }
  }

  /** When every server resolves to a host, the k-th entry is the k-th server's. */
  lemma {:induction false} TargetEntriesInServerOrder(h: Helpers, servers: seq<Json>)
    requires forall k | 0 <= k < |servers| :: HostOf(h, servers[k]) != ""
    ensures |TargetObjects(TargetsOf(h, servers))| == |servers|
    ensures forall k | 0 <= k < |servers| ::
      TargetObjects(TargetsOf(h, servers))[k] == Obj([("target", Str(HostOf(h, servers[k])))])
  {
    TargetsOfAllHosts(h, servers);
  }

  /**
    In the upstream object, the `targets` key holds one `{target: host}` per
    server whose resolved host is non-empty: every entry comes from such a
    server, every such server has its entry, there are no more entries than
    servers, and when every server resolves to a host the k-th entry is the
    k-th server's.
   */
  lemma TargetsObjectFromServers(h: Helpers, servers: seq<Json>, u: Upstream)
    requires u.targets == TargetsOf(h, servers)
    ensures Get(u.ToObject(), "targets").Some? && Get(u.ToObject(), "targets").value.Arr?
    ensures |Get(u.ToObject(), "targets").value.items| <= |servers|
    ensures forall item | item in Get(u.ToObject(), "targets").value.items :: TargetOfSomeServer(h, servers, item)
    ensures forall s | s in servers && HostOf(h, s) != "" ::
      Obj([("target", Str(HostOf(h, s)))]) in Get(u.ToObject(), "targets").value.items
    ensures (forall k | 0 <= k < |servers| :: HostOf(h, servers[k]) != "") ==>
      var items := Get(u.ToObject(), "targets").value.items;
      |items| == |servers| &&
      forall k | 0 <= k < |servers| :: items[k] == Obj([("target", Str(HostOf(h, servers[k])))])
  {
    assert Get(u.ToObject(), "targets").value.items == TargetObjects(TargetsOf(h, servers));
    TargetEntriesFromServers(h, servers);
    TargetEntriesCoverServers(h, servers);
    if forall k | 0 <= k < |servers| :: HostOf(h, servers[k]) != "" {
      TargetEntriesInServerOrder(h, servers);
    }
  }

  /** The servers `generateUpstreams` reads: `api.servers || []`. */
  function Servers(api: Api): seq<Json> {
    api.servers.GetOr([])
  }

  /**
    `generateUpstreams(api, tags)`: nothing without servers; otherwise one
    upstream over the root defaults (`{}` when absent), named `getName(api)`,
    carrying `tags` and the targets of the servers in order.
   */
  method GenerateUpstreams(h: Helpers, api: Api, tags: seq<string>) returns (r: seq<Upstream>)
    ensures r == [] <==> Servers(api) == []
    ensures r != [] ==> |r| == 1
    ensures r != [] ==> r[0].defaults == api.upstreamDefaults.GetOr([])
    ensures r != [] ==> r[0].name == h.getName(api) && r[0].tags == tags
    ensures r != [] ==> r[0].targets == TargetsOf(h, Servers(api))
  {
    var servers := Servers(api);
    if |servers| == 0 {
      return [];
    }
    var upstreamDefaults := api.upstreamDefaults.GetOr([]);
    var upstream := Upstream(upstreamDefaults, h.getName(api), [], tags);
    for k := 0 to |servers|
      invariant upstream == Upstream(upstreamDefaults, h.getName(api), TargetsOf(h, servers[..k]), tags)
    {
      var hostWithPort := HostOf(h, servers[k]);
      assert servers[..k + 1][..k] == servers[..k];
      if hostWithPort != "" {
        upstream := upstream.(targets := upstream.targets + [hostWithPort]);
      }
    }
    assert servers[..|servers|] == servers;
    return [upstream];
  }

  /**
    The service's `host` names the upstream: for the same document, the
    upstream's name, the service's name and the service's host coincide.
   */
  lemma UpstreamNamesServiceHost(h: Helpers, server: Json, api: Api, tags: seq<string>, s: Services.Service, u: Upstream)
    requires Services.ServiceFor(h, server, api, tags, s)
    requires u.name == h.getName(api)
    ensures u.name == s.name && u.name == s.host
  {
    Services.ServiceShell(h, server, api, tags, s);
  }
}
