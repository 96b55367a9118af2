/**
  The three-path document of the `services.test.js` suite: which of its keys
  become routes and in what order, and what each fallback route name is built
  from (the path item's `x-kong-name` for `/cats`, the path for the others).
 */
module BaseSpec {
  import opened JsValues
  import opened Common
  import opened Services

  /** `paths` of the test document: `/cats`, `/dogs` and `/birds/{id}`, keys in written order. */
  const BasePaths: seq<(string, PathItem)> := [
    ("/cats", [("x-kong-name", Str("Cat stuff")), ("summary", Str("summary is ignored")), ("post", Obj([]))]),
    ("/dogs", [("summary", Str("Dog stuff")), ("get", Obj([])), ("post", Obj([("summary", Str("Ignored summary"))]))]),
    ("/birds/{id}", [("get", Obj([]))])
  ]

  /** `x-kong-name` and `summary` are skipped: `/cats` has only its `post` operation. */
  lemma CatsOperations()
    ensures ItemOperations(BasePaths, 0, 3) == [Position(0, 2)]
  {
    assert !IsHttpMethod("x-kong-name");
    assert !IsHttpMethod("summary");
    assert IsHttpMethod("post");
    assert ItemOperations(BasePaths, 0, 1) == [];
    assert ItemOperations(BasePaths, 0, 2) == [];
  }

  /** `summary` is skipped: `/dogs` has `get` then `post`. */
  lemma DogsOperations()
    ensures ItemOperations(BasePaths, 1, 3) == [Position(1, 1), Position(1, 2)]
  {
    assert !IsHttpMethod("summary");
    assert IsHttpMethod("get");
    assert IsHttpMethod("post");
    assert ItemOperations(BasePaths, 1, 1) == [];
    assert ItemOperations(BasePaths, 1, 2) == [Position(1, 1)];
  }

  /** The operations are `post /cats`, `get /dogs`, `post /dogs`, `get /birds/{id}`, in that order. */
  lemma BaseSpecOperations()
    ensures Operations(BasePaths) == [Position(0, 2), Position(1, 1), Position(1, 2), Position(2, 0)]
  {
    CatsOperations();
    DogsOperations();
    assert IsHttpMethod("get");
    assert ItemOperations(BasePaths, 2, 1) == [Position(2, 0)];
    assert OperationsUpTo(BasePaths, 1) == [Position(0, 2)];
    assert OperationsUpTo(BasePaths, 2) == [Position(0, 2), Position(1, 1), Position(1, 2)];
  }

  /** Only the second `/` of `/birds/{id}` is interior. */
  lemma BirdsPathReplaced()
    ensures ReplaceInteriorSlashes("/birds/{id}") == "/birds-{id}"
  {
    var r := ReplaceInteriorSlashes("/birds/{id}");
    assert forall i | 0 <= i < |r| :: r[i] == "/birds-{id}"[i];
  }

  /** `/cats`: its operation is `post: {}`, and its own `x-kong-name` is the slug source. */
  lemma CatsItem(api: Api)
    requires api.paths == BasePaths
    ensures "/cats" in Keys(api.paths)
    ensures Get(api.paths, "/cats") == Some(BasePaths[0].1)
    ensures Get(BasePaths[0].1, "post") == Some(Obj([]))
    ensures PathSlugSource("/cats", BasePaths[0].1) == "Cat stuff"
  {
    assert BasePaths[0].1[0].0 != "post";
    assert BasePaths[0].1[1].0 != "post";
  }

  /** `/dogs` comes after `/cats` and has no `x-kong-name`, so its path is the slug source. */
  lemma DogsItem(api: Api)
    requires api.paths == BasePaths
    ensures "/dogs" in Keys(api.paths)
    ensures Get(api.paths, "/dogs") == Some(BasePaths[1].1)
    ensures Get(BasePaths[1].1, "get") == Some(Obj([]))
    ensures Get(BasePaths[1].1, "post") == Some(Obj([("summary", Str("Ignored summary"))]))
    ensures PathSlugSource("/dogs", BasePaths[1].1) == "/dogs"
  {
    assert BasePaths[0].0 != "/dogs";
    assert BasePaths[1].1[0].0 != "get";
    assert BasePaths[1].1[0].0 != "post";
    assert BasePaths[1].1[1].0 != "post";
    assert Get(BasePaths[1].1, "x-kong-name") == None;
    assert ReplaceInteriorSlashes("/dogs") == "/dogs";
  }

  /** `/birds/{id}` comes last and has no `x-kong-name`; its slug source is `/birds-{id}`. */
  lemma BirdsItem(api: Api)
    requires api.paths == BasePaths
    ensures "/birds/{id}" in Keys(api.paths)
    ensures Get(api.paths, "/birds/{id}") == Some(BasePaths[2].1)
    ensures Get(BasePaths[2].1, "get") == Some(Obj([]))
    ensures PathSlugSource("/birds/{id}", BasePaths[2].1) == "/birds-{id}"
  {
    assert BasePaths[0].0 != "/birds/{id}";
    assert BasePaths[1].0 != "/birds/{id}";
    assert Get(BasePaths[2].1, "x-kong-name") == None;
    BirdsPathReplaced();
  }

  /** The routes of the test document are the routes of its four operations, in this order. */
  lemma BaseSpecRoutes(h: Helpers, api: Api, tags: seq<string>)
    requires api.paths == BasePaths
    ensures AllValid(api.paths, [Position(0, 2), Position(1, 1), Position(1, 2), Position(2, 0)])
    ensures Routes(h, api, tags) == RoutesAt(h, api, tags, h.generateGlobalPlugins(api),
      [Position(0, 2), Position(1, 1), Position(1, 2), Position(2, 0)])
  {
    BaseSpecOperations();
  }

  /** `post /cats` is named from the path item's `x-kong-name`. */
  lemma CatsRouteName(h: Helpers, api: Api)
    requires api.paths == BasePaths
    requires h.getName(api) == "My_API" && h.generateSlug("Cat stuff") == "Cat_stuff"
    ensures "/cats" in Keys(api.paths)
    ensures GenerateRouteName(h, api, "/cats", "post") == "My_API-Cat_stuff-post"
  {
    CatsItem(api);
    PlainOperationName(h, api, "/cats", "post", BasePaths[0].1, []);
  }

  /** `get /birds/{id}` is named from its path. */
  lemma BirdsRouteName(h: Helpers, api: Api)
    requires api.paths == BasePaths
    requires h.getName(api) == "My_API" && h.generateSlug("/birds-{id}") == "birds_id"
    ensures "/birds/{id}" in Keys(api.paths)
    ensures GenerateRouteName(h, api, "/birds/{id}", "get") == "My_API-birds_id-get"
  {
    BirdsItem(api);
    PlainOperationName(h, api, "/birds/{id}", "get", BasePaths[2].1, []);
  }

  /**
    The first route: `post /cats`, with the name `generateRouteName` gives it,
    method `POST`, its path as a regex, paths kept and the tags.
   */
  lemma CatsRoute(h: Helpers, api: Api, tags: seq<string>)
    requires api.paths == BasePaths
    ensures |Routes(h, api, tags)| == 4
    ensures "/cats" in Keys(api.paths)
    ensures Routes(h, api, tags)[0].name == GenerateRouteName(h, api, "/cats", "post")
    ensures Routes(h, api, tags)[0].methods == ["POST"]
    ensures Routes(h, api, tags)[0].paths == [h.pathVariablesToRegex("/cats")]
    ensures !Routes(h, api, tags)[0].stripPath && Routes(h, api, tags)[0].tags == tags
  {
    BaseSpecOperations();
    RouteShape(h, api, tags, 0);
    assert ToUpperAscii("post") == "POST";
  }

  /**
    The last route: `get /birds/{id}`, with the name `generateRouteName` gives
    it, method `GET`, its path as a regex, paths kept and the tags.
   */
  lemma BirdsRoute(h: Helpers, api: Api, tags: seq<string>)
    requires api.paths == BasePaths
    ensures |Routes(h, api, tags)| == 4
    ensures "/birds/{id}" in Keys(api.paths)
    ensures Routes(h, api, tags)[3].name == GenerateRouteName(h, api, "/birds/{id}", "get")
    ensures Routes(h, api, tags)[3].methods == ["GET"]
    ensures Routes(h, api, tags)[3].paths == [h.pathVariablesToRegex("/birds/{id}")]
    ensures !Routes(h, api, tags)[3].stripPath && Routes(h, api, tags)[3].tags == tags
  {
    BaseSpecOperations();
    RouteShape(h, api, tags, 3);
    assert ToUpperAscii("get") == "GET";
  }

  /** With the suite's name and slugs, the first and last routes are `My_API-Cat_stuff-post` and `My_API-birds_id-get`. */
  lemma FirstAndLastRouteNames(h: Helpers, api: Api, tags: seq<string>)
    requires api.paths == BasePaths
    requires h.getName(api) == "My_API"
    requires h.generateSlug("Cat stuff") == "Cat_stuff" && h.generateSlug("/birds-{id}") == "birds_id"
    ensures |Routes(h, api, tags)| == 4
    ensures Routes(h, api, tags)[0].name == "My_API-Cat_stuff-post"
    ensures Routes(h, api, tags)[3].name == "My_API-birds_id-get"
  {
    CatsRoute(h, api, tags);
    CatsRouteName(h, api);
    BirdsRoute(h, api, tags);
    BirdsRouteName(h, api);
  }
}
