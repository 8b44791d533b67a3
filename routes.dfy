/**
 * `CUIRoutes`: where each page and action lives, relative to the router.
 * Routes without a record are paths; routes about one record are functions
 * of its id that URI-encode it.
 */
module Routes {
  import opened Js
  import opened Wrappers
  import opened Errors
  import opened Tools

  /** How many functions the defaults create; they take identities `next` to `next + 5`. */
  const Closures := 6

  /** The routes both trees declare. */
  function Common(next: nat): Props {
    map[
      "indexPage" := Str("/"),
      "createPage" := Str("/create"),
      "createAction" := Str("/create"),
      "editPage" := Func(next, RoutePath("/edit/", "")),
      "editAction" := Func(next + 1, RoutePath("/edit/", "")),
      "detailPage" := Func(next + 2, RoutePath("/detail/", "")),
      "detailEditPage" := Func(next + 3, RoutePath("/detail/", "/edit")),
      "detailEditAction" := Func(next + 4, RoutePath("/detail/", "/edit")),
      "deleteAction" := Func(next + 5, RoutePath("/delete/", ""))
    ]
  }

  /** The declared defaults; only the TypeScript class has the single-record edit routes. */
  function Defaults(tree: Tree, next: nat): (d: Props)
    ensures "singleRecordModeEditPage" in d <==> tree.TypeScript?
    ensures "singleRecordModeEditAction" in d <==> tree.TypeScript?
    ensures forall k :: k in Common(next) ==> k in d && d[k] == Common(next)[k]
  {
    if tree.TypeScript? then
      Common(next)["singleRecordModeEditPage" := Str("/edit")]["singleRecordModeEditAction" := Str("/edit")]
    else Common(next)
  }

  /** `new CUIRoutes(source)`: `safeAssign` in the TypeScript tree, `Object.assign` in the JavaScript one. */
  function Construct(tree: Tree, source: Value, next: nat): (p: Props)
    ensures tree.TypeScript? ==> p.Keys == Defaults(tree, next).Keys
    ensures tree.JavaScript? ==> p.Keys == Defaults(tree, next).Keys + OwnProps(source).Keys
  {
    if tree.TypeScript? then SafeAssigned(Defaults(tree, next), [source]) else ObjectAssign(Defaults(tree, next), source)
  }

  /** The default edit and delete routes, called with an id, give the URI-encoded id after their fixed part. */
  lemma DefaultEditRoutes(env: Env, tree: Tree, next: nat, id: Value)
    ensures Call(env, Defaults(tree, next)["editPage"], [id]) == Success(Str("/edit/" + env.encodeUri(ToStr(id))))
    ensures Call(env, Defaults(tree, next)["editAction"], [id]) == Success(Str("/edit/" + env.encodeUri(ToStr(id))))
    ensures Call(env, Defaults(tree, next)["deleteAction"], [id]) == Success(Str("/delete/" + env.encodeUri(ToStr(id))))
  {
    var u := env.encodeUri(ToStr(id));
    DefaultRoute(env, tree, next, id, "editPage", "/edit/", "");
    DefaultRoute(env, tree, next, id, "editAction", "/edit/", "");
    DefaultRoute(env, tree, next, id, "deleteAction", "/delete/", "");
    assert "/edit/" + u + "" == "/edit/" + u;
    assert "/delete/" + u + "" == "/delete/" + u;
  }

  /** The default detail routes, called with an id, give the URI-encoded id between their fixed parts. */
  lemma DefaultDetailRoutes(env: Env, tree: Tree, next: nat, id: Value)
    ensures Call(env, Defaults(tree, next)["detailPage"], [id]) == Success(Str("/detail/" + env.encodeUri(ToStr(id))))
    ensures Call(env, Defaults(tree, next)["detailEditPage"], [id]) == Success(Str("/detail/" + env.encodeUri(ToStr(id)) + "/edit"))
    ensures Call(env, Defaults(tree, next)["detailEditAction"], [id]) == Success(Str("/detail/" + env.encodeUri(ToStr(id)) + "/edit"))
  {
    var u := env.encodeUri(ToStr(id));
    DefaultRoute(env, tree, next, id, "detailPage", "/detail/", "");
    DefaultRoute(env, tree, next, id, "detailEditPage", "/detail/", "/edit");
    DefaultRoute(env, tree, next, id, "detailEditAction", "/detail/", "/edit");
    assert "/detail/" + u + "" == "/detail/" + u;
  }

  /** One default route closure, called with an id. */
  lemma DefaultRoute(env: Env, tree: Tree, next: nat, id: Value, k: string, prefix: string, suffix: string)
    requires k in Common(next) && Common(next)[k].Func? && Common(next)[k].code == RoutePath(prefix, suffix)
    ensures Call(env, Defaults(tree, next)[k], [id]) == Success(Str(prefix + env.encodeUri(ToStr(id)) + suffix))
  {
    CallRoutePath(env, Common(next)[k], prefix, suffix, id);
  }

  /** Calling a route closure with an id. */
  lemma CallRoutePath(env: Env, f: Value, prefix: string, suffix: string, id: Value)
    requires f.Func? && f.code == RoutePath(prefix, suffix)
    ensures Call(env, f, [id]) == Success(Str(prefix + env.encodeUri(ToStr(id)) + suffix))
  {
  }

  /** A route the TypeScript source defines replaces the default; any other keeps it, and no new route appears. */
  lemma SourceOverrides(source: Value, next: nat, k: string)
    requires k in Defaults(TypeScript, next)
    ensures k in Construct(TypeScript, source, next)
    ensures Construct(TypeScript, source, next)[k] == if Defines(source, k) then OwnProps(source)[k] else Defaults(TypeScript, next)[k]
  {
    SafeAssignedOne(Defaults(TypeScript, next), source);
  }
}
