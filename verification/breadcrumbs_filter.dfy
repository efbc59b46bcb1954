/** The breadcrumbs action filter. Before an action runs, it decides whether
    its owner contributes a breadcrumb to the current page, builds the
    breadcrumb's label and URL, and writes it into the view's parameter bag.

    The framework state the filter reads from `Yii::$app` (the controller,
    the requested route, the view parameters) is passed in explicitly, the
    updated parameter bag is returned, and exceptions become `Failure`. */
module BreadcrumbsFilter {
  import opened Results
  import opened PhpStrings
  import opened PhpArrays

  // ---------------------------------------------------------------------
  // Data model
  // ---------------------------------------------------------------------

  /** An owner property: readable, or with a setter only. Yii's
      `hasProperty` is true for both; reading the second kind throws. */
  datatype Property = Readable(value: string) | WriteOnly

  /** The component the filter is attached to. `methods` maps each method the
      owner provides to the route it returns when called (`None` is `null`). */
  datatype Owner = Owner(properties: map<string, Property>, methods: map<string, Option<string>>)

  /** The `routeCreator` setting: a string naming an owner method, a PHP
      callable (which receives the filter; here it is given the owner), or
      any other value. */
  datatype RouteCreator =
    | MethodName(name: string)
    | Callable(call: Owner -> Option<string>)
    | NotCallable

  /** The public properties of the filter. */
  datatype Config = Config(
    breadcrumbsParam: string,
    breadcrumbsKey: string,
    labelParam: string,
    explicitLabel: string,
    defaultRoute: string,
    exceptRoutes: seq<string>,
    routeCreator: RouteCreator)

  /** The defaults the class declares. */
  const DefaultConfig: Config :=
    Config("breadcrumbs", "", "id", "", "default", [], MethodName("getUniqueId"))

  /** Per-request framework state: whether `Yii::$app->controller` is a web
      controller, `Yii::$app->requestedRoute`, the controller's id, and the
      id of the module the controller belongs to. */
  datatype Context = Context(
    isWebController: bool,
    requestedRoute: string,
    controllerId: string,
    moduleId: string)

  /** An element of the breadcrumbs array: the `['label' => .., 'url' => ..]`
      entry this filter writes, or any other item a view put there. */
  datatype Item = Crumb(text: string, url: Option<string>) | OtherItem(raw: string)

  /** A view parameter: an array of breadcrumb items, `null`, or a scalar. */
  datatype Param = Trail(items: PhpArray<Item>) | Null | Scalar(text: string)

  /** The exceptions the filter can raise. */
  datatype Error =
    | NotWebController                 // Instance::ensure rejects the controller
    | UnknownProperty(name: string)    // UnknownPropertyException for a missing property
    | WriteOnlyProperty(name: string)  // InvalidCallException when reading a setter-only property
    | UnknownMethod(name: string)      // UnknownMethodException
    | InvalidRouteCreator              // UnknownPropertyException for a bad routeCreator
    | NotAnArray(param: string)        // the target view parameter holds a scalar
    | NextElementOccupied              // `$a[] = ..` when the next integer key is taken

  // ---------------------------------------------------------------------
  // Route exclusion
  // ---------------------------------------------------------------------

  /** Reference reading of one exclusion pattern: the wildcard, or a
      substring of the requested route. */
  ghost predicate ExcludedBy(pattern: string, route: string) {
    pattern == "*" || IsSubstring(pattern, route)
  }

  /** Scans the exclusion patterns in order and stops at the first one that
      is `'*'` or occurs in the requested route. */
  function Reject(patterns: seq<string>, route: string): (r: bool)
    ensures r <==> exists p :: p in patterns && ExcludedBy(p, route)
    ensures "*" in patterns ==> r
    ensures |patterns| == 0 ==> !r
  {
    if |patterns| == 0 then
      false
    else if patterns[0] == "*" || Contains(route, patterns[0]) then
      assert patterns[0] in patterns && ExcludedBy(patterns[0], route);
      true
    else
      assert forall p :: p in patterns <==> p == patterns[0] || p in patterns[1..];
      Reject(patterns[1..], route)
  }

  /** Only the set of patterns matters: not their order, not repetitions. */
  lemma RejectOrderIndependent(ps: seq<string>, qs: seq<string>, route: string)
    requires forall p :: p in ps <==> p in qs
    ensures Reject(ps, route) == Reject(qs, route)
  {
  }

  // ---------------------------------------------------------------------
  // Label
  // ---------------------------------------------------------------------

  /** `$owner->{$name}` through Yii's `Component::__get`: a missing property
      throws UnknownPropertyException, a setter-only one InvalidCallException. */
  function ReadProperty(owner: Owner, name: string): (r: Result<string, Error>)
    ensures name !in owner.properties ==> r == Failure(UnknownProperty(name))
    ensures name in owner.properties && owner.properties[name].WriteOnly? ==>
              r == Failure(WriteOnlyProperty(name))
    ensures name in owner.properties && owner.properties[name].Readable? ==>
              r == Success(owner.properties[name].value)
  {
    if name !in owner.properties then
      Failure(UnknownProperty(name))
    else
      match owner.properties[name]
      case Readable(v) => Success(v)
      case WriteOnly => Failure(WriteOnlyProperty(name))
  }

  /** The breadcrumb label: the configured label unless PHP-empty, otherwise
      the owner property named by `labelParam`. */
  function BuildLabel(cfg: Config, owner: Owner): (r: Result<string, Error>)
    ensures !IsEmpty(cfg.explicitLabel) ==> r == Success(cfg.explicitLabel)
    ensures IsEmpty(cfg.explicitLabel) && cfg.labelParam !in owner.properties ==>
              r == Failure(UnknownProperty(cfg.labelParam))
    ensures IsEmpty(cfg.explicitLabel) && cfg.labelParam in owner.properties ==>
              (r.Success? <==> owner.properties[cfg.labelParam].Readable?)
    ensures r.Failure? ==>
              r.error == UnknownProperty(cfg.labelParam) || r.error == WriteOnlyProperty(cfg.labelParam)
    ensures r.Success? ==> !IsEmpty(cfg.explicitLabel) || cfg.labelParam in owner.properties
    ensures r.Success? && IsEmpty(cfg.explicitLabel) ==>
              owner.properties[cfg.labelParam] == Readable(r.value)
    ensures IsEmpty(cfg.explicitLabel) && cfg.labelParam in owner.properties
            && owner.properties[cfg.labelParam].WriteOnly? ==>
              r == Failure(WriteOnlyProperty(cfg.labelParam))
  {
    if !IsEmpty(cfg.explicitLabel) then
      Success(cfg.explicitLabel)
    else if cfg.labelParam !in owner.properties then
      Failure(UnknownProperty(cfg.labelParam))
    else
      ReadProperty(owner, cfg.labelParam)
  }

  /** A non-empty configured label makes the owner irrelevant. */
  lemma ExplicitLabelIgnoresOwner(cfg: Config, o1: Owner, o2: Owner)
    requires !IsEmpty(cfg.explicitLabel)
    ensures BuildLabel(cfg, o1) == BuildLabel(cfg, o2) == Success(cfg.explicitLabel)
  {
  }

  /** The label `'0'` is treated exactly like no label at all. */
  lemma ZeroLabelIsNoLabel(cfg: Config, owner: Owner)
    ensures BuildLabel(cfg.(explicitLabel := "0"), owner) == BuildLabel(cfg.(explicitLabel := ""), owner)
  {
  }

  // ---------------------------------------------------------------------
  // URL
  // ---------------------------------------------------------------------

  /** Invokes `routeCreator`. A string is an owner method name, but the guard
      always asks for `getUniqueId`; the named method itself must exist too,
      or `Component::__call` throws. */
  function CreateRoute(rc: RouteCreator, owner: Owner): (r: Result<Option<string>, Error>)
    ensures rc.MethodName? ==>
              (r.Success? <==> "getUniqueId" in owner.methods && rc.name in owner.methods)
    ensures rc.MethodName? && "getUniqueId" !in owner.methods ==>
              r == Failure(UnknownMethod("getUniqueId"))
    ensures rc.MethodName? && "getUniqueId" in owner.methods && rc.name !in owner.methods ==>
              r == Failure(UnknownMethod(rc.name))
    ensures rc.MethodName? && r.Success? ==> r.value == owner.methods[rc.name]
    ensures rc.Callable? ==> r == Success(rc.call(owner))
    ensures rc.NotCallable? ==> r == Failure(InvalidRouteCreator)
  {
    match rc
    case MethodName(name) =>
      if "getUniqueId" !in owner.methods then
        Failure(UnknownMethod("getUniqueId"))
      else if name !in owner.methods then
        Failure(UnknownMethod(name))
      else
        Success(owner.methods[name])
    case Callable(call) =>
      Success(call(owner))
    case NotCallable =>
      Failure(InvalidRouteCreator)
  }

  /** The owner is the current controller's module and that controller's id
      occurs in `defaultRoute`. */
  ghost predicate OnModuleDefault(cfg: Config, owner: Owner, ctx: Context) {
    && ReadProperty(owner, "id") == Success(ctx.moduleId)
    && IsSubstring(ctx.controllerId, cfg.defaultRoute)
  }

  /** The breadcrumb URL. `urlTo` stands for `Url::to([$path])`. */
  function BuildUrl(cfg: Config, owner: Owner, ctx: Context, urlTo: string -> string)
    : (r: Result<Option<string>, Error>)
    ensures OnModuleDefault(cfg, owner, ctx) ==> r == Success(None)
    ensures ReadProperty(owner, "id").Failure? ==> r == Failure(ReadProperty(owner, "id").error)
    ensures ReadProperty(owner, "id").Success? && !OnModuleDefault(cfg, owner, ctx) ==>
              match CreateRoute(cfg.routeCreator, owner)
              case Failure(e) => r == Failure(e)
              case Success(route) =>
                r == Success(if IsTruthy(route) then Some(urlTo("/" + route.value)) else None)
  {
    var id :- ReadProperty(owner, "id");
    if id == ctx.moduleId && Contains(cfg.defaultRoute, ctx.controllerId) then
      Success(None)
    else
      var route :- CreateRoute(cfg.routeCreator, owner);
      Success(if IsTruthy(route) then Some(urlTo("/" + route.value)) else None)
  }

  /** On the module's default controller the route creator is never
      consulted, so not even an invalid one can raise an error. */
  lemma ModuleDefaultIgnoresRouteCreator(
    cfg: Config, owner: Owner, ctx: Context, urlTo: string -> string, rc: RouteCreator)
    requires OnModuleDefault(cfg, owner, ctx)
    ensures BuildUrl(cfg.(routeCreator := rc), owner, ctx, urlTo) == Success(None)
  {
  }

  // ---------------------------------------------------------------------
  // The breadcrumb entry and the parameter bag
  // ---------------------------------------------------------------------

  /** The entry `['label' => .., 'url' => ..]`; the label is built first, so
      its error wins over the URL's. */
  function BuildEntry(cfg: Config, owner: Owner, ctx: Context, urlTo: string -> string)
    : (r: Result<Item, Error>)
    ensures BuildLabel(cfg, owner).Failure? ==> r == Failure(BuildLabel(cfg, owner).error)
    ensures BuildLabel(cfg, owner).Success? && BuildUrl(cfg, owner, ctx, urlTo).Failure? ==>
              r == Failure(BuildUrl(cfg, owner, ctx, urlTo).error)
    ensures r.Success? <==> BuildLabel(cfg, owner).Success? && BuildUrl(cfg, owner, ctx, urlTo).Success?
    ensures r.Success? ==>
              r.value == Crumb(BuildLabel(cfg, owner).value, BuildUrl(cfg, owner, ctx, urlTo).value)
  {
    var text :- BuildLabel(cfg, owner);
    var url :- BuildUrl(cfg, owner, ctx, urlTo);
    Success(Crumb(text, url))
  }

  /** Every array held in the bag is a well-formed PHP array. */
  ghost predicate ParamsWf(params: PhpArray<Param>) {
    && Wf(params)
    && forall i :: 0 <= i < |params.entries| && params.entries[i].value.Trail? ==>
                     Wf(params.entries[i].value.items)
  }

  /** The bag key `$breadcrumbsParam` is stored under. */
  function ParamKey(cfg: Config): Key {
    NormalizeKey(cfg.breadcrumbsParam)
  }

  /** The array key `$breadcrumbsKey` is stored under. */
  function ItemKey(cfg: Config): Key {
    NormalizeKey(cfg.breadcrumbsKey)
  }

  /** The array a write into `$params[$k][..]` starts from: a missing or
      `null` parameter becomes `[]`; a scalar cannot be written into. */
  function TrailAt(params: PhpArray<Param>, k: Key): (r: Option<PhpArray<Item>>)
    requires ParamsWf(params)
    ensures r.Some? ==> Wf(r.value)
    ensures r.None? <==> Get(params, k).Some? && Get(params, k).value.Scalar?
    ensures Get(params, k).Some? && Get(params, k).value.Trail? ==> r == Some(Get(params, k).value.items)
    ensures Get(params, k).None? || Get(params, k) == Some(Null) ==> r == Some(EmptyArray())
  {
    match Get<Param>(params, k)
    case None => Some(EmptyArray())
    case Some(Null) => Some(EmptyArray())
    case Some(Trail(items)) => Some(items)
    case Some(Scalar(_)) => None
  }

  /** Stores the entry into the breadcrumbs array: under `breadcrumbsKey`
      when that is non-empty, otherwise at the next integer key. */
  function WriteTrail(cfg: Config, trail: PhpArray<Item>, item: Item): (r: Result<PhpArray<Item>, Error>)
    requires Wf(trail)
    ensures r.Success? ==> Wf(r.value)
    ensures r.Failure? ==> r.error == NextElementOccupied
    ensures r.Success? ==> |trail.entries| <= |r.value.entries|
    ensures r.Success? ==> forall i :: 0 <= i < |trail.entries| ==>
                             r.value.entries[i].key == trail.entries[i].key
    ensures !IsEmpty(cfg.breadcrumbsKey) ==>
              && r.Success?
              && Get(r.value, ItemKey(cfg)) == Some(item)
              && forall k :: k != ItemKey(cfg) ==> Get(r.value, k) == Get(trail, k)
    ensures !IsEmpty(cfg.breadcrumbsKey) && Get(trail, ItemKey(cfg)).Some? ==>
              r.value.nextFree == trail.nextFree
    ensures !IsEmpty(cfg.breadcrumbsKey) && Get(trail, ItemKey(cfg)).None? ==>
              r.value.nextFree == NextAfter(trail.nextFree, ItemKey(cfg))
    ensures IsEmpty(cfg.breadcrumbsKey) ==>
              (r.Failure? <==> trail.nextFree == PhpIntMax && Get(trail, IntKey(PhpIntMax)).Some?)
    ensures IsEmpty(cfg.breadcrumbsKey) && r.Success? ==>
              r.value.entries == trail.entries + [Entry(IntKey(trail.nextFree), item)]
    ensures IsEmpty(cfg.breadcrumbsKey) && r.Success? ==>
              r.value.nextFree == (if trail.nextFree < PhpIntMax then trail.nextFree + 1 else PhpIntMax)
  {
    if IsEmpty(cfg.breadcrumbsKey) then
      match Append(trail, item)
      case None => Failure(NextElementOccupied)
      case Some(t) => Success(t)
    else
      NormalizeKeyIsNormal(cfg.breadcrumbsKey);
      var t := Set(trail, ItemKey(cfg), item);
      assert forall i :: 0 <= i < |trail.entries| ==> t.entries[i].key == trail.entries[i].key by {
        if Get(trail, ItemKey(cfg)).None? {
          assert forall i :: 0 <= i < |trail.entries| ==> t.entries[i] == trail.entries[i];
        }
      }
      Success(t)
  }

  /** Replacing one bag slot by a well-formed array keeps the bag well formed. */
  lemma SetTrailKeepsParamsWf(params: PhpArray<Param>, k: Key, t: PhpArray<Item>)
    requires ParamsWf(params) && IsNormalKey(k) && Wf(t)
    ensures ParamsWf(Set(params, k, Trail(t)))
  {
  }

  /** `$params[$breadcrumbsParam][..] = $entry`: writes the entry into the
      breadcrumbs array and leaves every other view parameter alone. */
  function StoreItem(cfg: Config, params: PhpArray<Param>, item: Item): (r: Result<PhpArray<Param>, Error>)
    requires ParamsWf(params)
    ensures r.Success? ==> ParamsWf(r.value)
    ensures TrailAt(params, ParamKey(cfg)).None? ==> r == Failure(NotAnArray(cfg.breadcrumbsParam))
    ensures TrailAt(params, ParamKey(cfg)).Some? ==>
              match WriteTrail(cfg, TrailAt(params, ParamKey(cfg)).value, item)
              case Failure(e) => r == Failure(e)
              case Success(t) =>
                && r.Success?
                && Get(r.value, ParamKey(cfg)) == Some(Trail(t))
                && (forall k :: k != ParamKey(cfg) ==> Get(r.value, k) == Get(params, k))
                && |params.entries| <= |r.value.entries|
                && (forall i :: 0 <= i < |params.entries| ==> r.value.entries[i].key == params.entries[i].key)
                && r.value.nextFree == (if Get(params, ParamKey(cfg)).Some? then params.nextFree
                                        else NextAfter(params.nextFree, ParamKey(cfg)))
  {
    var pk := ParamKey(cfg);
    match TrailAt(params, pk)
    case None => Failure(NotAnArray(cfg.breadcrumbsParam))
    case Some(trail) =>
      var t :- WriteTrail(cfg, trail, item);
      NormalizeKeyIsNormal(cfg.breadcrumbsParam);
      SetTrailKeepsParamsWf(params, pk, t);
      var s := Set(params, pk, Trail(t));
      assert forall i :: 0 <= i < |params.entries| ==> s.entries[i].key == params.entries[i].key by {
        if Get(params, pk).None? {
          assert forall i :: 0 <= i < |params.entries| ==> s.entries[i] == params.entries[i];
        }
      }
      Success(s)
  }

  // ---------------------------------------------------------------------
  // The filter
  // ---------------------------------------------------------------------

  /** What the filter does before an action: unless the controller is not a
      web controller or the requested route is excluded, build the entry and
      store it in the view parameters. */
  function BuildBreadcrumbs(
    cfg: Config, owner: Owner, ctx: Context, urlTo: string -> string, params: PhpArray<Param>)
    : (r: Result<PhpArray<Param>, Error>)
    requires ParamsWf(params)
    ensures r.Success? ==> ParamsWf(r.value)
    ensures !ctx.isWebController ==> r == Failure(NotWebController)
    ensures ctx.isWebController && (exists p :: p in cfg.exceptRoutes && ExcludedBy(p, ctx.requestedRoute)) ==>
              r == Success(params)
    ensures ctx.isWebController && !(exists p :: p in cfg.exceptRoutes && ExcludedBy(p, ctx.requestedRoute)) ==>
              match BuildEntry(cfg, owner, ctx, urlTo)
              case Failure(e) => r == Failure(e)
              case Success(item) => r == StoreItem(cfg, params, item)
  {
    if !ctx.isWebController then
      Failure(NotWebController)
    else if |cfg.exceptRoutes| > 0 && Reject(cfg.exceptRoutes, ctx.requestedRoute) then
      Success(params)
    else
      var item :- BuildEntry(cfg, owner, ctx, urlTo);
      StoreItem(cfg, params, item)
  }

  /** With a non-empty key, storing the same entry again changes nothing. */
  lemma StoreItemKeyedIdempotent(cfg: Config, params: PhpArray<Param>, item: Item)
    requires ParamsWf(params) && !IsEmpty(cfg.breadcrumbsKey)
    requires StoreItem(cfg, params, item).Success?
    ensures StoreItem(cfg, StoreItem(cfg, params, item).value, item) == StoreItem(cfg, params, item)
  {
    var pk := ParamKey(cfg);
    NormalizeKeyIsNormal(cfg.breadcrumbsParam);
    NormalizeKeyIsNormal(cfg.breadcrumbsKey);
    var trail := TrailAt(params, pk).value;
    var t := Set(trail, ItemKey(cfg), item);
    var once := Set(params, pk, Trail(t));
    assert StoreItem(cfg, params, item) == Success(once);
    assert TrailAt(once, pk) == Some(t);
    SetIdempotent(trail, ItemKey(cfg), item);
    SetIdempotent(params, pk, Trail(t));
  }

  /** Keyed mode is idempotent: running the filter a second time on its own
      output gives that output back. */
  lemma KeyedFilterIdempotent(
    cfg: Config, owner: Owner, ctx: Context, urlTo: string -> string, params: PhpArray<Param>)
    requires ParamsWf(params) && !IsEmpty(cfg.breadcrumbsKey)
    requires BuildBreadcrumbs(cfg, owner, ctx, urlTo, params).Success?
    ensures var once := BuildBreadcrumbs(cfg, owner, ctx, urlTo, params).value;
            BuildBreadcrumbs(cfg, owner, ctx, urlTo, once) == Success(once)
  {
    if ctx.isWebController && !(|cfg.exceptRoutes| > 0 && Reject(cfg.exceptRoutes, ctx.requestedRoute)) {
      StoreItemKeyedIdempotent(cfg, params, BuildEntry(cfg, owner, ctx, urlTo).value);
    }
  }

  /** Appending to an array whose next free key is below `PHP_INT_MAX`
      succeeds twice in a row, adding two entries at the end. */
  lemma PositionalWriteAppendsTwice(cfg: Config, trail: PhpArray<Item>, item: Item)
    requires Wf(trail) && IsEmpty(cfg.breadcrumbsKey) && trail.nextFree < PhpIntMax
    ensures var once := WriteTrail(cfg, trail, item);
            && once.Success?
            && var twice := WriteTrail(cfg, once.value, item);
               && twice.Success?
               && |twice.value.entries| == |trail.entries| + 2
               && twice.value.entries[..|trail.entries|] == trail.entries
               && twice.value.entries[|trail.entries|] == Entry(IntKey(trail.nextFree), item)
               && twice.value.entries[|trail.entries| + 1] == Entry(IntKey(trail.nextFree + 1), item)
  {
    var t1 := WriteTrail(cfg, trail, item).value;
    assert forall i :: 0 <= i < |t1.entries| ==> t1.entries[i].key != IntKey(PhpIntMax) by {
      forall i | 0 <= i < |t1.entries|
        ensures t1.entries[i].key != IntKey(PhpIntMax)
      {
        if i < |trail.entries| {
          assert t1.entries[i] == trail.entries[i];
          assert KeyBelowNext(trail.entries[i].key, trail.nextFree);
        }
      }
    }
    var t2 := WriteTrail(cfg, t1, item).value;
    assert t2.entries == trail.entries + [Entry(IntKey(trail.nextFree), item)]
                                       + [Entry(IntKey(t1.nextFree), item)];
  }

  /** Positional mode has no guard against running twice: unless the next
      free key is saturated, a second run on the first run's output appends
      the same entry again. */
  lemma PositionalFilterAppendsTwice(
    cfg: Config, owner: Owner, ctx: Context, urlTo: string -> string, params: PhpArray<Param>)
    requires ParamsWf(params) && IsEmpty(cfg.breadcrumbsKey)
    requires ctx.isWebController && !Reject(cfg.exceptRoutes, ctx.requestedRoute)
    requires BuildEntry(cfg, owner, ctx, urlTo).Success?
    requires TrailAt(params, ParamKey(cfg)).Some?
    requires TrailAt(params, ParamKey(cfg)).value.nextFree < PhpIntMax
    ensures var once := BuildBreadcrumbs(cfg, owner, ctx, urlTo, params);
            && once.Success?
            && var twice := BuildBreadcrumbs(cfg, owner, ctx, urlTo, once.value);
               && twice.Success?
               && Get(twice.value, ParamKey(cfg)).Some? && Get(twice.value, ParamKey(cfg)).value.Trail?
               && var before := TrailAt(params, ParamKey(cfg)).value;
                  var after := Get(twice.value, ParamKey(cfg)).value.items;
                  && |after.entries| == |before.entries| + 2
                  && after.entries[..|before.entries|] == before.entries
                  && after.entries[|before.entries|].value == BuildEntry(cfg, owner, ctx, urlTo).value
                  && after.entries[|before.entries| + 1].value == BuildEntry(cfg, owner, ctx, urlTo).value
  {
    var item := BuildEntry(cfg, owner, ctx, urlTo).value;
    var pk := ParamKey(cfg);
    var before := TrailAt(params, pk).value;
    PositionalWriteAppendsTwice(cfg, before, item);
    var t1 := WriteTrail(cfg, before, item).value;
    var once := StoreItem(cfg, params, item).value;
    assert BuildBreadcrumbs(cfg, owner, ctx, urlTo, params) == Success(once);
    assert Get(once, pk) == Some(Trail(t1));
    assert TrailAt(once, pk) == Some(t1);
    var t2 := WriteTrail(cfg, t1, item).value;
    assert BuildBreadcrumbs(cfg, owner, ctx, urlTo, once) == StoreItem(cfg, once, item);
    assert Get(StoreItem(cfg, once, item).value, pk) == Some(Trail(t2));
  }
}
