/** Worked configurations of the filter. */
module BreadcrumbsExamples {
  import opened Results
  import opened PhpStrings
  import opened PhpArrays
  import opened BreadcrumbsFilter

  /** A module `admin` whose unique id is its route. */
  const AdminModule: Owner :=
    Owner(map["id" := Readable("admin")], map["getUniqueId" := Some("admin")])

  /** With the defaults, a module seen from one of its non-default
      controllers appends `['label' => 'admin', 'url' => Url::to(['/admin'])]`
      at key 0 of an empty bag. */
  lemma DefaultConfigAppendsModuleCrumb(urlTo: string -> string)
    ensures var ctx := Context(true, "admin/user/index", "user", "admin");
            var r := BuildBreadcrumbs(DefaultConfig, AdminModule, ctx, urlTo, EmptyArray());
            && r.Success?
            && Get(r.value, StrKey("breadcrumbs")) ==
                 Some(Trail(PhpArray([Entry(IntKey(0), Crumb("admin", Some(urlTo("/admin"))))], 1)))
  {
    var ctx := Context(true, "admin/user/index", "user", "admin");
    assert !IsSubstring("user", "default") by {
      forall j | 0 <= j <= 3
        ensures !MatchAt("default", "user", j)
      {
        assert "default"[j] != 'u';
        assert "default"[j..j + 4][0] == "default"[j];
      }
    }
    assert ReadProperty(AdminModule, "id") == Success("admin");
    assert !OnModuleDefault(DefaultConfig, AdminModule, ctx);
    assert CreateRoute(DefaultConfig.routeCreator, AdminModule) == Success(Some("admin"));
    assert IsTruthy(Some("admin"));
    assert "/" + "admin" == "/admin";
    var item := Crumb("admin", Some(urlTo("/admin")));
    assert BuildLabel(DefaultConfig, AdminModule) == Success("admin");
    assert BuildUrl(DefaultConfig, AdminModule, ctx, urlTo) == Success(Some(urlTo("/admin")));
    assert BuildEntry(DefaultConfig, AdminModule, ctx, urlTo) == Success(item);
    assert !(exists p :: p in DefaultConfig.exceptRoutes && ExcludedBy(p, ctx.requestedRoute));
    assert ParamKey(DefaultConfig) == StrKey("breadcrumbs");
    assert TrailAt(EmptyArray(), StrKey("breadcrumbs")) == Some(EmptyArray());
    assert WriteTrail(DefaultConfig, EmptyArray(), item).value.entries == [Entry(IntKey(0), item)];
  }

  /** `defaultRoute` is matched by containment, so a controller named
      `fault` also counts as the module's default one and gets no URL. */
  lemma DefaultRouteMatchesBySubstring(urlTo: string -> string)
    ensures BuildUrl(DefaultConfig, AdminModule, Context(true, "admin/fault/index", "fault", "admin"), urlTo)
            == Success(None)
  {
  }

  /** The key cast turns `'5'` into the integer key 5. */
  lemma FiveIsIntegerKey()
    ensures NormalizeKey("5") == IntKey(5)
  {
  }

  /** A numeric `breadcrumbsKey` becomes an integer key and moves the
      next free key past it, so a later positional entry lands at 6. */
  lemma NumericKeyMovesNextFreeKey(item: Item, other: Item)
    ensures var cfg := DefaultConfig.(breadcrumbsKey := "5");
            var keyed := WriteTrail(cfg, EmptyArray(), item);
            && keyed.Success?
            && Get(keyed.value, IntKey(5)) == Some(item)
            && WriteTrail(DefaultConfig, keyed.value, other).value.entries
                 == [Entry(IntKey(5), item), Entry(IntKey(6), other)]
  {
    var cfg := DefaultConfig.(breadcrumbsKey := "5");
    FiveIsIntegerKey();
    assert ItemKey(cfg) == IntKey(5);
    var t1 := WriteTrail(cfg, EmptyArray(), item).value;
    assert t1 == Set(EmptyArray(), IntKey(5), item);
    assert t1.entries == [Entry(IntKey(5), item)];
    assert t1.nextFree == 6;
    assert WriteTrail(DefaultConfig, t1, other).Success?;
  }

  /** A component that implements `getUniqueId` but has no `id` property
      cannot get a URL: the module check reads `$owner->id` before the route
      creator is consulted, whatever route creator is configured. */
  lemma OwnerWithoutIdHasNoUrl(ctx: Context, urlTo: string -> string, rc: RouteCreator)
    ensures var component := Owner(map[], map["getUniqueId" := Some("shop/cart")]);
            BuildUrl(DefaultConfig.(routeCreator := rc), component, ctx, urlTo)
              == Failure(UnknownProperty("id"))
  {
  }
}
