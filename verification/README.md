# BreadcrumbsFilter, modelled in Dafny

`itnelo\filters\BreadcrumbsFilter` is a Yii2 action filter. Before an action
of its owner (usually a module) runs, it adds one breadcrumb entry
`['label' => ..., 'url' => ...]` to the current view's
`params[$breadcrumbsParam]` array. This project models the decision procedure
under the framework glue as pure functions over explicit inputs, and proves
what each step promises:

- `reject`: the requested route is excluded when some pattern is `'*'` or
  occurs in it (`strpos(...) !== false`).
- `buildBreadcrumbLabel`: the configured `label` wins unless PHP-empty (`''`
  or `'0'`). Otherwise the owner property named by `labelParam` is used, and
  a missing property is an error.
- `buildBreadcrumbUrl`: no URL when the owner is the current controller's
  module and `defaultRoute` contains the controller id. Otherwise
  `routeCreator` is dispatched: a string names an owner method, but the guard
  checks `getUniqueId`; a callable is called; anything else is an error. A
  falsy route (`null`, `''`, `'0'`) gives no URL, and a truthy one gives
  `Url::to(['/' . $route])`.
- `buildBreadcrumbs`: a non-empty `breadcrumbsKey` stores the entry under
  that key and overwrites the old value. Otherwise the entry is appended at
  the next integer key.

Files:

- `results.dfy`: `Option` (PHP `null` or a value) and `Result` (a value or a
  thrown exception).
- `php_strings.dfy`: PHP `empty()` and truthiness of strings, `strpos` as a
  first-occurrence search with a reference substring predicate, and decimal
  integer strings.
- `php_arrays.dfy`: a PHP array as an insertion-ordered association list
  with integer or string keys. It has PHP's string-to-integer key cast, the
  next-free-integer counter, `$a[$k] = $v` and `$a[] = $v`.
- `breadcrumbs_filter.dfy`: the filter itself. It covers configuration,
  owner, request context, the view parameter bag and the four operations.
- `breadcrumbs_examples.dfy`: worked configurations.

The `Yii::$app` globals are inputs. `controller` becomes `Context`
(whether it is a web controller, its id, its module's id),
`requestedRoute` is the route, and the view's `params` bag goes in and the
updated bag comes back. `Url::to` is a function parameter `urlTo`. The owner is a record: a map of
properties (readable or setter-only) and a map of methods, each with the
route it returns. Exceptions become `Failure` values of `Error`.

Facts about the code that the model keeps:
- the filter has no guard against running twice: a second positional run
  appends the entry again;
- `defaultRoute` is compared with the controller id alone
  (`strpos($this->defaultRoute, $controller->id)`, line 193);
- `defaultRoute` is a string (default `'default'`); `''` contains no
  non-empty controller id, so it switches the rule off;
- the module check at line 192 reads `$owner->id` for every owner, so an
  owner without a readable `id` property (such as a plain component that
  implements `getUniqueId`, one of the owners the class comment at lines
  53-56 lists) makes the URL step throw;
- exclusion uses substring containment, not `preg_match` as the property
  comment at line 115 still says.

PHP semantics fixed by the model: 64-bit integers; `strpos` with an empty
needle finds it at offset 0 (PHP 8); array keys and the next-free counter
follow PHP before 8.3 (the counter starts at 0, a negative key never moves
it, and it saturates at `PHP_INT_MAX`); appending when the next integer key
is taken is an error (PHP 8 throws).

## Model

| member | source | states |
|---|---|---|
| `PhpStrings.StrPos` | BreadcrumbsFilter.php:216 | `strpos` returns the first offset where the needle occurs, and it returns `false` exactly when the needle is not a substring. An empty needle is found at 0. |
| `BreadcrumbsFilter.Reject` | BreadcrumbsFilter.php:214-221 | The scan rejects exactly when some pattern is `'*'` or a substring of the requested route. `'*'` rejects every route, and no patterns never reject. |
| `BreadcrumbsFilter.RejectOrderIndependent` | BreadcrumbsFilter.php:215-219 | The verdict depends only on which patterns are present, not on their order or repetition. |
| `BreadcrumbsFilter.ReadProperty` | BreadcrumbsFilter.php:182 | Reading an owner property through `Component::__get` (here `$owner->{$labelParam}`, and `$owner->id` at line 192): a missing property is `UnknownProperty(name)`, a setter-only one is `WriteOnlyProperty(name)` (InvalidCallException), and a readable one gives its value. |
| `BreadcrumbsFilter.BuildLabel` | BreadcrumbsFilter.php:174-184 | A label other than `''`/`'0'` is returned as is. Otherwise a missing `labelParam` property is `UnknownProperty(labelParam)`, a setter-only one is `WriteOnlyProperty(labelParam)`, and a readable one gives its value. No other error is possible. |
| `BreadcrumbsFilter.ExplicitLabelIgnoresOwner` | BreadcrumbsFilter.php:175-176 | A non-empty label gives the same result for every owner, even one without the `labelParam` property. |
| `BreadcrumbsFilter.ZeroLabelIsNoLabel` | BreadcrumbsFilter.php:175 | The label `'0'` behaves exactly like the empty label. |
| `BreadcrumbsFilter.CreateRoute` | BreadcrumbsFilter.php:196-206 | A string creator succeeds iff the owner has both `getUniqueId` and the named method, and then returns that method's route. Without `getUniqueId` it fails with `UnknownMethod("getUniqueId")` whatever name is configured; with `getUniqueId` but without the named method it fails with `UnknownMethod(name)` from `Component::__call`. A callable's result is returned. Anything else is `InvalidRouteCreator`. |
| `BreadcrumbsFilter.BuildUrl` | BreadcrumbsFilter.php:191-208 | The owner's `id` is read first, for every owner: if that read fails, its error is the result. Own module plus `defaultRoute` containing the controller id gives no URL. Otherwise a route-creator error propagates. A falsy route gives no URL, and any URL is `urlTo("/" + route)` of a truthy route. |
| `BreadcrumbsFilter.ModuleDefaultIgnoresRouteCreator` | BreadcrumbsFilter.php:192-195 | On the module's default controller every route creator, including an invalid one, yields no URL and no error. |
| `BreadcrumbsFilter.BuildEntry` | BreadcrumbsFilter.php:158-161 | The label is evaluated first, so its error wins. The entry exists iff both label and URL succeed, and then it carries exactly those two values. |
| `BreadcrumbsFilter.TrailAt` | BreadcrumbsFilter.php:163-165 | The breadcrumbs array written into is the one already in the view parameter, so existing breadcrumbs survive the write. A missing or `null` parameter starts as `[]`. It is unavailable exactly when the parameter holds a scalar. |
| `BreadcrumbsFilter.WriteTrail` | BreadcrumbsFilter.php:162-166 | With a non-empty key, that key maps to the entry and every other key is unchanged. With an empty key, the entry is appended under the next free integer key, and this fails only when that key is already taken. Existing keys never move. Afterwards the next free key is as PHP leaves it: one past the appended key, or one past a new keyed integer key at or above it (saturating at `PHP_INT_MAX`), otherwise unchanged. |
| `BreadcrumbsFilter.StoreItem` | BreadcrumbsFilter.php:162-166 | Only the `breadcrumbsParam` slot of the view parameters changes, and it holds the written array afterwards. Every other slot keeps its value, the existing slots keep their order, a new slot goes at the end, and the bag's next free key is unchanged unless a new integer slot moves it. A scalar slot is `NotAnArray`. |
| `BreadcrumbsFilter.BuildBreadcrumbs` | BreadcrumbsFilter.php:153-168 | A non-web controller is an error. An excluded route returns the bag unchanged. Otherwise the entry's error propagates, or the entry is stored. Well-formedness of the bag is preserved. |
| `BreadcrumbsFilter.StoreItemKeyedIdempotent` | BreadcrumbsFilter.php:162-163 | Storing the same entry twice under a key equals storing it once. |
| `BreadcrumbsFilter.KeyedFilterIdempotent` | BreadcrumbsFilter.php:153-168 | In keyed mode, running the filter again on its own output returns that output. |
| `BreadcrumbsFilter.PositionalWriteAppendsTwice` | BreadcrumbsFilter.php:165 | Below a saturated counter, appending twice succeeds both times. It adds the same entry twice at the end, under the consecutive keys `nextFree` and `nextFree + 1`, and leaves the old prefix unchanged. |
| `BreadcrumbsFilter.PositionalFilterAppendsTwice` | BreadcrumbsFilter.php:153-168 | In positional mode a second run on the first run's output succeeds and appends the same entry again. The array grows by two with its old prefix unchanged, whenever the entry builds and the next free key is below `PHP_INT_MAX`. |
| `PhpArrays.NormalizeKey` | BreadcrumbsFilter.php:163 | The key cast keeps non-numeric strings as string keys and yields integer keys within `PHP_INT_MIN..PHP_INT_MAX`. |
| `PhpArrays.NormalizedIntKeyIsDecimal` | BreadcrumbsFilter.php:163 | A string cast to an integer key is exactly the decimal spelling of that integer. |
| `PhpArrays.DecimalKeyNormalizes` | BreadcrumbsFilter.php:163 | The decimal spelling of every platform integer is cast to that integer key. This is the converse of the previous row. |
| `PhpArrays.Set` | BreadcrumbsFilter.php:163 | After `$a[$k] = $v`, `$k` maps to `$v` and every other key keeps its value. An existing key keeps its position and the counter. A new key is added at the end; a new integer key at or above the counter moves it one past that key (saturating at `PHP_INT_MAX`), any other new key leaves it. The array stays well formed. |
| `PhpArrays.SetIdempotent` | BreadcrumbsFilter.php:163 | Assigning the same value to the same key twice equals assigning it once. |
| `PhpArrays.Append` | BreadcrumbsFilter.php:165 | `$a[] = $v` adds the entry at the end under the next free key, which exceeds every integer key present. Afterwards the counter is one higher (saturating at `PHP_INT_MAX`). It fails exactly when the counter is saturated at `PHP_INT_MAX` and that key is taken. |
| `BreadcrumbsExamples.DefaultConfigAppendsModuleCrumb` | BreadcrumbsFilter.php:68-168 | With the class defaults, module `admin` seen from its `user` controller appends `admin` with URL `Url::to(['/admin'])` at key 0 of an empty bag. |
| `BreadcrumbsExamples.DefaultRouteMatchesBySubstring` | BreadcrumbsFilter.php:192-194 | With `defaultRoute = 'default'`, controller `fault` counts as the default one, so its module gets no URL. |
| `BreadcrumbsExamples.OwnerWithoutIdHasNoUrl` | BreadcrumbsFilter.php:192 | A component with `getUniqueId` but no `id` property gets `UnknownProperty("id")` from the URL step, whatever route creator is configured. |
| `BreadcrumbsExamples.NumericKeyMovesNextFreeKey` | BreadcrumbsFilter.php:162-165 | `breadcrumbsKey = '5'` stores under integer key 5, and a later positional entry lands at key 6. |

## Left out

- `beforeAction` and `parent::beforeAction` (lines 145-148): these are
  framework lifecycle plumbing. The model starts at `buildBreadcrumbs`.
- `Instance::ensure` (line 154): the DI type check is the boolean
  `Context.isWebController`. A non-web controller is the error
  `NotWebController`.
- `Url::to` (line 207): URL generation belongs to the framework router. It is
  the function parameter `urlTo`, applied to `'/' . $route`.
- `BreadcrumbsFilter.CreateRoute`: a callable `routeCreator` receives the
  filter in PHP but the owner alone here. A Dafny datatype cannot hold a
  function over itself. The callable is also assumed pure and not to throw.
- `BreadcrumbsFilter.CreateRoute`: PHP method names are case-insensitive, but
  here the owner's method names are compared exactly.
- Owner properties are strings. A `null` or other non-string property value
  is not modelled: such an owner can only be shown as lacking the property,
  which gives `UnknownProperty` where PHP would read `null` (a `null` label
  at line 182, or an `id` that never equals the module id at line 192).
  Method results are strings or `null`; non-string results that PHP would
  coerce (`false`, integers, objects) are not modelled.
- Exception messages are not modelled. Each `Error` constructor names the
  exception's cause and the property or method involved.
- `BreadcrumbsFilter.TrailAt`: a view parameter holding a scalar is the
  error `NotAnArray`. PHP's version-dependent handling of writes into `''`,
  `false` or a non-empty string is not modelled. A missing or `null`
  parameter becomes `[]`, as PHP does.
- `PhpArrays.Append`: PHP 7 only warns and drops the value when the next key
  is taken. Here it is a failure, as in PHP 8.
- `PhpStrings.StrPos`: strings are sequences of characters, so offsets count
  characters, while PHP's `strpos` counts bytes. They differ for multibyte
  input. The filter only tests the result against `false`, which does not
  depend on the unit.
- `strpos` with an empty needle: PHP 7 warns and returns `false`. The PHP 8
  behaviour (found at offset 0) is modelled.
