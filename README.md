# Page analytics: tracking state, leads and funnel inference

A Dafny model of the core of a page-analytics service. Each tracked web page
(`Page`) keeps a configuration (viewport size and the interaction categories
it tracks: click, context, hover), a cache (the last screenshot and one
heatmap grid per category), and `leads`, a count of observed referrals per
referring key. The service answers three questions with them:

- `track(event, point)` is meant to add 1 to the heatmap cell under a point,
  capturing the page first when the category has no grid yet. As written it
  never does: its category gate never opens (see Findings);
- `lead(from)` counts one more referral from `from`;
- `getFunnel(id, maxDepth)` walks back from a page, each step to the page of
  its heaviest lead, and returns the path.

Files:

- `wrappers.dfy` (`Wrappers`): `Option` for JavaScript `null`, `Result` for a
  call that may throw.
- `js_semantics.dfy` (`JsSemantics`): what `key in array` means in
  JavaScript. It tests for a property name (an index numeral, `length` or an
  inherited method name), not for an element.
- `page.dfy` (`Pages`): `src/component/page.ts`. `PageConfig` is a value
  (nothing mutates it). `PageCache` and `Page` are classes whose methods
  update their fields in place. Heatmaps are `seq<seq<int>>` values stored in
  the cache's `tracking` map; a category without a key is the source's `null`.
- `page_collection.dfy` (`PageCollection`): `getFunnel` of
  `src/component/page-collection.ts`. The store's `getPage` is a lookup map
  passed in. `GetFunnel` is the loop, proved equal to the function `Funnel`.
  The lemmas state what that function promises.

The model takes the screenshot that the browser would return as a parameter
(`shot`). The nearest-neighbour resampling that TensorFlow performs is a
function parameter (`Resampler`), and the only thing assumed of it is that
its result is rectangular. The page identifier that `uniqid` would generate
is a constructor argument.

Where the evidently intended behaviour and the code disagree, the model
follows the code on ties between leads and on lazy initialisation. On
clamping and on the category gate it carries both versions: the code as
written, and the corrected behaviour, which the stateful operations use.

- Ties between heaviest leads: one might expect the first key of greatest
  count to win. The `reduce` with strict `>` keeps its running choice only
  when it is strictly heavier, so the LAST key of greatest count wins
  (`Heaviest`, `FunnelScenario` with a tie).
- Clamping: the `Math.min` calls evidently mean to bring a point into the
  grid, which needs a clamp on both sides. The code clamps from above only
  (see Findings). `BumpAsWritten` is the code as written; `ClampedBump` is
  the correction, and `PageCache.Increment`, `Page.TrackAfterGate` and
  `Page.Track` use it.
- The category gate: `track` and `hotspot` evidently mean to act on the
  categories listed in `hotspot.track`. The code's gate never opens (see
  Findings). `Page.TrackAsWritten` and `Page.HotspotAsWritten` are the code
  as written; `Page.Track` and `Page.Hotspot` use the corrected gate.
- Lazy initialisation: when a screenshot is already cached, `view()` returns
  early, so the category's grid stays `null` and `track` throws. The model
  has this as the `TypeError` result of `Page.TrackAfterGate`.

## Model

| member | source | states |
|---|---|---|
| `JsSemantics.DecimalString` | src/component/page.ts:110 | the property key of array index `n` is a non-empty decimal numeral, with no leading zero from 10 on |
| `JsSemantics.ArrayHasKey` | src/component/page.ts:101 | `key in arr` holds for "length" and every inherited name; any other key it holds for is a numeral, so a name with a letter in it that is neither is absent whatever the elements |
| `Pages.ConfigFrom` | src/component/page.ts:34-36 | the rebuilt configuration keeps the view settings and tracks the default `["click"]` whatever the input tracked |
| `Pages.Truthy` | src/component/page.ts:81 | a cached screenshot counts as present exactly when it is a buffer or a non-empty string; `null` never does |
| `Pages.ConfigRoundTrip` | src/component/page.ts:34-36 | restoring a configuration keeps its view settings; the result equals the input exactly when it tracked the default `["click"]` |
| `Pages.Zeros` | src/component/page.ts:93 | a fresh grid has `width` rows of `height` cells, all zero |
| `Pages.BumpAsWritten` | src/component/page.ts:112-114 | as written: throws exactly for an empty grid or a negative row; a negative column or a grid without columns leaves every cell as it was; otherwise exactly cell `(min(rows-1,x), min(cols-1,y))` grows by 1, inside the grid, and nothing else changes |
| `Pages.Clamp` | src/component/page.ts:112-113 | the clamped index lies in `[0, n)`, is the input when already inside, 0 below, `n-1` above |
| `Pages.ClampedBump` | src/component/page.ts:112-114 | throws exactly for an empty grid; otherwise exactly the nearest in-bounds cell grows by 1 and the shape and every other cell stay |
| `Pages.BumpKeepsShape` | src/component/page.ts:114 | bumping one cell keeps a grid rectangular |
| `Pages.ClampedBumpAgreesOnNonNegative` | src/component/page.ts:112-113 | for non-negative coordinates the corrected increment equals the code's |
| `Pages.NegativeRowThrows` | src/component/page.ts:112-114 | on a 10 x 10 grid the point (-3, 50) throws as written, while the corrected increment bumps cell (0, 9) only |
| `Pages.Bumped` | src/component/page.ts:121-127 | one referral raises the key's weight by exactly 1 (an absent key goes from 0 to 1), every other weight is unchanged, and a new key is appended to the key order |
| `Pages.BumpedKeysAndPositivity` | src/component/page.ts:121-126 | one referral adds exactly its key to the key set and keeps all counts positive when they were |
| `Pages.BumpedTimesCount` | src/component/page.ts:121-126 | n referrals from a key raise its weight by exactly n |
| `Pages.BumpedTimesOthers` | src/component/page.ts:122-123 | n referrals from a key leave every other key's weight unchanged |
| `Pages.FreshKeyCountsReferrals` | src/component/page.ts:124-126 | n referrals from a key a page has never seen give it weight n |
| `Pages.Refreshed` | src/component/page.ts:89-95 | after the loop, the categories with grids are the old ones plus every tracked one, and rectangular grids stay rectangular |
| `Pages.RefreshedLeavesUntracked` | src/component/page.ts:89-95 | a category outside the tracked list keeps its grid, or keeps having none |
| `Pages.RefreshedInitializesMissing` | src/component/page.ts:92-94 | a tracked category listed once that had no grid gets an all-zero `width x height` grid |
| `Pages.PageRoundTrip` | src/component/page.ts:129-141 | `Page.from(p.serialize())` keeps id, url, cache, leads and view settings, resets the tracked categories to `["click"]`, and is the identity exactly when they already were the default |
| `Pages.PageCache.constructor` | src/component/page.ts:49-54 | a new cache has no screenshot and no grids |
| `Pages.PageCache.Serialize` | src/component/page.ts:56-61 | the cache's plain form is exactly its screenshot and its grids |
| `Pages.PageCache.From` | src/component/page.ts:63-65 | the rebuilt cache serializes back to its input |
| `Pages.PageCache.Increment` | src/component/page.ts:114 | the only change is the event's grid replaced by its bump with both coordinates clamped (the corrected clamp, see Findings); throws exactly for an empty grid; returns true otherwise |
| `Pages.Page.constructor` | src/component/page.ts:78 | the page holds exactly the given url, config, cache, leads and id |
| `Pages.Page.WithDefaults` | src/component/page.ts:78 | a page built from a url alone has the default configuration, a new cache with no screenshot and no grids, and no leads |
| `Pages.Page.Serialize` | src/component/page.ts:129-137 | the page's plain form is exactly its id, url, configuration, the cache's plain form and its leads |
| `Pages.Page.From` | src/component/page.ts:139-141 | the rebuilt page is new and serializes to its input with the tracked categories reset |
| `Pages.Page.Lead` | src/component/page.ts:121-127 | `leads` becomes the one-referral update: the key's weight grows by 1, other weights stay |
| `Pages.Page.View` | src/component/page.ts:80-98 | with a truthy cached screenshot and `nocache` false it returns that screenshot and changes nothing; otherwise it stores and returns the new screenshot and the grids become the refreshed ones |
| `Pages.Page.TrackAfterGate` | src/component/page.ts:111-115 | with a grid: its cell, clamped on both sides as corrected under Findings, is bumped and true returned (empty grid: throws, nothing changes); without a grid and a cached screenshot: throws, nothing changes; without either: capture and refresh, then the bump on the refreshed grid, or, when the refreshed grid is missing or empty, a throw with the refresh kept |
| `Pages.Page.Track` | src/component/page.ts:109-119 | with the gate corrected: an untracked category gives false and changes nothing. A tracked one with a non-empty grid gives true, with exactly that grid's clamped cell bumped; with an empty grid it throws and nothing changes. A tracked one without a grid throws and changes nothing when a screenshot is cached. Without either, the page is captured and the grids refreshed; the refreshed grid is then bumped and true returned, or, when it is empty (a zero-width view), the call throws after the refresh |
| `Pages.Page.TrackAsWritten` | src/component/page.ts:109-119 | when the array-property gate fails, the result is false and the cache is unchanged |
| `Pages.Page.HotspotAfterGate` | src/component/page.ts:102-103 | returns the grid to activate (captured first when missing); a grid still missing after a cut-short capture throws |
| `Pages.Page.Hotspot` | src/component/page.ts:100-107 | with the gate corrected: `null` for an untracked category with no change; the existing grid for a tracked one, with no change; for a tracked one without a grid, a throw and no change when a screenshot is cached, and otherwise the capture is stored and the refreshed grid returned |
| `Pages.Page.HotspotAsWritten` | src/component/page.ts:100-107 | when the array-property gate fails, the result is `null` and the cache is unchanged |
| `Pages.TrackGateNeverOpens` | src/component/page.ts:110 | `event in this.config.hotspot.track` is false for every category and every tracked list |
| `Pages.DefaultClickIsDropped` | src/component/page.ts:23-25 | on the default configuration a click is tracked, yet the gate as written rejects it |
| `Pages.TrackAsWrittenNeverRecords` | src/component/page.ts:109-119 | as written, `track` returns false and changes nothing on any page, for any event |
| `Pages.HotspotAsWrittenIsNull` | src/component/page.ts:100-107 | as written, `hotspot` returns `null` and changes nothing on any page, for any event |
| `PageCollection.Heaviest` | src/component/page-collection.ts:17 | the reduce yields a key of greatest count such that every later key is strictly lighter: the last heaviest key |
| `PageCollection.HeaviestStep` | src/component/page-collection.ts:17 | one step of the fold turns the last heaviest key of a prefix into the last heaviest key of the prefix plus one entry |
| `PageCollection.HeaviestIsUnique` | src/component/page-collection.ts:17 | any last heaviest key is the reduce's result, so the property defines it |
| `PageCollection.NextKey` | src/component/page-collection.ts:17 | the followed key is a lead key whose weight is at least every other key's |
| `PageCollection.Walk` | src/component/page-collection.ts:15-21 | the loop appends at most its number of iterations, and every page it appends has well-formed leads |
| `PageCollection.Funnel` | src/component/page-collection.ts:11-23 | `getFunnel` as a value: it fails, with "cannot find page", exactly when the start id does not resolve, and otherwise starts with the start page |
| `PageCollection.GetFunnelDefault` | src/component/page-collection.ts:11 | called without options, `getFunnel` is the funnel of depth 4 |
| `PageCollection.GetFunnel` | src/component/page-collection.ts:11-23 | the loop computes `Funnel`: a missing start throws, otherwise the start page followed by the walk |
| `PageCollection.WalkEnds` | src/component/page-collection.ts:16-19 | the walk adds nothing with no iterations left, at a page without leads, or when the heaviest lead does not resolve |
| `PageCollection.WalkSteps` | src/component/page-collection.ts:17-20 | otherwise it appends the heaviest lead's page and continues from it |
| `PageCollection.FunnelShape` | src/component/page-collection.ts:12-22 | the funnel fails exactly when the start id does not resolve; otherwise it starts with the start page and has between 1 and `maxDepth + 1` pages |
| `PageCollection.WalkFollowsHeaviest` | src/component/page-collection.ts:17-20 | in a walk each page is the store's page for the heaviest lead of the page before it |
| `PageCollection.FunnelFollowsHeaviest` | src/component/page-collection.ts:17-20 | `funnel[i+1]` is the store's page for the heaviest lead of `funnel[i]` |
| `PageCollection.WalkStopsEarlyOnlyAtDeadEnds` | src/component/page-collection.ts:16-19 | a walk shorter than its bound ends at a page without leads or whose heaviest lead does not resolve |
| `PageCollection.FunnelStopsEarlyOnlyAtDeadEnds` | src/component/page-collection.ts:16-19 | a funnel shorter than `maxDepth + 1` ends at such a dead end |
| `PageCollection.FunnelOfIsolatedPage` | src/component/page-collection.ts:14-16 | a page without leads, or a depth of 0 or less, gives just `[start]` |
| `PageCollection.SelfLeadRepeats` | src/component/page-collection.ts:15-21 | a page whose heaviest lead is itself repeats to the full depth: there is no cycle check |
| `PageCollection.ScenarioNext` | src/component/page-collection.ts:17 | B's heaviest lead is A (3 leads) unless D has at least 3, a tie going to D |
| `PageCollection.FunnelScenario` | src/component/page-collection.ts:11-23 | with B led to 3 times from A and C 5 times from B, the funnel from C is C, B, A; D's leads to B change the last page to D once they reach 3 |

## Left out

- Screenshot capture (browser start, navigation, viewport, screenshot, page
  close): the captured screenshot is a parameter. Failures of the browser are
  not modelled.
- `tf.image.resizeNearestNeighbor` on an existing grid: a function parameter.
  Nothing is promised about its output except that it is rectangular.
- `tf.sigmoid` in `hotspot`: `Hotspot` returns the grid whose elementwise
  logistic the source would return. Floating point is not modelled.
- `Math.round` of the point: the model takes integer coordinates.
- `uniqid`: the identifier is a constructor argument.
- `async`/`await`: concurrent calls on one page, and whether increments and
  lazy initialisation are atomic, are not modelled. Each operation runs to
  completion.
- `Object.keys` order: it is the explicit `keys` sequence of `Leads`, in
  insertion order. The JavaScript rule that integer-like keys come first in
  ascending order is not modelled.
- `Pages.Page.Lead`: keys inherited from `Object.prototype` (`"toString"`,
  ...), which `in` reports as present on a fresh object, are not modelled.
  For them the source adds 1 to a function.
- `Pages.BumpAsWritten`, `Pages.PageCache.From`, `Pages.Page.From`,
  `Pages.Page.constructor`: jagged grids are not modelled. A row shorter than
  row 0 would get a hole-extended row with `NaN`. Grids are required
  rectangular, as `view` and the tensor results make them, although
  `PageCache.from` and the constructor accept any plain data.
- `Pages.Bumped`, `Pages.Page.Lead`: counts are unbounded integers. In the
  source they are JavaScript numbers (doubles), so past 2^53 `+= 1` no longer
  changes a count.
- `PageCollection.GetFunnel`: `maxDepth` is an integer. A fractional depth
  would run ceil(maxDepth) iterations, `NaN` none and `Infinity` as many as
  the walk allows, which with a self-lead is forever; none of these is
  modelled.
- View dimensions are `nat`: negative or fractional widths and heights, and
  the `downsample` quality, are not modelled.
- Aliasing: `serialize` hands out the live `tracking` and `leads` objects,
  and `from` reuses them, so a restored page shares them with the original.
  The model copies values, so mutations made after a round trip are not
  shared.
- `PageConfig.serialize` has no member of its own: `PageConfig` is a value,
  and its plain form is the value itself.
- `addPage` and `removePage` of the collection are abstract in the source and
  are not part of this model; `getPage` is the lookup map.
- `src/core/express.ts` (HTTP dispatch) and `src/core/browser.ts` (browser
  singleton) are not part of this model.

## Findings

| source | as written | input that shows it | evidently intended | confidence | as-written member | corrected member |
|---|---|---|---|---|---|---|
| src/component/page.ts:110 | `event in this.config.hotspot.track` tests whether the array has a property named "click", "context" or "hover"; no array does, so `track` always returns false (and `hotspot`, line 101, always `null`) | a default page and `track("click", {x: 1, y: 1})`: returns false, no cell changes | record the event when the category is in the tracked list (`includes`) | high, not executed | `Pages.TrackAsWrittenNeverRecords` | `Pages.Page.Track` |
| src/component/page.ts:112-113 | the row and column are clamped from above only; a negative row index reads `undefined[y]` and throws a TypeError, a negative column index writes a stray `NaN` property | a 10 x 10 grid and the point (-3, 50): throws, where the nearest cell is (0, 9) | clamp both coordinates into the grid | medium, not executed | `Pages.NegativeRowThrows` | `Pages.ClampedBump` |
