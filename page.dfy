/** One tracked web page (src/component/page.ts): its configuration, its cache
    of the captured screenshot and per-category interaction heatmaps, and the
    counts of the leads (referrals) observed into it. */
module Pages {
  import opened Wrappers
  import JsSemantics

  // ---------------------------------------------------------------- values

  /** The interaction categories a page can track. */
  datatype Event = Click | Context | Hover

  /** The string literal the source uses for each category. */
  function Name(e: Event): string
  {
    match e
    case Click => "click"
    case Context => "context"
    case Hover => "hover"
  }

  /** What a page operation can throw. */
  datatype Error =
    | TypeError     // a property read or write on `null`/`undefined`, or a foreign call given `null`
    | PageNotFound  // `Error("cannot find page")` of the page collection

  datatype Encoding = Binary | Base64

  /** `config.view`: the viewport the screenshot is taken at. */
  datatype ViewConfig = ViewConfig(width: nat, height: nat, downsample: real, encoding: Encoding)

  /** `PageConfig`: the view settings and `hotspot.track`, the tracked
      categories in the order the source iterates them. */
  datatype PageConfig = PageConfig(view: ViewConfig, track: seq<Event>)

  const DefaultView := ViewConfig(1024, 768, 0.8, Binary)
  const DefaultTrack: seq<Event> := [Click]
  const DefaultConfig := PageConfig(DefaultView, DefaultTrack)

  /** `PageConfig.from`: rebuilds a configuration from its plain form, passing
      only the view settings on, so the tracked categories fall back to the
      default. (`PageConfig.serialize` is the identity on this value.) */
  function ConfigFrom(data: PageConfig): (c: PageConfig)
    ensures c.view == data.view && c.track == DefaultTrack
  {
    PageConfig(data.view, DefaultTrack)
  }

  /** Restoring a configuration gives it back exactly when it tracks the
      default categories: the round trip loses `hotspot.track`. */
  lemma ConfigRoundTrip(c: PageConfig)
    ensures ConfigFrom(c).view == c.view
    ensures ConfigFrom(c) == c <==> c.track == DefaultTrack
  {
  }

  /** A captured screenshot: a string for the base64 encoding, a buffer for
      the binary one. */
  datatype Snapshot = Text(text: string) | Bytes(bytes: seq<bv8>)

  /** JavaScript truthiness of `cache.view`: `null` and the empty string are
      falsy, every buffer is truthy. */
  predicate Truthy(v: Option<Snapshot>): (b: bool)
    ensures b ==> v.Some?
    ensures v.Some? && v.value.Bytes? ==> b
    ensures v.Some? && v.value.Text? ==> (b <==> v.value.text != "")
  {
    v.Some? && (v.value.Bytes? || |v.value.text| > 0)
  }

  // ----------------------------------------------------------------- grids

  /** A heatmap: `number[][]`, rows first. */
  type Grid = seq<seq<int>>

  /** Every row is as long as the first one. */
  predicate Rectangular(g: Grid)
  {
    forall i :: 0 <= i < |g| ==> |g[i]| == |g[0]|
  }

  /** Every grid of a `cache.tracking` map is rectangular. */
  predicate GridsRectangular(tracking: map<Event, Grid>)
  {
    forall e :: e in tracking ==> Rectangular(tracking[e])
  }

  /** `tf.zeros([rows, cols]).array()`: `rows` rows of `cols` zeros. */
  function Zeros(rows: nat, cols: nat): (g: Grid)
    ensures |g| == rows && Rectangular(g)
    ensures forall i :: 0 <= i < rows ==> |g[i]| == cols
    ensures forall i, j :: 0 <= i < rows && 0 <= j < cols ==> g[i][j] == 0
  {
    seq(rows, _ => seq(cols, _ => 0))
  }

  /** `tf.image.resizeNearestNeighbor([grid], [width, height])` read back as
      an array: a foreign computation, taken as a parameter. All that is
      assumed of it is that it yields a tensor, so its rows have one length. */
  type Resampler = f: (Grid, nat, nat) -> Grid | forall g, w, h :: Rectangular(f(g, w, h))
    witness (g: Grid, w: nat, h: nat) => []

  function Min(a: int, b: int): int
  {
    if a < b then a else b
  }

  /** `g2` is `g` with cell (i, j) one higher and every other cell, and the
      shape, unchanged. */
  predicate OnlyCellBumped(g: Grid, g2: Grid, i: int, j: int)
  {
    && |g2| == |g|
    && (forall r :: 0 <= r < |g| ==> |g2[r]| == |g[r]|)
    && 0 <= i < |g| && 0 <= j < |g[i]|
    && g2[i][j] == g[i][j] + 1
    && (forall r, c :: 0 <= r < |g| && 0 <= c < |g[r]| && (r, c) != (i, j) ==> g2[r][c] == g[r][c])
  }

  /** page.ts:112-114 as written: the row is `min(rows - 1, x)` and the column
      `min(cols - 1, y)`, clamped from above only. An empty grid (no row 0) or
      a negative row index reads a row of `undefined` and throws; a negative
      column index writes a stray non-index property (`NaN`) on the row and
      leaves every cell as it was. */
  function BumpAsWritten(g: Grid, x: int, y: int): (r: Result<Grid, Error>)
    requires Rectangular(g)
    ensures r.Failure? <==> |g| == 0 || x < 0
    ensures r.Failure? ==> r.error == TypeError
    ensures r.Success? && (y < 0 || |g[0]| == 0) ==> r.value == g
    ensures r.Success? && y >= 0 && |g[0]| > 0 ==>
              OnlyCellBumped(g, r.value, Min(|g| - 1, x), Min(|g[0]| - 1, y))
  {
    if |g| == 0 then Failure(TypeError)
    else
      var xi := Min(|g| - 1, x);
      var yi := Min(|g[0]| - 1, y);
      if xi < 0 then Failure(TypeError)
      else if yi < 0 then Success(g)
      else Success(g[xi := g[xi][yi := g[xi][yi] + 1]])
  }

  /** Saturates `v` to the index range `[0, n)`. */
  function Clamp(v: int, n: nat): (r: int)
    requires n > 0
    ensures 0 <= r < n
    ensures 0 <= v < n ==> r == v
    ensures v < 0 ==> r == 0
    ensures v >= n ==> r == n - 1
  {
    if v < 0 then 0 else if v >= n then n - 1 else v
  }

  /** The increment with the lower clamp the source omits: a point outside
      the grid updates the nearest in-bounds cell. An empty grid still throws
      and a grid without columns is still left as it is. */
  function ClampedBump(g: Grid, x: int, y: int): (r: Result<Grid, Error>)
    requires Rectangular(g)
    ensures r.Failure? <==> |g| == 0
    ensures r.Failure? ==> r.error == TypeError
    ensures r.Success? && |g[0]| == 0 ==> r.value == g
    ensures r.Success? && |g[0]| > 0 ==> OnlyCellBumped(g, r.value, Clamp(x, |g|), Clamp(y, |g[0]|))
  {
    if |g| == 0 then Failure(TypeError)
    else if |g[0]| == 0 then Success(g)
    else
      var xi := Clamp(x, |g|);
      var yi := Clamp(y, |g[0]|);
      Success(g[xi := g[xi][yi := g[xi][yi] + 1]])
  }

  /** A bumped grid keeps its shape, so it stays rectangular. */
  lemma BumpKeepsShape(g: Grid, g2: Grid, i: int, j: int)
    requires Rectangular(g) && OnlyCellBumped(g, g2, i, j)
    ensures Rectangular(g2)
  {
  }

  /** On non-negative coordinates the two increments agree, so the corrected
      one changes nothing the source does on the inputs it handles. */
  lemma {:induction false} ClampedBumpAgreesOnNonNegative(g: Grid, x: int, y: int)
    requires Rectangular(g) && x >= 0 && y >= 0
    ensures ClampedBump(g, x, y) == BumpAsWritten(g, x, y)
  {
  }

  /** The point (-3, 50) on a 10 x 10 grid: as written the increment throws,
      while the nearest in-bounds cell is (0, 9). */
  lemma NegativeRowThrows()
    ensures BumpAsWritten(Zeros(10, 10), -3, 50) == Failure(TypeError)
    ensures ClampedBump(Zeros(10, 10), -3, 50).Success?
    ensures OnlyCellBumped(Zeros(10, 10), ClampedBump(Zeros(10, 10), -3, 50).value, 0, 9)
  {
  }

  // ----------------------------------------------------------------- leads

  /** `leads`: a plain object from referrer key to count; `keys` is its key
      order (insertion order), which `Object.keys` reports. */
  datatype Leads = Leads(counts: map<string, int>, keys: seq<string>)
  {
    /** The keys are distinct and are exactly the object's keys. */
    ghost predicate Valid()
    {
      && (forall i, j :: 0 <= i < j < |keys| ==> keys[i] != keys[j])
      && (forall k :: k in counts <==> k in keys)
    }

    /** The weight of `k`; a key never seen weighs 0. */
    function Count(k: string): int
    {
      if k in counts then counts[k] else 0
    }
  }

  const NoLeads := Leads(map[], [])

  /** Every count is positive. */
  ghost predicate PositiveCounts(l: Leads)
  {
    forall k :: k in l.counts ==> l.counts[k] > 0
  }

  /** `lead(k)`: the leads after one more referral from `k`. */
  function Bumped(l: Leads, k: string): (r: Leads)
    requires l.Valid()
    ensures r.Valid()
    ensures r.Count(k) == l.Count(k) + 1
    ensures forall k' :: k' != k ==> r.Count(k') == l.Count(k')
    ensures r.keys == if k in l.counts then l.keys else l.keys + [k]
  {
    if k in l.counts then Leads(l.counts[k := l.counts[k] + 1], l.keys)
    else Leads(l.counts[k := 1], l.keys + [k])
  }

  /** A referral adds its key to the key set and keeps every count
      positive when all were. */
  lemma BumpedKeysAndPositivity(l: Leads, k: string)
    requires l.Valid()
    ensures Bumped(l, k).counts.Keys == l.counts.Keys + {k}
    ensures PositiveCounts(l) ==> PositiveCounts(Bumped(l, k))
  {
  }

  /** The leads after `n` referrals from `k`. */
  function BumpedTimes(l: Leads, k: string, n: nat): (r: Leads)
    requires l.Valid()
    ensures r.Valid()
  {
    if n == 0 then l else Bumped(BumpedTimes(l, k, n - 1), k)
  }

  /** `n` referrals from `k` raise its weight by exactly `n`. */
  lemma {:induction false} BumpedTimesCount(l: Leads, k: string, n: nat)
    requires l.Valid()
    ensures BumpedTimes(l, k, n).Count(k) == l.Count(k) + n
  {
    if n > 0 {
      var prev := BumpedTimes(l, k, n - 1);
      assert prev.Valid();
      BumpedTimesCount(l, k, n - 1);
      assert BumpedTimes(l, k, n) == Bumped(prev, k);
    }
  }

  /** One referral from `k` leaves the weight of `other` alone. */
  lemma BumpedLeavesOther(l: Leads, k: string, other: string)
    requires l.Valid() && other != k
    ensures Bumped(l, k).Count(other) == l.Count(other)
  {
  }

  /** Referrals from `k` leave every other weight alone. */
  lemma {:induction false} BumpedTimesOthers(l: Leads, k: string, n: nat, other: string)
    requires l.Valid() && other != k
    ensures BumpedTimes(l, k, n).Count(other) == l.Count(other)
  {
    if n > 0 {
      var prev := BumpedTimes(l, k, n - 1);
      assert prev.Valid();
      BumpedTimesOthers(l, k, n - 1, other);
      BumpedLeavesOther(prev, k, other);
      assert BumpedTimes(l, k, n) == Bumped(prev, k);
    }
  }

  /** On a fresh page, `n` referrals from `k` give `k` the weight `n`. */
  lemma FreshKeyCountsReferrals(k: string, n: nat)
    ensures BumpedTimes(NoLeads, k, n).Count(k) == n
  {
  }

  // ------------------------------------------------------------- hotspots

  /** The heatmaps after a fresh capture, by the loop of page.ts:89-95: every
      category in `track`, in order, gets a `width x height` zero grid if it
      had none, and otherwise the resampled version of the grid it had. */
  function Refreshed(tracking: map<Event, Grid>, track: seq<Event>, width: nat, height: nat, resize: Resampler)
    : (r: map<Event, Grid>)
    ensures r.Keys == tracking.Keys + set e | e in track
    ensures GridsRectangular(tracking) ==> GridsRectangular(r)
    decreases |track|
  {
    if track == [] then tracking
    else
      var e := track[0];
      var g := if e in tracking then resize(tracking[e], width, height) else Zeros(width, height);
      Refreshed(tracking[e := g], track[1..], width, height, resize)
  }

  /** Categories outside `track` keep their grid, or keep having none. */
  lemma {:induction false} RefreshedLeavesUntracked(tracking: map<Event, Grid>, track: seq<Event>, width: nat, height: nat, resize: Resampler, e: Event)
    requires e !in track
    ensures e in Refreshed(tracking, track, width, height, resize) <==> e in tracking
    ensures e in tracking ==> Refreshed(tracking, track, width, height, resize)[e] == tracking[e]
    decreases |track|
  {
    if track != [] {
      var g := if track[0] in tracking then resize(tracking[track[0]], width, height) else Zeros(width, height);
      RefreshedLeavesUntracked(tracking[track[0] := g], track[1..], width, height, resize, e);
    }
  }

  /** A tracked category that had no grid and is listed once gets an
      all-zero grid of the view's size. */
  lemma {:induction false} RefreshedInitializesMissing(tracking: map<Event, Grid>, track: seq<Event>, width: nat, height: nat, resize: Resampler, e: Event)
    requires e !in tracking && multiset(track)[e] == 1
    ensures Refreshed(tracking, track, width, height, resize)[e] == Zeros(width, height)
    decreases |track|
  {
    assert track == [track[0]] + track[1..];
    var g := if track[0] in tracking then resize(tracking[track[0]], width, height) else Zeros(width, height);
    var next := tracking[track[0] := g];
    if track[0] == e {
      assert multiset(track[1..])[e] == 0;
      assert e !in track[1..];
      RefreshedLeavesUntracked(next, track[1..], width, height, resize, e);
    } else {
      RefreshedInitializesMissing(next, track[1..], width, height, resize, e);
    }
  }

  // --------------------------------------------------------- serialization

  /** `IPageCache`: the plain form of a cache; a category without a key in
      `tracking` is `null`. */
  datatype CacheRecord = CacheRecord(view: Option<Snapshot>, tracking: map<Event, Grid>)

  /** `IPage`: the plain form of a page. */
  datatype PageRecord = PageRecord(id: string, url: string, config: PageConfig, cache: CacheRecord, leads: Leads)

  /** What `Page.from` makes of a plain page, seen again through `serialize`. */
  function Restored(d: PageRecord): PageRecord
  {
    d.(config := ConfigFrom(d.config))
  }

  /** The page round trip keeps the identity, the URL, the cache, the leads
      and the view settings, and gives back the same record exactly when it
      tracked the default categories. */
  lemma PageRoundTrip(d: PageRecord)
    ensures Restored(d).id == d.id && Restored(d).url == d.url
    ensures Restored(d).cache == d.cache && Restored(d).leads == d.leads
    ensures Restored(d).config.view == d.config.view
    ensures Restored(d).config.track == DefaultTrack
    ensures Restored(d) == d <==> d.config.track == DefaultTrack
  {
  }

  // --------------------------------------------------------------- objects

  /** `PageCache`: the screenshot and the heatmaps, updated in place. */
  class PageCache {
    var view: Option<Snapshot>
    var tracking: map<Event, Grid>

    ghost predicate Valid()
      reads this
    {
      GridsRectangular(tracking)
    }

    /** `new PageCache()`: no screenshot and no grids. */
    constructor ()
      ensures Valid() && view == None && tracking == map[]
    {
      view := None;
      tracking := map[];
    }

    /** `serialize`: the plain form holds the screenshot and the grids. */
    function Serialize(): (d: CacheRecord)
      reads this
      ensures d.view == view && d.tracking == tracking
    {
      CacheRecord(view, tracking)
    }

    /** `PageCache.from`: rebuilds a cache that serializes back to `data`. */
    static method From(data: CacheRecord) returns (c: PageCache)
      requires GridsRectangular(data.tracking)
      ensures fresh(c) && c.Valid()
      ensures c.Serialize() == data
    {
      c := new PageCache();
      c.view := data.view;
      c.tracking := data.tracking;
    }

    /** page.ts:114: `tracking[event][x][y] += 1` with both coordinates clamped
        into the grid; the only cache change is that one cell. */
    method Increment(event: Event, x: int, y: int) returns (r: Result<bool, Error>)
      requires Valid() && event in tracking
      modifies this
      ensures Valid() && view == old(view)
      ensures r.Failure? <==> |old(tracking)[event]| == 0
      ensures r.Failure? ==> r.error == TypeError && tracking == old(tracking)
      ensures r.Success? ==> r.value && tracking == old(tracking)[event := ClampedBump(old(tracking)[event], x, y).value]
      ensures r.Success? && |old(tracking)[event][0]| > 0 ==>
                OnlyCellBumped(old(tracking)[event], tracking[event],
                               Clamp(x, |old(tracking)[event]|), Clamp(y, |old(tracking)[event][0]|))
    {
      var g := tracking[event];
      var bumped := ClampedBump(g, x, y);
      if bumped.Failure? {
        return Failure(TypeError);
      }
      if |g[0]| > 0 {
        BumpKeepsShape(g, bumped.value, Clamp(x, |g|), Clamp(y, |g[0]|));
      }
      tracking := tracking[event := bumped.value];
      r := Success(true);
    }
  }

  /** `Page`: a URL under observation. The identifier is the one `uniqid`
      would generate, passed in. */
  class Page {
    const id: string
    const url: string
    const config: PageConfig
    const cache: PageCache
    var leads: Leads

    ghost predicate Valid()
      reads this, cache
    {
      cache.Valid() && leads.Valid()
    }

    constructor (url: string, config: PageConfig, cache: PageCache, leads: Leads, id: string)
      requires cache.Valid() && leads.Valid()
      ensures Valid()
      ensures this.url == url && this.config == config && this.cache == cache
      ensures this.leads == leads && this.id == id
    {
      this.url := url;
      this.config := config;
      this.cache := cache;
      this.leads := leads;
      this.id := id;
    }

    /** `new Page(url)` with the defaults of page.ts:78: the default
        configuration, a new empty cache and no leads. The identifier that
        `uniqid('page-')` would generate is passed in. */
    constructor WithDefaults(url: string, id: string)
      ensures Valid() && fresh(cache)
      ensures this.url == url && this.id == id && config == DefaultConfig
      ensures cache.view == None && cache.tracking == map[] && leads == NoLeads
    {
      this.url := url;
      this.config := DefaultConfig;
      this.cache := new PageCache();
      this.leads := NoLeads;
      this.id := id;
    }

    /** `serialize`: the plain form holds the identity, the URL, the
        configuration, the cache's plain form and the leads. */
    function Serialize(): (d: PageRecord)
      reads this, cache
      ensures d.id == id && d.url == url && d.config == config
      ensures d.cache == cache.Serialize() && d.leads == leads
    {
      PageRecord(id, url, config, cache.Serialize(), leads)
    }

    /** `Page.from`: rebuilds a page; serializing it again gives the record
      back but for the tracked categories, which are reset to the default. */
    static method From(data: PageRecord) returns (p: Page)
      requires GridsRectangular(data.cache.tracking) && data.leads.Valid()
      ensures fresh(p) && fresh(p.cache) && p.Valid()
      ensures p.Serialize() == Restored(data)
    {
      var cache := PageCache.From(data.cache);
      p := new Page(data.url, ConfigFrom(data.config), cache, data.leads, data.id);
    }

    /** `lead(fromUrl)`: one more referral from `fromUrl`. */
    method Lead(fromUrl: string)
      requires Valid()
      modifies this
      ensures Valid()
      ensures leads == Bumped(old(leads), fromUrl)
      ensures leads.Count(fromUrl) == old(leads).Count(fromUrl) + 1
      ensures forall k :: k != fromUrl ==> leads.Count(k) == old(leads).Count(k)
    {
      if fromUrl in leads.counts {
        leads := leads.(counts := leads.counts[fromUrl := leads.counts[fromUrl] + 1]);
      } else {
        leads := Leads(leads.counts[fromUrl := 1], leads.keys + [fromUrl]);
      }
    }

    /** `view(nocache)`: the cached screenshot when there is a truthy one and
        `nocache` is false; otherwise `shot`, the screenshot the browser
        takes, which is stored, after which every tracked category's grid is
        created or resampled to the view's size. */
    method View(nocache: bool, shot: Snapshot, resize: Resampler) returns (v: Snapshot)
      requires Valid()
      modifies cache
      ensures Valid()
      ensures Truthy(old(cache.view)) && !nocache ==>
                old(cache.view) == Some(v) && unchanged(cache)
      ensures !(Truthy(old(cache.view)) && !nocache) ==>
                && v == shot && cache.view == Some(shot)
                && cache.tracking == Refreshed(old(cache.tracking), config.track, config.view.width, config.view.height, resize)
    {
      if Truthy(cache.view) && !nocache {
        return cache.view.value;
      }
      cache.view := Some(shot);
      var width := config.view.width;
      var height := config.view.height;
      for i := 0 to |config.track|
        invariant cache.view == Some(shot)
        invariant GridsRectangular(cache.tracking)
        invariant Refreshed(cache.tracking, config.track[i..], width, height, resize)
                  == Refreshed(old(cache.tracking), config.track, width, height, resize)
      {
        var tracker := config.track[i];
        assert config.track[i..][0] == tracker && config.track[i..][1..] == config.track[i + 1..];
        if tracker in cache.tracking {
          cache.tracking := cache.tracking[tracker := resize(cache.tracking[tracker], width, height)];
        } else {
          cache.tracking := cache.tracking[tracker := Zeros(width, height)];
        }
      }
      v := cache.view.value;
    }

    /** page.ts:111-115, the part of `track` past its category gate: capture
        first when the category has no grid yet, then increment the clamped
        cell. A capture cut short by a cached screenshot leaves the grid
        `null`, and reading its length throws. */
    method TrackAfterGate(event: Event, x: int, y: int, shot: Snapshot, resize: Resampler)
      returns (r: Result<bool, Error>)
      requires Valid()
      modifies cache
      ensures Valid()
      ensures r.Success? ==> r.value
      ensures event in old(cache.tracking) ==>
                && cache.view == old(cache.view)
                && (r.Failure? <==> |old(cache.tracking)[event]| == 0)
                && (r.Failure? ==> r.error == TypeError && cache.tracking == old(cache.tracking))
                && (r.Success? ==> cache.tracking == old(cache.tracking)[event := ClampedBump(old(cache.tracking)[event], x, y).value])
      ensures event !in old(cache.tracking) && Truthy(old(cache.view)) ==>
                r == Failure(TypeError) && unchanged(cache)
      ensures event !in old(cache.tracking) && !Truthy(old(cache.view)) ==>
                var grids := Refreshed(old(cache.tracking), config.track, config.view.width, config.view.height, resize);
                && cache.view == Some(shot)
                && (event !in grids || |grids[event]| == 0 ==> r == Failure(TypeError) && cache.tracking == grids)
                && (event in grids && |grids[event]| > 0 ==>
                      r == Success(true) && cache.tracking == grids[event := ClampedBump(grids[event], x, y).value])
    {
      if event !in cache.tracking {
        var _ := View(false, shot, resize);
      }
      if event !in cache.tracking {
        return Failure(TypeError);
      }
      r := cache.Increment(event, x, y);
    }

    /** `track(event, point)` with the gate the source evidently means, the
        category being one of `config.hotspot.track`: an untracked category
        is a normal `false` and changes nothing. */
    method Track(event: Event, x: int, y: int, shot: Snapshot, resize: Resampler)
      returns (r: Result<bool, Error>)
      requires Valid()
      modifies cache
      ensures Valid()
      ensures event !in config.track ==> r == Success(false) && unchanged(cache)
      ensures event in config.track && event in old(cache.tracking) ==>
                && cache.view == old(cache.view)
                && (|old(cache.tracking)[event]| == 0 ==> r == Failure(TypeError) && cache.tracking == old(cache.tracking))
                && (|old(cache.tracking)[event]| > 0 ==>
                      && r == Success(true)
                      && cache.tracking == old(cache.tracking)[event := ClampedBump(old(cache.tracking)[event], x, y).value])
      ensures event in config.track && event !in old(cache.tracking) && Truthy(old(cache.view)) ==>
                r == Failure(TypeError) && unchanged(cache)
      ensures event in config.track && event !in old(cache.tracking) && !Truthy(old(cache.view)) ==>
                var grids := Refreshed(old(cache.tracking), config.track, config.view.width, config.view.height, resize);
                && cache.view == Some(shot)
                && (|grids[event]| == 0 ==> r == Failure(TypeError) && cache.tracking == grids)
                && (|grids[event]| > 0 ==>
                      r == Success(true) && cache.tracking == grids[event := ClampedBump(grids[event], x, y).value])
    {
      if event in config.track {
        r := TrackAfterGate(event, x, y, shot, resize);
      } else {
        r := Success(false);
      }
    }

    /** `track` as written: the gate `event in this.config.hotspot.track`
        asks for a property of the array named "click", "context" or
        "hover". When that fails the call is a `false` that changes nothing;
        `TrackGateNeverOpens` shows it always fails. The branch behind the
        gate can therefore never run; it reuses the corrected step
        `TrackAfterGate` rather than one built on `BumpAsWritten`. */
    method TrackAsWritten(event: Event, x: int, y: int, shot: Snapshot, resize: Resampler)
      returns (r: Result<bool, Error>)
      requires Valid()
      modifies cache
      ensures Valid()
      ensures !JsSemantics.ArrayHasKey(Name(event), |config.track|) ==> r == Success(false) && unchanged(cache)
    {
      if JsSemantics.ArrayHasKey(Name(event), |config.track|) {
        r := TrackAfterGate(event, x, y, shot, resize);
      } else {
        r := Success(false);
      }
    }

    /** page.ts:102-103, the part of `hotspot` past its gate: the grid whose
        elementwise logistic is returned, captured first if missing. A grid
        still `null` after a cut-short capture makes `tf.sigmoid` throw. */
    method HotspotAfterGate(event: Event, shot: Snapshot, resize: Resampler)
      returns (r: Result<Option<Grid>, Error>)
      requires Valid()
      modifies cache
      ensures Valid()
      ensures event in old(cache.tracking) ==> r == Success(Some(old(cache.tracking)[event])) && unchanged(cache)
      ensures event !in old(cache.tracking) && Truthy(old(cache.view)) ==>
                r == Failure(TypeError) && unchanged(cache)
      ensures event !in old(cache.tracking) && !Truthy(old(cache.view)) ==>
                && cache.view == Some(shot)
                && cache.tracking == Refreshed(old(cache.tracking), config.track, config.view.width, config.view.height, resize)
                && (event in cache.tracking ==> r == Success(Some(cache.tracking[event])))
                && (event !in cache.tracking ==> r == Failure(TypeError))
    {
      if event !in cache.tracking {
        var _ := View(false, shot, resize);
      }
      if event !in cache.tracking {
        return Failure(TypeError);
      }
      r := Success(Some(cache.tracking[event]));
    }

    /** `hotspot(event)` with the evidently meant gate: `null` for an
        untracked category, otherwise the grid behind the activation. */
    method Hotspot(event: Event, shot: Snapshot, resize: Resampler)
      returns (r: Result<Option<Grid>, Error>)
      requires Valid()
      modifies cache
      ensures Valid()
      ensures event !in config.track ==> r == Success(None) && unchanged(cache)
      ensures event in config.track && event in old(cache.tracking) ==>
                r == Success(Some(old(cache.tracking)[event])) && unchanged(cache)
      ensures event in config.track && event !in old(cache.tracking) && Truthy(old(cache.view)) ==>
                r == Failure(TypeError) && unchanged(cache)
      ensures event in config.track && event !in old(cache.tracking) && !Truthy(old(cache.view)) ==>
                && cache.view == Some(shot)
                && cache.tracking == Refreshed(old(cache.tracking), config.track, config.view.width, config.view.height, resize)
                && r == Success(Some(cache.tracking[event]))
    {
      if event in config.track {
        r := HotspotAfterGate(event, shot, resize);
      } else {
        r := Success(None);
      }
    }

    /** `hotspot` as written, behind the same array-property gate as
        `TrackAsWritten`: when it fails the result is `null`. */
    method HotspotAsWritten(event: Event, shot: Snapshot, resize: Resampler)
      returns (r: Result<Option<Grid>, Error>)
      requires Valid()
      modifies cache
      ensures Valid()
      ensures !JsSemantics.ArrayHasKey(Name(event), |config.track|) ==> r == Success(None) && unchanged(cache)
    {
      if JsSemantics.ArrayHasKey(Name(event), |config.track|) {
        r := HotspotAfterGate(event, shot, resize);
      } else {
        r := Success(None);
      }
    }
  }

  /** The gate of `track` and `hotspot` as written never opens: no category
      name is an index key, "length" or an inherited array property, whatever
      the tracked list holds. */
  lemma TrackGateNeverOpens(event: Event, track: seq<Event>)
    ensures !JsSemantics.ArrayHasKey(Name(event), |track|)
  {
  }

  /** A click on a page with the default configuration: the evidently meant
      gate admits it, the gate as written does not. */
  lemma DefaultClickIsDropped()
    ensures Click in DefaultConfig.track
    ensures Hover !in DefaultConfig.track && Context !in DefaultConfig.track
    ensures !JsSemantics.ArrayHasKey(Name(Click), |DefaultConfig.track|)
  {
  }

  /** As written, `track` answers `false` and changes nothing, whatever the
      page and the event. */
  method TrackAsWrittenNeverRecords(p: Page, event: Event, x: int, y: int, shot: Snapshot, resize: Resampler)
    returns (r: Result<bool, Error>)
    requires p.Valid()
    modifies p.cache
    ensures r == Success(false) && unchanged(p.cache)
  {
    TrackGateNeverOpens(event, p.config.track);
    r := p.TrackAsWritten(event, x, y, shot, resize);
  }

  /** As written, `hotspot` answers `null` and changes nothing. */
  method HotspotAsWrittenIsNull(p: Page, event: Event, shot: Snapshot, resize: Resampler)
    returns (r: Result<Option<Grid>, Error>)
    requires p.Valid()
    modifies p.cache
    ensures r == Success(None) && unchanged(p.cache)
  {
    TrackGateNeverOpens(event, p.config.track);
    r := p.HotspotAsWritten(event, shot, resize);
  }
}
