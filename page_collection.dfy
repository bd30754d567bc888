/** Funnel inference of the page collection (src/component/page-collection.ts):
    from a page, follow its heaviest lead back to the page it came from, as
    long as the depth bound allows and the pages resolve. The collection's
    store (`getPage`) is a lookup map passed in; an id without an entry is
    the `null` the store returns. */
module PageCollection {
  import opened Wrappers
  import opened Pages

  /** Every page the store holds has well-formed leads. */
  ghost predicate WellFormed(lookup: map<string, PageRecord>)
  {
    forall id :: id in lookup ==> lookup[id].leads.Valid()
  }

  /** `keys[i]` is a heaviest key and no later key is as heavy. */
  ghost predicate IsLastHeaviestAt(counts: map<string, int>, keys: seq<string>, i: int)
    requires forall j :: 0 <= j < |keys| ==> keys[j] in counts
  {
    && 0 <= i < |keys|
    && (forall j :: 0 <= j < |keys| ==> counts[keys[j]] <= counts[keys[i]])
    && (forall j :: i < j < |keys| ==> counts[keys[j]] < counts[keys[i]])
  }

  /** `keys.reduce((a, b) => counts[a] > counts[b] ? a : b)`: the fold keeps
      the running choice only when it is strictly heavier, so a tie goes to
      the later key. The result is the LAST key of greatest count. */
  function Heaviest(counts: map<string, int>, keys: seq<string>): (k: string)
    requires |keys| > 0
    requires forall j :: 0 <= j < |keys| ==> keys[j] in counts
    ensures exists i :: IsLastHeaviestAt(counts, keys, i) && keys[i] == k
  {
    if |keys| == 1 then
      assert IsLastHeaviestAt(counts, keys, 0);
      keys[0]
    else
      var a := Heaviest(counts, keys[..|keys| - 1]);
      var b := keys[|keys| - 1];
      HeaviestStep(counts, keys, a);
      if counts[a] > counts[b] then a else b
  }

  /** One step of the fold: the last heaviest key of all but the last entry,
      compared with the last entry, gives the last heaviest key of all. */
  lemma HeaviestStep(counts: map<string, int>, keys: seq<string>, a: string)
    requires |keys| > 1
    requires forall j :: 0 <= j < |keys| ==> keys[j] in counts
    requires exists i :: IsLastHeaviestAt(counts, keys[..|keys| - 1], i) && keys[i] == a
    ensures var b := keys[|keys| - 1];
            exists i :: IsLastHeaviestAt(counts, keys, i) && keys[i] == (if counts[a] > counts[b] then a else b)
  {
    var i :| IsLastHeaviestAt(counts, keys[..|keys| - 1], i) && keys[i] == a;
    if counts[a] > counts[keys[|keys| - 1]] {
      assert IsLastHeaviestAt(counts, keys, i);
    } else {
      assert IsLastHeaviestAt(counts, keys, |keys| - 1);
    }
  }

  /** The reduction's choice is the only key that is a last heaviest one, so
      "last key of greatest count" defines it. */
  lemma HeaviestIsUnique(counts: map<string, int>, keys: seq<string>, i: int)
    requires |keys| > 0
    requires forall j :: 0 <= j < |keys| ==> keys[j] in counts
    requires IsLastHeaviestAt(counts, keys, i)
    ensures keys[i] == Heaviest(counts, keys)
  {
  }

  /** The key a page's funnel step follows, when it has leads. */
  function NextKey(page: PageRecord): (k: string)
    requires page.leads.Valid() && |page.leads.keys| > 0
    ensures k in page.leads.counts
    ensures forall other :: other in page.leads.counts ==> page.leads.Count(other) <= page.leads.Count(k)
  {
    var k := Heaviest(page.leads.counts, page.leads.keys);
    assert forall other :: other in page.leads.counts ==> exists j :: 0 <= j < |page.leads.keys| && page.leads.keys[j] == other;
    k
  }

  /** The pages the walk appends after `cur`, with `steps` iterations left. */
  function Walk(lookup: map<string, PageRecord>, cur: PageRecord, steps: nat): (w: seq<PageRecord>)
    requires WellFormed(lookup) && cur.leads.Valid()
    ensures |w| <= steps
    ensures forall i :: 0 <= i < |w| ==> w[i].leads.Valid()
    decreases steps
  {
    if steps == 0 || |cur.leads.keys| == 0 then []
    else
      var next := NextKey(cur);
      if next !in lookup then []
      else [lookup[next]] + Walk(lookup, lookup[next], steps - 1)
  }

  /** `getFunnel(id, { maxDepth })` as a value. */
  function Funnel(lookup: map<string, PageRecord>, id: string, maxDepth: int): (r: Result<seq<PageRecord>, Error>)
    requires WellFormed(lookup)
    ensures r.Failure? <==> id !in lookup
    ensures r.Failure? ==> r.error == PageNotFound
    ensures r.Success? ==> |r.value| > 0 && r.value[0] == lookup[id]
  {
    if id !in lookup then Failure(PageNotFound)
    else Success([lookup[id]] + Walk(lookup, lookup[id], if maxDepth > 0 then maxDepth else 0))
  }

  /** `getFunnel`: the start page, then up to `maxDepth` pages, each the
      page of its predecessor's heaviest lead. */
  method GetFunnel(lookup: map<string, PageRecord>, id: string, maxDepth: int)
    returns (r: Result<seq<PageRecord>, Error>)
    requires WellFormed(lookup)
    ensures r == Funnel(lookup, id, maxDepth)
  {
    if id !in lookup {
      return Failure(PageNotFound);
    }
    var start := lookup[id];
    var funnel := [start];
    ghost var depth: nat := if maxDepth > 0 then maxDepth else 0;
    ghost var goal := [start] + Walk(lookup, start, depth);
    var i := 0;
    while i < maxDepth
      invariant 0 <= i <= depth
      invariant start.leads.Valid()
      invariant funnel + Walk(lookup, start, depth - i) == goal
    {
      if |start.leads.keys| == 0 {
        WalkEnds(lookup, start, depth - i, funnel);
        return Success(funnel);
      }
      var next := Heaviest(start.leads.counts, start.leads.keys);
      if next !in lookup {
        WalkEnds(lookup, start, depth - i, funnel);
        return Success(funnel);
      }
      assert depth - i > 0;
      WalkSteps(lookup, start, depth - i, funnel);
      start := lookup[next];
      funnel := funnel + [start];
      i := i + 1;
    }
    WalkEnds(lookup, start, depth - i, funnel);
    r := Success(funnel);
  }

  /** The depth `getFunnel` uses when called without options. */
  const DefaultMaxDepth := 4

  /** `getFunnel(id)`: the funnel with the default depth. */
  method GetFunnelDefault(lookup: map<string, PageRecord>, id: string)
    returns (r: Result<seq<PageRecord>, Error>)
    requires WellFormed(lookup)
    ensures r == Funnel(lookup, id, DefaultMaxDepth)
  {
    r := GetFunnel(lookup, id, DefaultMaxDepth);
  }

  /** A walk with no steps left, from a page without leads or whose heaviest
      lead does not resolve, adds nothing. */
  lemma WalkEnds(lookup: map<string, PageRecord>, cur: PageRecord, steps: nat, prefix: seq<PageRecord>)
    requires WellFormed(lookup) && cur.leads.Valid()
    requires steps == 0 || |cur.leads.keys| == 0 || NextKey(cur) !in lookup
    ensures prefix + Walk(lookup, cur, steps) == prefix
  {
  }

  /** Otherwise a walk appends the page of the heaviest lead and goes on
      from there. */
  lemma WalkSteps(lookup: map<string, PageRecord>, cur: PageRecord, steps: nat, prefix: seq<PageRecord>)
    requires WellFormed(lookup) && cur.leads.Valid()
    requires steps > 0 && |cur.leads.keys| > 0 && NextKey(cur) in lookup
    ensures var next := lookup[NextKey(cur)];
            prefix + Walk(lookup, cur, steps) == (prefix + [next]) + Walk(lookup, next, steps - 1)
  {
  }

  // ------------------------------------------------------------ properties

  /** A funnel fails exactly when the start id does not resolve; otherwise it
      starts with the start page and holds between 1 and `maxDepth + 1`
      pages. */
  lemma FunnelShape(lookup: map<string, PageRecord>, id: string, maxDepth: int)
    requires WellFormed(lookup)
    ensures Funnel(lookup, id, maxDepth).Failure? <==> id !in lookup
    ensures Funnel(lookup, id, maxDepth).Failure? ==> Funnel(lookup, id, maxDepth).error == PageNotFound
    ensures Funnel(lookup, id, maxDepth).Success? ==>
              var f := Funnel(lookup, id, maxDepth).value;
              && 1 <= |f| <= (if maxDepth > 0 then maxDepth else 0) + 1
              && f[0] == lookup[id]
  {
  }

  /** Each step of a walk follows the heaviest lead of the page before it. */
  lemma {:induction false} WalkFollowsHeaviest(lookup: map<string, PageRecord>, cur: PageRecord, steps: nat, i: nat)
    requires WellFormed(lookup) && cur.leads.Valid()
    requires i < |Walk(lookup, cur, steps)|
    ensures var f := [cur] + Walk(lookup, cur, steps);
            && f[i].leads.Valid() && |f[i].leads.keys| > 0
            && NextKey(f[i]) in lookup
            && f[i + 1] == lookup[NextKey(f[i])]
    decreases steps
  {
    var next := NextKey(cur);
    if i > 0 {
      WalkFollowsHeaviest(lookup, lookup[next], steps - 1, i - 1);
    }
  }

  /** Consecutive funnel pages: the next one is the store's page for the
      heaviest lead of the one before. Nothing stops a page from coming back. */
  lemma FunnelFollowsHeaviest(lookup: map<string, PageRecord>, id: string, maxDepth: int, i: nat)
    requires WellFormed(lookup) && Funnel(lookup, id, maxDepth).Success?
    requires i + 1 < |Funnel(lookup, id, maxDepth).value|
    ensures var f := Funnel(lookup, id, maxDepth).value;
            && |f[i].leads.keys| > 0
            && NextKey(f[i]) in lookup
            && f[i + 1] == lookup[NextKey(f[i])]
  {
    WalkFollowsHeaviest(lookup, lookup[id], if maxDepth > 0 then maxDepth else 0, i);
  }

  /** A walk ends before its bound only at a page without leads or at a page
      whose heaviest lead the store does not resolve. */
  lemma {:induction false} WalkStopsEarlyOnlyAtDeadEnds(lookup: map<string, PageRecord>, cur: PageRecord, steps: nat)
    requires WellFormed(lookup) && cur.leads.Valid()
    requires |Walk(lookup, cur, steps)| < steps
    ensures var f := [cur] + Walk(lookup, cur, steps);
            var last := f[|f| - 1];
            last.leads.Valid() && (|last.leads.keys| == 0 || NextKey(last) !in lookup)
    decreases steps
  {
    if |cur.leads.keys| > 0 && NextKey(cur) in lookup {
      WalkStopsEarlyOnlyAtDeadEnds(lookup, lookup[NextKey(cur)], steps - 1);
    }
  }

  /** A funnel shorter than `maxDepth + 1` ended at a dead end. */
  lemma FunnelStopsEarlyOnlyAtDeadEnds(lookup: map<string, PageRecord>, id: string, maxDepth: int)
    requires WellFormed(lookup) && Funnel(lookup, id, maxDepth).Success?
    requires |Funnel(lookup, id, maxDepth).value| < maxDepth + 1
    ensures var f := Funnel(lookup, id, maxDepth).value;
            var last := f[|f| - 1];
            |last.leads.keys| == 0 || NextKey(last) !in lookup
  {
    WalkStopsEarlyOnlyAtDeadEnds(lookup, lookup[id], if maxDepth > 0 then maxDepth else 0);
  }

  /** A page without leads, or a depth of zero, gives the start page alone. */
  lemma FunnelOfIsolatedPage(lookup: map<string, PageRecord>, id: string, maxDepth: int)
    requires WellFormed(lookup) && id in lookup
    requires lookup[id].leads.keys == [] || maxDepth <= 0
    ensures Funnel(lookup, id, maxDepth) == Success([lookup[id]])
  {
    var depth: nat := if maxDepth > 0 then maxDepth else 0;
    assert Walk(lookup, lookup[id], depth) == [];
    assert [lookup[id]] + Walk(lookup, lookup[id], depth) == [lookup[id]];
  }

  /** A page whose heaviest lead is itself is repeated to the full depth:
      the walk has no cycle check. */
  lemma {:induction false} SelfLeadRepeats(lookup: map<string, PageRecord>, id: string, steps: nat)
    requires WellFormed(lookup) && id in lookup
    requires |lookup[id].leads.keys| > 0 && NextKey(lookup[id]) == id
    ensures Walk(lookup, lookup[id], steps) == seq(steps, _ => lookup[id])
  {
    if steps > 0 {
      SelfLeadRepeats(lookup, id, steps - 1);
    }
  }

  // -------------------------------------------------------------- scenario

  function PageWithLeads(id: string, leads: Leads): PageRecord
  {
    PageRecord(id, "https://example.org/" + id, DefaultConfig, CacheRecord(None, map[]), leads)
  }

  /** B has 3 leads from A, C has 5 from B; optionally D also leads to B. */
  function Store(fromD: int): map<string, PageRecord>
  {
    var bLeads := if fromD == 0 then Leads(map["A" := 3], ["A"])
                  else Leads(map["A" := 3, "D" := fromD], ["A", "D"]);
    map[
      "A" := PageWithLeads("A", NoLeads),
      "B" := PageWithLeads("B", bLeads),
      "C" := PageWithLeads("C", Leads(map["B" := 5], ["B"])),
      "D" := PageWithLeads("D", NoLeads)
    ]
  }

  /** The heaviest lead into B: A against D's `fromD`, a tie going to D. */
  lemma ScenarioNext(fromD: int)
    requires fromD >= 0
    ensures WellFormed(Store(fromD))
    ensures NextKey(Store(fromD)["B"]) == if fromD >= 3 then "D" else "A"
  {
    var b := Store(fromD)["B"];
    if fromD == 0 {
      assert b.leads.keys == ["A"];
    } else {
      assert b.leads.keys == ["A", "D"] && b.leads.keys[..1] == ["A"];
      assert Heaviest(b.leads.counts, ["A"]) == "A";
    }
  }

  /** The funnel from C is C, B and then B's heaviest lead: A while D's
      leads to B number at most two (or none), D from three on, a tie with
      A's three going to the later key. */
  lemma {:induction false} FunnelScenario(fromD: int)
    requires fromD >= 0
    ensures WellFormed(Store(fromD))
    ensures var store := Store(fromD);
            Funnel(store, "C", 4) == Success([store["C"], store["B"], store[if fromD >= 3 then "D" else "A"]])
  {
    ScenarioNext(fromD);
    var store := Store(fromD);
    var c, b := store["C"], store["B"];
    var v := store[if fromD >= 3 then "D" else "A"];
    assert WellFormed(store);
    assert NextKey(c) == "B";
    assert v.leads.keys == [];
    assert Walk(store, v, 2) == [];
    assert Walk(store, b, 3) == [v];
    assert Walk(store, c, 4) == [b, v];
    assert [c] + [b, v] == [c, b, v];
  }
}
