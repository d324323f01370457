/**
  The chart catalog: curated entries merged with what the operator's repositories offer, filtered and paged.
  Source: api/internal/apps/catalog.go. helm's searches are inputs; the one-minute cache is left out.
 */
module Catalog {
  import opened Common
  import opened Sorting

  // meta stands for the fields nothing here looks at: type, icon, tag, system, ingress value path.
  datatype Entry = Entry(name: string, chart: string, source: string, description: string, versions: seq<string>,
                         latest: string, meta: string)

  const CURATED := "curated"

  // ---------- the merge order ----------

  predicate Before(a: Entry, b: Entry) {
    if a.source != b.source then
      if a.source == CURATED then true
      else if b.source == CURATED then false
      else StrLess(a.source, b.source)
    else StrLess(a.name, b.name)
  }

  lemma BeforeOrder(a: Entry, b: Entry, c: Entry)
    ensures Before(a, b) ==> !Before(b, a)
    ensures !Before(a, b) && !Before(b, c) ==> !Before(a, c)
    ensures Same(Before, a, b) <==> a.source == b.source && a.name == b.name
  {
    StrOrder(a.source, b.source, c.source);
    StrOrder(a.name, b.name, c.name);
  }

  lemma BeforeIsStrictWeak()
    ensures StrictWeak(Before)
  {
    forall x, y | Before(x, y) ensures !Before(y, x) { BeforeOrder(x, y, x); }
    forall x, y, z | !Before(x, y) && !Before(y, z) ensures !Before(x, z) { BeforeOrder(x, y, z); }
  }

  // ---------- merging ----------

  // Charts a curated entry claims; a bundle's empty chart claims nothing.
  function CuratedCharts(seed: seq<Entry>): set<string> {
    set e | e in seed && e.chart != "" :: e.chart
  }

  function Unshadowed(charts: set<string>, s: seq<Entry>): seq<Entry> {
    if s == [] then []
    else Unshadowed(charts, s[..|s| - 1]) + if s[|s| - 1].chart in charts then [] else [s[|s| - 1]]
  }

  function Unsorted(repo: seq<Entry>, seed: seq<Entry>): seq<Entry> {
    seed + Unshadowed(CuratedCharts(seed), repo)
  }

  function Merged(repo: seq<Entry>, seed: seq<Entry>): seq<Entry> {
    StableSort(Before, Unsorted(repo, seed))
  }

  method MergeCurated(repo: seq<Entry>, seed: seq<Entry>) returns (out: seq<Entry>)
    ensures out == Merged(repo, seed)
  {
    var keys: set<string> := {};
    for i := 0 to |seed|
      invariant keys == CuratedCharts(seed[..i])
    {
      assert seed[..i + 1] == seed[..i] + [seed[i]];
      if seed[i].chart != "" {
        keys := keys + {seed[i].chart};
      }
    }
    assert seed[..|seed|] == seed;
    out := seed;
    for i := 0 to |repo|
      invariant out == seed + Unshadowed(keys, repo[..i])
    {
      assert repo[..i + 1][..i] == repo[..i];
      if repo[i].chart !in keys {
        out := out + [repo[i]];
      }
    }
    assert repo[..|repo|] == repo;
    out := StableSort(Before, out);
  }

  lemma {:induction false} UnshadowedCounts(charts: set<string>, s: seq<Entry>, e: Entry)
    ensures multiset(Unshadowed(charts, s))[e] == if e.chart in charts then 0 else multiset(s)[e]
  {
    if s != [] {
      UnshadowedCounts(charts, s[..|s| - 1], e);
      assert s == s[..|s| - 1] + [s[|s| - 1]];
    }
  }

  ghost predicate ClaimedBy(chart: string, seed: seq<Entry>) {
    chart != "" && exists e :: e in seed && e.chart == chart
  }

  /** The merged catalog is sorted, curated first, then by source, then by name, equals in the order they came; it
      holds every curated entry, and a repository entry as often as it was found unless a curated entry claims its
      non-empty chart. */
  lemma MergedMeans(repo: seq<Entry>, seed: seq<Entry>)
    ensures Sorted(Before, Merged(repo, seed))
    ensures forall e :: multiset(Merged(repo, seed))[e]
                        == multiset(seed)[e] + if ClaimedBy(e.chart, seed) then 0 else multiset(repo)[e]
    ensures forall x :: Group(Before, Merged(repo, seed), x) == Group(Before, Unsorted(repo, seed), x)
  {
    BeforeIsStrictWeak();
    SortSorts(Before, Unsorted(repo, seed));
    SortPermutes(Before, Unsorted(repo, seed));
    forall e
      ensures multiset(Merged(repo, seed))[e]
              == multiset(seed)[e] + if ClaimedBy(e.chart, seed) then 0 else multiset(repo)[e]
    {
      UnshadowedCounts(CuratedCharts(seed), repo, e);
      assert e.chart in CuratedCharts(seed) <==> ClaimedBy(e.chart, seed);
    }
    forall x ensures Group(Before, Merged(repo, seed), x) == Group(Before, Unsorted(repo, seed), x) {
      SortIsStable(Before, Unsorted(repo, seed), x);
    }
  }

  /** Spelled out: nothing curated comes after anything that is not, repositories come in ascending order of their
      names, and the entries of one source in ascending order of theirs. */
  lemma MergedOrder(repo: seq<Entry>, seed: seq<Entry>)
    ensures var m := Merged(repo, seed);
            forall i, j {:trigger m[i], m[j]} :: 0 <= i < j < |m| ==>
              && (m[j].source == "curated" ==> m[i].source == "curated")
              && (m[i].source != "curated" ==> !StrLess(m[j].source, m[i].source))
              && (m[i].source == m[j].source ==> !StrLess(m[j].name, m[i].name))
  {
    MergedMeans(repo, seed);
    var m := Merged(repo, seed);
    forall i, j | 0 <= i < j < |m|
      ensures m[j].source == "curated" ==> m[i].source == "curated"
      ensures m[i].source != "curated" ==> !StrLess(m[j].source, m[i].source)
      ensures m[i].source == m[j].source ==> !StrLess(m[j].name, m[i].name)
    {
      assert !Before(m[j], m[i]);
      StrIrreflexive(m[i].source);
    }
  }

  // ---------- concurrent searches ----------

  // One repository's search as it completes; a failed one is skipped.
  datatype Search = Search(repo: string, found: Option<seq<Entry>>)

  function RepoOf(s: Search): string { s.repo }

  // A search result carries its repository's name as source.
  function Sourced(es: seq<Entry>, repo: string): seq<Entry> {
    seq(|es|, i requires 0 <= i < |es| => es[i].(source := repo))
  }

  function Entries(s: Search): seq<Entry> {
    if s.found.Some? then Sourced(s.found.value, s.repo) else []
  }

  // Appended under the lock, in completion order.
  function Gathered(done: seq<Search>): seq<Entry> {
    if done == [] then [] else Gathered(done[..|done| - 1]) + Entries(done[|done| - 1])
  }

  // How many of the entries es found in repo are e once their source is set to repo.
  function FoundIn(es: seq<Entry>, repo: string, e: Entry): nat {
    if es == [] then 0
    else FoundIn(es[..|es| - 1], repo, e) + if es[|es| - 1].(source := repo) == e then 1 else 0
  }

  // The same over all searches that succeeded.
  function Found(done: seq<Search>, e: Entry): nat {
    if done == [] then 0
    else
      var last := done[|done| - 1];
      Found(done[..|done| - 1], e) + if last.found.Some? then FoundIn(last.found.value, last.repo, e) else 0
  }

  lemma {:induction false} SourcedCounts(es: seq<Entry>, repo: string, e: Entry)
    ensures multiset(Sourced(es, repo))[e] == FoundIn(es, repo, e)
  {
    if es != [] {
      SourcedCounts(es[..|es| - 1], repo, e);
      assert Sourced(es, repo) == Sourced(es[..|es| - 1], repo) + [es[|es| - 1].(source := repo)];
    }
  }

  lemma {:induction false} GatheredCounts(done: seq<Search>, e: Entry)
    ensures multiset(Gathered(done))[e] == Found(done, e)
  {
    if done != [] {
      var last := done[|done| - 1];
      GatheredCounts(done[..|done| - 1], e);
      if last.found.Some? { SourcedCounts(last.found.value, last.repo, e); }
    }
  }

  lemma {:induction false} FoundAt(done: seq<Search>, i: nat, k: nat)
    requires i < |done| && done[i].found.Some? && k < |done[i].found.value|
    ensures Found(done, done[i].found.value[k].(source := done[i].repo)) > 0
  {
    if i < |done| - 1 {
      FoundAt(done[..|done| - 1], i, k);
    } else {
      FoundInAt(done[i].found.value, done[i].repo, k);
    }
  }

  lemma {:induction false} FoundInAt(es: seq<Entry>, repo: string, k: nat)
    requires k < |es|
    ensures FoundIn(es, repo, es[k].(source := repo)) > 0
  {
    if k < |es| - 1 {
      FoundInAt(es[..|es| - 1], repo, k);
    }
  }

  // What a successful search found is in out with only its source changed, unless a curated entry claims its chart.
  ghost predicate Offers(done: seq<Search>, seed: seq<Entry>, out: seq<Entry>) {
    forall i, k {:trigger done[i].found.value[k]} ::
      0 <= i < |done| && done[i].found.Some? && 0 <= k < |done[i].found.value|
      && !ClaimedBy(done[i].found.value[k].chart, seed) ==>
        done[i].found.value[k].(source := done[i].repo) in out
  }

  /** The aggregated catalog holds every curated entry and, for every search that succeeded, each entry it found with
      only its source set to the repository's name, as often as it was found, unless a curated entry claims its
      chart; searches that failed add nothing. */
  lemma AggregateMeans(done: seq<Search>, seed: seq<Entry>)
    ensures var out := Merged(Gathered(done), seed);
            && Offers(done, seed, out)
            && forall e :: multiset(out)[e]
                           == multiset(seed)[e] + if ClaimedBy(e.chart, seed) then 0 else Found(done, e)
  {
    var out := Merged(Gathered(done), seed);
    MergedMeans(Gathered(done), seed);
    forall e
      ensures multiset(out)[e] == multiset(seed)[e] + if ClaimedBy(e.chart, seed) then 0 else Found(done, e)
    {
      GatheredCounts(done, e);
    }
    forall i, k | 0 <= i < |done| && done[i].found.Some? && 0 <= k < |done[i].found.value|
                  && !ClaimedBy(done[i].found.value[k].chart, seed)
      ensures done[i].found.value[k].(source := done[i].repo) in out
    {
      var e := done[i].found.value[k].(source := done[i].repo);
      FoundAt(done, i, k);
      assert multiset(out)[e] > 0;
    }
  }

  method Aggregate(done: seq<Search>, seed: seq<Entry>) returns (out: seq<Entry>)
    ensures out == Merged(Gathered(done), seed)
    ensures Offers(done, seed, out)
    ensures forall e :: multiset(out)[e]
                        == multiset(seed)[e] + if ClaimedBy(e.chart, seed) then 0 else Found(done, e)
  {
    var repoEntries: seq<Entry> := [];
    for i := 0 to |done|
      invariant repoEntries == Gathered(done[..i])
    {
      assert done[..i + 1][..i] == done[..i];
      if done[i].found.Some? {
        repoEntries := repoEntries + Sourced(done[i].found.value, done[i].repo);
      }
    }
    assert done[..|done|] == done;
    out := MergeCurated(repoEntries, seed);
    AggregateMeans(done, seed);
  }

  lemma {:induction false} GroupElsewhere(es: seq<Entry>, x: Entry)
    requires forall i {:trigger es[i]} :: 0 <= i < |es| ==> es[i].source != x.source
    ensures Group(Before, es, x) == []
  {
    if es != [] {
      BeforeOrder(es[|es| - 1], x, x);
      GroupElsewhere(es[..|es| - 1], x);
    }
  }

  lemma {:induction false} NobodySearched(done: seq<Search>, x: Entry)
    requires forall i {:trigger done[i]} :: 0 <= i < |done| ==> done[i].repo != x.source
    ensures Group(Before, Gathered(done), x) == []
  {
    if done != [] {
      var last := done[|done| - 1];
      NobodySearched(done[..|done| - 1], x);
      GroupElsewhere(Entries(last), x);
      GroupConcat(Before, Gathered(done[..|done| - 1]), Entries(last), x);
    }
  }

  lemma NobodyElse(done: seq<Search>, x: Entry)
    requires done != [] && DistinctBy(RepoOf, done) && done[|done| - 1].repo == x.source
    ensures Group(Before, Gathered(done[..|done| - 1]), x) == []
  {
    var before := done[..|done| - 1];
    forall j | 0 <= j < |before| ensures before[j].repo != x.source {
      assert RepoOf(done[j]) != RepoOf(done[|done| - 1]);
    }
    NobodySearched(before, x);
  }

  // A group is what the one search of its repository found.
  lemma {:induction false} GroupOfRepo(done: seq<Search>, i: nat, x: Entry)
    requires DistinctBy(RepoOf, done) && i < |done| && done[i].repo == x.source
    ensures Group(Before, Gathered(done), x) == Group(Before, Entries(done[i]), x)
  {
    var before, last := done[..|done| - 1], done[|done| - 1];
    assert Group(Before, Gathered(done), x) == Group(Before, Gathered(before), x) + Group(Before, Entries(last), x) by {
      GroupConcat(Before, Gathered(before), Entries(last), x);
    }
    if i == |done| - 1 {
      NobodyElse(done, x);
    } else {
      assert RepoOf(done[i]) != RepoOf(last);
      GroupOfRepo(before, i, x);
      GroupElsewhere(Entries(last), x);
    }
  }

  lemma GatheredGroupsAgree(done: seq<Search>, done': seq<Search>, x: Entry)
    requires DistinctBy(RepoOf, done) && multiset(done) == multiset(done')
    ensures Group(Before, Gathered(done), x) == Group(Before, Gathered(done'), x)
  {
    PermKeepsDistinct(RepoOf, done, done');
    if i :| 0 <= i < |done| && done[i].repo == x.source {
      assert done[i] in multiset(done');
      var i' :| 0 <= i' < |done'| && done'[i'] == done[i];
      GroupOfRepo(done, i, x);
      GroupOfRepo(done', i', x);
    } else {
      NobodySearched(done, x);
      forall j | 0 <= j < |done'| ensures done'[j].repo != x.source {
        assert done'[j] in multiset(done);
      }
      NobodySearched(done', x);
    }
  }

  lemma {:induction false} GroupUnshadowed(charts: set<string>, s: seq<Entry>, x: Entry)
    ensures Group(Before, Unshadowed(charts, s), x) == Unshadowed(charts, Group(Before, s, x))
  {
    if s != [] {
      var init, last := s[..|s| - 1], s[|s| - 1];
      GroupUnshadowed(charts, init, x);
      var u, g := Unshadowed(charts, init), Group(Before, init, x);
      assert (u + [last])[..|u|] == u && (g + [last])[..|g|] == g;
      assert u + [] == u && g + [] == g;
    }
  }

  /** With one search per repository, the catalog does not depend on the order in which the searches complete. */
  lemma Confluence(done: seq<Search>, done': seq<Search>, seed: seq<Entry>)
    requires DistinctBy(RepoOf, done) && multiset(done) == multiset(done')
    ensures Merged(Gathered(done), seed) == Merged(Gathered(done'), seed)
  {
    var charts := CuratedCharts(seed);
    forall x
      ensures Group(Before, Unsorted(Gathered(done), seed), x) == Group(Before, Unsorted(Gathered(done'), seed), x)
    {
      GatheredGroupsAgree(done, done', x);
      GroupUnshadowed(charts, Gathered(done), x);
      GroupUnshadowed(charts, Gathered(done'), x);
      GroupConcat(Before, seed, Unshadowed(charts, Gathered(done)), x);
      GroupConcat(Before, seed, Unshadowed(charts, Gathered(done')), x);
    }
    BeforeIsStrictWeak();
    SortsAgree(Before, Unsorted(Gathered(done), seed), Unsorted(Gathered(done'), seed));
  }

  // ---------- filtering and paging ----------

  predicate Selected(e: Entry, hit: Entry -> bool, source: string) {
    (source == "" || source == "all" || e.source == source) && hit(e)
  }

  function Matching(es: seq<Entry>, hit: Entry -> bool, source: string): seq<Entry> {
    if es == [] then []
    else Matching(es[..|es| - 1], hit, source) + if Selected(es[|es| - 1], hit, source) then [es[|es| - 1]] else []
  }

  // What a page shows of the matching entries.
  function Window(m: seq<Entry>, limit: int, offset: int): seq<Entry> {
    var lo := if offset < 0 then 0 else offset;
    if lo >= |m| then []
    else if limit > 0 && |m| - lo > limit then m[lo..lo + limit]
    else m[lo..]
  }

  // hit is the search box's test.
  method FilterCatalog(es: seq<Entry>, hit: Entry -> bool, source: string, limit: int, offset: int)
    returns (page: seq<Entry>, total: nat)
    ensures total == |Matching(es, hit, source)|
    ensures page == Window(Matching(es, hit, source), limit, offset)
    ensures var from := if offset < 0 then 0 else offset;
            var left := if from < total then total - from else 0;
            && |page| == (if 0 < limit < left then limit else left)
            && forall i {:trigger page[i]} :: 0 <= i < |page| ==> page[i] == Matching(es, hit, source)[from + i]
  {
    var from := if offset < 0 then 0 else offset;
    var matched: seq<Entry> := [];
    for i := 0 to |es|
      invariant matched == Matching(es[..i], hit, source)
    {
      assert es[..i + 1][..i] == es[..i];
      if (source == "" || source == "all" || es[i].source == source) && hit(es[i]) {
        matched := matched + [es[i]];
      }
    }
    assert es[..|es|] == es;
    total := |matched|;
    if from >= total {
      return [], total;
    }
    page := matched[from..];
    if limit > 0 && |page| > limit {
      page := page[..limit];
    }
  }

  /** Filtering keeps exactly the selected entries, as often as they occur. */
  lemma {:induction false} MatchingCounts(es: seq<Entry>, hit: Entry -> bool, source: string, e: Entry)
    ensures multiset(Matching(es, hit, source))[e]
            == if hit(e) && source in {"", "all", e.source} then multiset(es)[e] else 0
  {
    if es != [] {
      MatchingCounts(es[..|es| - 1], hit, source, e);
      assert es == es[..|es| - 1] + [es[|es| - 1]];
    }
  }

  // t is what s holds at the positions pos, in order.
  predicate PicksOut(s: seq<Entry>, pos: seq<nat>, t: seq<Entry>) {
    && |t| == |pos|
    && (forall i, j {:trigger pos[i], pos[j]} :: 0 <= i < j < |pos| ==> pos[i] < pos[j])
    && (forall i {:trigger pos[i]} :: 0 <= i < |pos| ==> pos[i] < |s| && t[i] == s[pos[i]])
  }

  // Where the entries are that pass the search box and, unless it is "" or "all", come from the source.
  function Positions(es: seq<Entry>, hit: Entry -> bool, source: string): seq<nat> {
    if es == [] then []
    else
      var last := es[|es| - 1];
      Positions(es[..|es| - 1], hit, source)
      + if hit(last) && source in {"", "all", last.source} then [|es| - 1] else []
  }

  lemma PicksSnoc(s: seq<Entry>, e: Entry, pos: seq<nat>, t: seq<Entry>)
    requires PicksOut(s, pos, t)
    ensures PicksOut(s + [e], pos, t) && PicksOut(s + [e], pos + [|s|], t + [e])
  {}

  /** Filtering keeps the order of the catalog. */
  lemma {:induction false} MatchingKeepsOrder(es: seq<Entry>, hit: Entry -> bool, source: string)
    ensures PicksOut(es, Positions(es, hit, source), Matching(es, hit, source))
    ensures forall i :: i in Positions(es, hit, source) <==>
              0 <= i < |es| && hit(es[i]) && source in {"", "all", es[i].source}
  {
    if es != [] {
      var init := es[..|es| - 1];
      MatchingKeepsOrder(init, hit, source);
      assert es == init + [es[|es| - 1]];
      PicksSnoc(init, es[|es| - 1], Positions(init, hit, source), Matching(init, hit, source));
    }
  }

  // The first n pages of the given size, one after the other.
  function Pages(m: seq<Entry>, size: nat, n: nat): seq<Entry> {
    if n == 0 then [] else Pages(m, size, n - 1) + Window(m, size, (n - 1) * size)
  }

  lemma WindowExtends(m: seq<Entry>, size: nat, lo: nat)
    requires size > 0
    ensures lo <= |m| ==>
              m[..lo] + Window(m, size, lo) == if lo + size <= |m| then m[..lo + size] else m
    ensures lo > |m| ==> m + Window(m, size, lo) == m
  {}

  /** Pages at offsets 0, size, 2 * size, ... tile the unpaged list: the first n of them are its first n * size
      entries in order, hence all of it once n * size reaches the total. */
  lemma {:induction false} PagesTile(m: seq<Entry>, size: nat, n: nat)
    requires size > 0
    ensures Pages(m, size, n) == if n * size <= |m| then m[..n * size] else m
    ensures n * size >= |m| ==> Pages(m, size, n) == Window(m, 0, 0)
  {
    if n > 0 {
      PagesTile(m, size, n - 1);
      assert n * size == (n - 1) * size + size;
      WindowExtends(m, size, (n - 1) * size);
    }
  }
}
