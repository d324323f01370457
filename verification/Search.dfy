/**
  Grouping of one repository's search rows into catalog entries.
  Source: parseSearchJSON in api/internal/apps/helm.go, after JSON decoding.
 */
module Search {
  import opened Catalog
  import opened Sorting

  datatype Row = Row(name: string, version: string, description: string)

  const KEPT_VERSIONS := 3

  function LastSlash(s: string): (i: int)
    ensures -1 <= i < |s|
  {
    if s == "" then -1
    else if s[|s| - 1] == '/' then |s| - 1
    else LastSlash(s[..|s| - 1])
  }

  // "<repo>/<chart>" without its repository.
  function Short(full: string): string { full[LastSlash(full) + 1..] }

  lemma {:induction false} LastSlashMeans(s: string)
    ensures LastSlash(s) >= 0 ==> s[LastSlash(s)] == '/'
    ensures forall i :: LastSlash(s) < i < |s| ==> s[i] != '/'
  {
    if s != "" && s[|s| - 1] != '/' {
      LastSlashMeans(s[..|s| - 1]);
    }
  }

  /** The short name is what follows the last slash. */
  lemma ShortMeans(full: string)
    ensures '/' !in Short(full)
    ensures LastSlash(full) >= 0 ==> full == full[..LastSlash(full)] + "/" + Short(full)
    ensures LastSlash(full) < 0 ==> full == Short(full)
  {
    LastSlashMeans(full);
    var i := LastSlash(full);
    if i >= 0 {
      assert full == full[..i] + [full[i]] + full[i + 1..];
    }
  }

  // The versions of the rows with the given full name, in row order.
  function Versions(rows: seq<Row>, full: string): seq<string> {
    if rows == [] then []
    else
      Versions(rows[..|rows| - 1], full)
      + if rows[|rows| - 1].name == full then [rows[|rows| - 1].version] else []
  }

  // The description of the first such row.
  function Description(rows: seq<Row>, full: string): string {
    if rows == [] then ""
    else if rows[0].name == full then rows[0].description
    else Description(rows[1..], full)
  }

  predicate After(a: string, b: string) { StrLess(b, a) }

  lemma AfterIsStrictWeak()
    ensures StrictWeak(After)
  {
    forall x, y | After(x, y) ensures !After(y, x) { StrOrder(x, y, x); }
    forall x, y, z | !After(x, y) && !After(y, z) ensures !After(x, z) { StrOrder(z, y, x); }
  }

  predicate ByName(a: Entry, b: Entry) { StrLess(a.name, b.name) }

  lemma ByNameIsStrictWeak()
    ensures StrictWeak(ByName)
  {
    forall x, y | ByName(x, y) ensures !ByName(y, x) { StrOrder(x.name, y.name, x.name); }
    forall x, y, z | !ByName(x, y) && !ByName(y, z) ensures !ByName(x, z) { StrOrder(x.name, y.name, z.name); }
  }

  function Descending(versions: seq<string>): seq<string> { StableSort(After, versions) }

  function Newest(versions: seq<string>): seq<string> {
    var d := Descending(versions);
    if |d| > KEPT_VERSIONS then d[..KEPT_VERSIONS] else d
  }

  // The entry all rows of one full name make.
  function Grouped(rows: seq<Row>, full: string): Entry {
    var vs := Newest(Versions(rows, full));
    Entry(Short(full), full, "", Description(rows, full), vs, if vs == [] then "" else vs[0], "")
  }

  function ChartOf(e: Entry): string { e.chart }

  // One entry for each full name that occurs.
  ghost predicate Partition(rows: seq<Row>, out: seq<Entry>) {
    && DistinctBy(ChartOf, out)
    && (forall e :: e in out ==> e == Grouped(rows, e.chart) && Versions(rows, e.chart) != [])
    && (forall full :: Versions(rows, full) != [] ==> Grouped(rows, full) in out)
  }

  // A group while rows are read.
  function Gathering(rows: seq<Row>, full: string): Entry {
    Entry(Short(full), full, "", Description(rows, full), Versions(rows, full), "", "")
  }

  ghost predicate GroupAt(rows: seq<Row>, groups: map<string, Entry>, full: string) {
    && (full in groups <==> Versions(rows, full) != [])
    && (full in groups ==> groups[full] == Gathering(rows, full))
  }

  lemma {:induction false} DescriptionSnoc(rows: seq<Row>, r: Row, full: string)
    ensures Versions(rows, full) != [] ==> Description(rows + [r], full) == Description(rows, full)
    ensures Versions(rows, full) == [] ==>
              Description(rows + [r], full) == if r.name == full then r.description else ""
  {
    if rows != [] {
      assert (rows + [r])[1..] == rows[1..] + [r];
      VersionsHead(rows, full);
      DescriptionSnoc(rows[1..], r, full);
    } else {
      assert ([] + [r])[1..] == [];
    }
  }

  lemma {:induction false} VersionsHead(rows: seq<Row>, full: string)
    requires rows != []
    ensures Versions(rows, full) == (if rows[0].name == full then [rows[0].version] else []) + Versions(rows[1..], full)
  {
    if |rows| > 1 {
      var init := rows[..|rows| - 1];
      VersionsHead(init, full);
      assert init[1..] == rows[1..][..|rows| - 2];
    }
  }

  lemma VersionsSnoc(rows: seq<Row>, r: Row, full: string)
    ensures Versions(rows + [r], full) == Versions(rows, full) + if r.name == full then [r.version] else []
  {
    assert (rows + [r])[..|rows|] == rows;
  }

  method ParseSearch(rows: seq<Row>) returns (out: seq<Entry>)
    ensures Partition(rows, out)
    ensures forall i, j {:trigger out[i], out[j]} :: 0 <= i < j < |out| ==> !StrLess(out[j].name, out[i].name)
  {
    var groups: map<string, Entry> := map[];
    for i := 0 to |rows|
      invariant forall full :: GroupAt(rows[..i], groups, full)
    {
      var r := rows[i];
      ghost var seen, before := rows[..i], groups;
      assert rows[..i + 1] == seen + [r];
      assert GroupAt(seen, groups, r.name);
      if r.name !in groups {
        groups := groups[r.name := Entry(Short(r.name), r.name, "", r.description, [], "", "")];
      }
      var g := groups[r.name];
      groups := groups[r.name := g.(versions := g.versions + [r.version])];
      forall full ensures GroupAt(seen + [r], groups, full) {
        assert GroupAt(seen, before, full);
        VersionsSnoc(seen, r, full);
        DescriptionSnoc(seen, r, full);
      }
    }
    assert rows[..|rows|] == rows;
    out := Collect(rows, groups);
    ByNameIsStrictWeak();
    ghost var unsorted := out;
    out := StableSort(ByName, out);
    SortSorts(ByName, unsorted);
    SortPermutes(ByName, unsorted);
    PartitionPermutes(rows, unsorted, out);
  }

  lemma PartitionPermutes(rows: seq<Row>, s: seq<Entry>, t: seq<Entry>)
    requires Partition(rows, s) && multiset(s) == multiset(t)
    ensures Partition(rows, t)
  {
    PermKeepsDistinct(ChartOf, s, t);
    forall e ensures e in s <==> e in t {
      assert e in multiset(s) <==> e in multiset(t);
    }
  }

  // The loop over the groups, in whatever order the map yields them.
  method Collect(ghost rows: seq<Row>, groups: map<string, Entry>) returns (out: seq<Entry>)
    requires forall full :: GroupAt(rows, groups, full)
    ensures Partition(rows, out)
  {
    out := [];
    var todo := groups.Keys;
    while todo != {}
      invariant todo <= groups.Keys
      invariant DistinctBy(ChartOf, out)
      invariant forall e :: e in out ==> e.chart in groups && e.chart !in todo && e == Grouped(rows, e.chart)
      invariant forall full :: full in groups && full !in todo ==> Grouped(rows, full) in out
      decreases todo
    {
      var full :| full in todo;
      assert GroupAt(rows, groups, full);
      var g := groups[full];
      var vs := Descending(g.versions);
      if |vs| > KEPT_VERSIONS {
        vs := vs[..KEPT_VERSIONS];
      }
      g := g.(versions := vs);
      if |vs| > 0 {
        g := g.(latest := vs[0]);
      }
      assert g == Grouped(rows, full);
      out := out + [g];
      todo := todo - {full};
    }
    forall e | e in out ensures Versions(rows, e.chart) != [] { assert GroupAt(rows, groups, e.chart); }
    forall full | Versions(rows, full) != [] ensures full in groups { assert GroupAt(rows, groups, full); }
  }

  ghost predicate SortedDown(vs: seq<string>, d: seq<string>) {
    && (forall i, j {:trigger d[i], d[j]} :: 0 <= i < j < |d| ==> !StrLess(d[i], d[j]))
    && multiset(d) == multiset(vs) && |d| == |vs|
  }

  ghost predicate IsMaximum(v: string, vs: seq<string>) {
    v in vs && forall w :: w in vs ==> !StrLess(v, w)
  }

  lemma DescendingMeans(vs: seq<string>)
    requires vs != []
    ensures SortedDown(vs, Descending(vs)) && IsMaximum(Descending(vs)[0], vs)
  {
    var d := Descending(vs);
    AfterIsStrictWeak();
    SortSorts(After, vs);
    SortPermutes(After, vs);
    assert |multiset(d)| == |multiset(vs)|;
    assert d[0] in multiset(vs);
    forall w | w in vs ensures !StrLess(d[0], w) {
      assert w in multiset(d);
      StrIrreflexive(w);
    }
  }

  // The rows of one chart.
  function RowsOf(rows: seq<Row>, full: string): seq<nat> {
    if rows == [] then []
    else RowsOf(rows[..|rows| - 1], full) + if rows[|rows| - 1].name == full then [|rows| - 1] else []
  }

  // vs are the versions of the rows at pos, the description that of the first of them.
  predicate Collects(rows: seq<Row>, pos: seq<nat>, vs: seq<string>, description: string) {
    && |vs| == |pos|
    && (forall i, j {:trigger pos[i], pos[j]} :: 0 <= i < j < |pos| ==> pos[i] < pos[j])
    && (forall i {:trigger pos[i]} :: 0 <= i < |pos| ==> pos[i] < |rows| && vs[i] == rows[pos[i]].version)
    && (|pos| > 0 ==> description == rows[pos[0]].description)
  }

  lemma CollectsSnoc(rows: seq<Row>, r: Row, pos: seq<nat>, vs: seq<string>, description: string)
    requires Collects(rows, pos, vs, description)
    ensures Collects(rows + [r], pos, vs, description)
    ensures Collects(rows + [r], pos + [|rows|], vs + [r.version], if pos == [] then r.description else description)
  {}

  lemma {:induction false} RowsOfAll(rows: seq<Row>, full: string, i: nat)
    ensures i in RowsOf(rows, full) <==> i < |rows| && rows[i].name == full
  {
    if rows != [] {
      RowsOfAll(rows[..|rows| - 1], full, i);
    }
  }

  lemma {:induction false} RowsOfCollects(rows: seq<Row>, full: string)
    ensures Collects(rows, RowsOf(rows, full), Versions(rows, full), Description(rows, full))
  {
    if rows != [] {
      var init, last := rows[..|rows| - 1], rows[|rows| - 1];
      RowsOfCollects(init, full);
      assert rows == init + [last];
      OneMoreRow(init, last, full);
    }
  }

  lemma OneMoreRow(rows: seq<Row>, r: Row, full: string)
    requires Collects(rows, RowsOf(rows, full), Versions(rows, full), Description(rows, full))
    ensures Collects(rows + [r], RowsOf(rows + [r], full), Versions(rows + [r], full), Description(rows + [r], full))
  {
    var pos, vs, all := RowsOf(rows, full), Versions(rows, full), rows + [r];
    CollectsSnoc(rows, r, pos, vs, Description(rows, full));
    DescriptionSnoc(rows, r, full);
    VersionsSnoc(rows, r, full);
    assert all[..|rows|] == rows && all[|rows|] == r;
    if r.name == full {
      assert RowsOf(all, full) == pos + [|rows|];
    } else {
      assert RowsOf(all, full) == pos && Versions(all, full) == vs;
    }
  }

  /** The versions of a chart are those of the rows that bear its full name, in their order; its description is the
      first one of them. */
  lemma RowsOfMeans(rows: seq<Row>, full: string)
    ensures Collects(rows, RowsOf(rows, full), Versions(rows, full), Description(rows, full))
    ensures forall i: nat :: i in RowsOf(rows, full) <==> i < |rows| && rows[i].name == full
  {
    RowsOfCollects(rows, full);
    forall i: nat ensures i in RowsOf(rows, full) <==> i < |rows| && rows[i].name == full { RowsOfAll(rows, full, i); }
  }

  // name is what follows the last slash of full.
  ghost predicate NamesChart(name: string, full: string) {
    '/' !in name && (name == full || exists repo :: full == repo + "/" + name)
  }

  lemma ShortNames(full: string)
    ensures NamesChart(Short(full), full)
  {
    ShortMeans(full);
    assert LastSlash(full) >= 0 ==> full == full[..LastSlash(full)] + "/" + Short(full);
  }

  lemma KeptMeans(vs: seq<string>)
    requires vs != [] && |Descending(vs)| == |vs|
    ensures Newest(vs) == Descending(vs)[..if |vs| < 3 then |vs| else 3] && Newest(vs)[0] == Descending(vs)[0]
  {}

  /** An entry is named by what follows the last slash of its chart and has no source yet; it keeps the first min(3, n)
      of its n versions in descending string order, and its latest version is their maximum. */
  lemma GroupedMeans(rows: seq<Row>, full: string)
    requires Versions(rows, full) != []
    ensures var vs := Versions(rows, full);
            var e := Grouped(rows, full);
            && e.chart == full && e.source == "" && NamesChart(e.name, full)
            && e.description == Description(rows, full)
            && SortedDown(vs, Descending(vs))
            && e.versions == Descending(vs)[..if |vs| < 3 then |vs| else 3]
            && IsMaximum(e.latest, vs)
  {
    ShortNames(full);
    DescendingMeans(Versions(rows, full));
    KeptMeans(Versions(rows, full));
  }

  function Copies(v: string, n: nat): seq<string> { seq(n, _ => v) }

  lemma {:induction false} GroupIsCopies(s: seq<string>, v: string)
    ensures Group(After, s, v) == Copies(v, multiset(s)[v])
  {
    if s != [] {
      GroupIsCopies(s[..|s| - 1], v);
      StrOrder(s[|s| - 1], v, v);
      assert s == s[..|s| - 1] + [s[|s| - 1]];
    }
  }

  /** Any way of sorting versions downwards gives the same sequence, so the library's unstable sort will do. */
  lemma DescendingUnique(vs: seq<string>, t: seq<string>)
    requires Sorted(After, t) && multiset(t) == multiset(vs)
    ensures t == Descending(vs)
  {
    AfterIsStrictWeak();
    SortSorts(After, vs);
    SortPermutes(After, vs);
    forall v ensures Group(After, t, v) == Group(After, Descending(vs), v) {
      GroupIsCopies(t, v);
      GroupIsCopies(Descending(vs), v);
    }
    SortedUnique(After, t, Descending(vs));
  }
}
