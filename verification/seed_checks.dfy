/** Concrete facts about the seed tree the dashboard starts from. */
module SeedChecks {
  import opened Text
  import opened Model
  import opened Search
  import opened Charts
  import opened Edit

  // The lemmas about the "workload" search take the search term as a parameter `term`
  // whose value the precondition fixes to "workload"; each one reads as a statement about
  // that search.

  /** The name holds no `w` in either case. */
  predicate LacksW(name: string) {
    forall i :: 0 <= i < |name| ==> name[i] != 'w' && name[i] != 'W'
  }

  /** A name holding no `w` in either case cannot match "workload". */
  lemma MissesWorkload(w: Widget, term: string)
    requires term == "workload" && LacksW(w.name)
    ensures !Matches(w, term)
  {
    assert Lower(term)[0] == 'w';
    if Matches(w, term) {
      IncludesFirstChar(Lower(w.name), Lower(term));
    }
  }

  /** "Workload Alerts" starts with "workload" once lower-cased. */
  lemma WorkloadAlertsMatches(term: string)
    requires term == "workload"
    ensures Matches(WorkloadAlerts, term)
  {
  }

  /** The CNAPP category keeps nothing when searching "workload". */
  lemma NarrowCnappWorkload(term: string)
    requires term == "workload"
    ensures FilterWidgets(Seed[0].widgets, term) == []
  {
    MissesWorkload(CloudAccounts, term);
    MissesWorkload(CloudAccountRisk, term);
    PairFiltered(CloudAccounts, CloudAccountRisk, term);
  }

  /** CWPP keeps only "Workload Alerts". */
  lemma NarrowCwppWorkload(term: string)
    requires term == "workload"
    ensures FilterWidgets(Seed[1].widgets, term) == [WorkloadAlerts]
  {
    MissesWorkload(NamespaceAlerts, term);
    WorkloadAlertsMatches(term);
    PairFiltered(NamespaceAlerts, WorkloadAlerts, term);
  }

  /** The registry scan keeps nothing. */
  lemma NarrowRegistryWorkload(term: string)
    requires term == "workload"
    ensures FilterWidgets(Seed[2].widgets, term) == []
  {
    MissesWorkload(ImageRisk, term);
    MissesWorkload(ImageSecurity, term);
    PairFiltered(ImageRisk, ImageSecurity, term);
  }

  /** A two-widget category keeps its matching widgets, in order. */
  lemma PairFiltered(a: Widget, b: Widget, term: string)
    ensures FilterWidgets([a, b], term) ==
      (if Matches(a, term) then [a] else []) + (if Matches(b, term) then [b] else [])
  {
  }

  /** Searching "workload" leaves only the CWPP category, holding only "Workload Alerts". */
  lemma SearchWorkload(term: string)
    requires term == "workload"
    ensures Filter(Seed, term) == [Category("CWPP Dashboard", [WorkloadAlerts])]
  {
    NarrowCnappWorkload(term);
    NarrowCwppWorkload(term);
    NarrowRegistryWorkload(term);
    var tail := Seed[1..];
    assert Filter(Seed, term) == Filter(tail, term);
    assert Filter(tail, term) == [Category("CWPP Dashboard", [WorkloadAlerts])] + Filter(tail[1..], term);
    assert Filter(tail[1..], term) == Filter(tail[1..][1..], term);
    assert tail[1..][1..] == [];
  }

  /** Two widgets with different ids hold each id at most once. */
  lemma PairIds(a: Widget, b: Widget, id: string)
    requires a.id != b.id
    ensures CountIn([a, b], id) <= 1
    ensures CountIn([a, b], id) == 0 <==> a.id != id && b.id != id
  {
    assert [a, b][1..] == [b];
    assert [b][1..] == [];
    assert CountIn([b], id) == (if b.id == id then 1 else 0);
    assert CountIn([a, b], id) == (if a.id == id then 1 else 0) + CountIn([b], id);
  }

  /** No two seed widgets share an id. */
  lemma SeedIdsUnique()
    ensures UniqueIds(Seed)
  {
    forall id ensures IdCount(Seed, id) <= 1 {
      PairIds(CloudAccounts, CloudAccountRisk, id);
      PairIds(NamespaceAlerts, WorkloadAlerts, id);
      PairIds(ImageRisk, ImageSecurity, id);
      var tail := Seed[1..];
      var last := tail[1..];
      assert last[1..] == [];
      assert IdCount(last, id) == CountIn(last[0].widgets, id);
      assert IdCount(tail, id) == CountIn(tail[0].widgets, id) + IdCount(last, id);
      assert IdCount(Seed, id) == CountIn(Seed[0].widgets, id) + IdCount(tail, id);
    }
  }

  /** With the initial empty search every seed category is shown in full. */
  lemma SeedShownInFull()
    ensures Filter(Seed, "") == Seed
  {
    FilterEmptyTerm(Seed);
  }

  /** The seed's donut: four slices in palette order around a 60-pixel hole, adding up to
      the widget's 9909 resources. */
  lemma SeedDonut()
    ensures var r := Render(CloudAccountRisk);
      r.PieChart? && r.innerRadius == 60 && |r.slices| == 4 && SliceTotal(r.slices) == 9909
      && r.slices == [Slice("Failed", 1589, "#0088FE"), Slice("Warning", 681, "#00C49F"),
                      Slice("Not Available", 386, "#FFBB28"), Slice("Passed", 7253, "#FF8042")]
  {
  }

  /** While "workload" is searched, the only widget on screen is "Workload Alerts", at
      position (0, 0) of the filtered tree; a remove click there reports (0, 0), and the
      component's remove, applied to the root tree at (0, 0), deletes "Cloud Accounts"
      and leaves "Workload Alerts" in place. */
  lemma RemoveOnFilteredViewHitsWrongWidget(term: string)
    requires term == "workload"
    ensures Filter(Seed, term) == [Category("CWPP Dashboard", [WorkloadAlerts])]
    ensures RemoveAt(Seed, 0, 0)[0].widgets == [CloudAccountRisk]
    ensures RemoveAt(Seed, 0, 0)[1] == Seed[1] && WorkloadAlerts in Seed[1].widgets
  {
    SearchWorkload(term);
    assert [CloudAccounts, CloudAccountRisk][1..] == [CloudAccountRisk];
  }

  /** When a pair of distinct widgets keeps only its second, that is the source of position 0. */
  lemma SecondOfPairSource(a: Widget, b: Widget, term: string)
    requires a != b && FilterWidgets([a, b], term) == [b]
    ensures WidgetSource([a, b], term, 0) == 1
  {
  }

  /** A first category that keeps nothing is skipped; a first category that keeps something
      is the source of filtered position 0. */
  lemma FirstCategorySource(tree: Tree, term: string)
    requires |tree| >= 2
    requires FilterWidgets(tree[0].widgets, term) == []
    requires FilterWidgets(tree[1].widgets, term) != []
    ensures |Filter(tree, term)| > 0 && CategorySource(tree, term, 0) == 1
  {
  }

  /** The widget shown at (0, 0) while "workload" is searched is the second widget of the
      second root category. */
  lemma ShownWorkloadSource(term: string)
    requires term == "workload"
    ensures Filter(Seed, term) == [Category("CWPP Dashboard", [WorkloadAlerts])]
    ensures CategorySource(Seed, term, 0) == 1
    ensures WidgetSource(Seed[1].widgets, term, 0) == 1
  {
    SearchWorkload(term);
    NarrowCnappWorkload(term);
    NarrowCwppWorkload(term);
    FirstCategorySource(Seed, term);
    SecondOfPairSource(NamespaceAlerts, WorkloadAlerts, term);
  }

  /** The corrected remove on the same click deletes "Workload Alerts" and nothing else. */
  lemma RemoveShownOnFilteredView(term: string)
    requires term == "workload"
    ensures Filter(Seed, term) == [Category("CWPP Dashboard", [WorkloadAlerts])]
    ensures RemoveShown(Seed, term, 0, 0) == Seed[1 := Category("CWPP Dashboard", [NamespaceAlerts])]
  {
    ShownWorkloadSource(term);
    assert SpliceOne(Seed[1].widgets, 1) == [NamespaceAlerts];
  }

  /** While "workload" is searched the first category on screen is "CWPP Dashboard"; an add
      from its dialog reports index 0, and the component's add, applied to the root tree at
      index 0, puts the new widget into "CNAPP Dashboard". */
  lemma AddOnFilteredViewHitsWrongCategory(term: string, w: Widget)
    requires term == "workload"
    ensures Filter(Seed, term) == [Category("CWPP Dashboard", [WorkloadAlerts])]
    ensures AppendWidget(Seed, 0, w)[0].name == "CNAPP Dashboard"
    ensures AppendWidget(Seed, 0, w)[1] == Seed[1]
  {
    SearchWorkload(term);
  }

  /** The seed after both CNAPP widgets are removed. */
  const EmptiedCnapp: Tree := Seed[0 := Category("CNAPP Dashboard", [])]

  /** Without any search: removing both CNAPP widgets (each shown, and clicked, at (0, 0))
      leaves CNAPP empty, so the filter hides it and "Top 5 Namespace Specific Alerts" is
      shown at (0, 0). A remove click there reports (0, 0), and the component's remove on
      the root tree at (0, 0) then removes nothing. */
  lemma RemoveAfterEmptyingHitsHiddenCategory()
    ensures RemoveAt(RemoveAt(Seed, 0, 0), 0, 0) == EmptiedCnapp
    ensures Filter(EmptiedCnapp, "") == EmptiedCnapp[1..]
    ensures Filter(EmptiedCnapp, "")[0].widgets[0] == NamespaceAlerts
    ensures RemoveAt(EmptiedCnapp, 0, 0) == EmptiedCnapp
  {
    var t := EmptiedCnapp;
    FilterEmptyTerm(t);
    assert t == [t[0]] + t[1..];
    FilterEmptyTerm(t[1..]);
  }

  /** In the same state, the first category shown is "CWPP Dashboard"; an add from its
      dialog reports 0 and lands in the hidden "CNAPP Dashboard". */
  lemma AddAfterEmptyingHitsHiddenCategory(w: Widget)
    ensures Filter(EmptiedCnapp, "") == EmptiedCnapp[1..]
    ensures Filter(EmptiedCnapp, "")[0].name == "CWPP Dashboard"
    ensures AppendWidget(EmptiedCnapp, 0, w)[0] == Category("CNAPP Dashboard", [w])
  {
    RemoveAfterEmptyingHitsHiddenCategory();
  }
}
