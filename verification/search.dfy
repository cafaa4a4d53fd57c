/** The search filter the dashboard re-applies whenever the tree or the search term
    changes: every category keeps only the widgets whose lower-cased name contains the
    lower-cased term, then the categories left without widgets are dropped. */
module Search {
  import opened Text
  import opened Model

  /** The per-widget search test. The empty term matches every widget. */
  predicate Matches(w: Widget, term: string): (r: bool)
    ensures term == [] ==> r
  {
    Includes(Lower(w.name), Lower(term))
  }

  /** The search ignores the case of the term: a lower-cased term finds the same widgets. */
  lemma MatchesLowerTerm(w: Widget, term: string)
    ensures Matches(w, Lower(term)) == Matches(w, term)
  {
    LowerIdempotent(term);
  }

  /** The matching widgets of one category, in their original order. */
  function FilterWidgets(ws: seq<Widget>, term: string): (r: seq<Widget>)
    ensures |r| <= |ws|
  {
    if ws == [] then []
    else (if Matches(ws[0], term) then [ws[0]] else []) + FilterWidgets(ws[1..], term)
  }

  /** Soundness and completeness of the widget filter: a widget is kept exactly when it
      is in the list and matches the term. */
  lemma {:induction false} FilterWidgetsMembers(ws: seq<Widget>, term: string)
    ensures forall w :: w in FilterWidgets(ws, term) <==> w in ws && Matches(w, term)
  {
    if ws != [] {
      FilterWidgetsMembers(ws[1..], term);
      assert forall w :: w in ws <==> w == ws[0] || w in ws[1..];
    }
  }

  /** The `map` step: every category narrowed to its matching widgets. */
  function Narrow(tree: Tree, term: string): (r: Tree)
    ensures |r| == |tree|
    ensures forall i :: 0 <= i < |tree| ==>
      r[i] == Category(tree[i].name, FilterWidgets(tree[i].widgets, term))
  {
    if tree == [] then []
    else [Category(tree[0].name, FilterWidgets(tree[0].widgets, term))] + Narrow(tree[1..], term)
  }

  /** The `filter` step: the categories that still hold a widget, in their original order. */
  function NonEmpty(tree: Tree): (r: Tree)
    ensures |r| <= |tree|
  {
    if tree == [] then []
    else (if |tree[0].widgets| > 0 then [tree[0]] else []) + NonEmpty(tree[1..])
  }

  /** The `filter` step keeps exactly the categories that hold a widget. */
  lemma {:induction false} NonEmptyMembers(tree: Tree)
    ensures forall c :: c in NonEmpty(tree) <==> c in tree && |c.widgets| > 0
  {
    if tree != [] {
      NonEmptyMembers(tree[1..]);
      assert forall c :: c in tree <==> c == tree[0] || c in tree[1..];
    }
  }

  /** The filtered tree the dashboard renders: each category narrowed to its matching
      widgets, kept only when something is left, in root order. */
  function Filter(tree: Tree, term: string): (r: Tree)
    ensures |r| <= |tree|
  {
    if tree == [] then []
    else
      var kept := FilterWidgets(tree[0].widgets, term);
      (if |kept| > 0 then [Category(tree[0].name, kept)] else []) + Filter(tree[1..], term)
  }

  /** The filter is the source's two steps in a row: narrow every category, then drop
      the categories left empty. */
  lemma {:induction false} FilterIsNarrowThenNonEmpty(tree: Tree, term: string)
    ensures Filter(tree, term) == NonEmpty(Narrow(tree, term))
  {
    if tree != [] {
      var n := Narrow(tree, term);
      assert n[1..] == Narrow(tree[1..], term);
      FilterIsNarrowThenNonEmpty(tree[1..], term);
    }
  }

  /** Soundness of the filter, and the category-drop law's first half: every category of the
      filtered tree holds at least one widget, and every widget in it matches the term. */
  lemma FilterSound(tree: Tree, term: string)
    ensures forall c :: c in Filter(tree, term) ==> |c.widgets| > 0
    ensures forall c, w :: c in Filter(tree, term) && w in c.widgets ==> Matches(w, term)
  {
    var narrowed := Narrow(tree, term);
    FilterIsNarrowThenNonEmpty(tree, term);
    NonEmptyMembers(narrowed);
    forall c, w | c in Filter(tree, term) && w in c.widgets ensures Matches(w, term) {
      var i :| 0 <= i < |narrowed| && narrowed[i] == c;
      FilterWidgetsMembers(tree[i].widgets, term);
    }
  }

  /** Filtering keeps the relative order of widgets: it distributes over concatenation. */
  lemma {:induction false} FilterWidgetsAppend(a: seq<Widget>, b: seq<Widget>, term: string)
    ensures FilterWidgets(a + b, term) == FilterWidgets(a, term) + FilterWidgets(b, term)
  {
    if a != [] {
      assert (a + b)[1..] == a[1..] + b;
      FilterWidgetsAppend(a[1..], b, term);
    } else {
      assert a + b == b;
    }
  }

  /** A widget list whose widgets all match is left as it is. */
  lemma {:induction false} FilterWidgetsAllMatch(ws: seq<Widget>, term: string)
    requires forall w :: w in ws ==> Matches(w, term)
    ensures FilterWidgets(ws, term) == ws
  {
    if ws != [] {
      FilterWidgetsAllMatch(ws[1..], term);
      assert ws == [ws[0]] + ws[1..];
    }
  }

  /** Category-drop law: a root category appears in the filtered tree, narrowed to its
      matching widgets, exactly when at least one of its widgets matches. */
  lemma {:induction false} FilterKeepsCategory(tree: Tree, term: string, i: nat)
    requires i < |tree|
    ensures Category(tree[i].name, FilterWidgets(tree[i].widgets, term)) in Filter(tree, term)
        <==> exists w :: w in tree[i].widgets && Matches(w, term)
  {
    var c := Category(tree[i].name, FilterWidgets(tree[i].widgets, term));
    var narrowed := Narrow(tree, term);
    FilterIsNarrowThenNonEmpty(tree, term);
    assert narrowed[i] == c;
    FilterWidgetsMembers(tree[i].widgets, term);
    if exists w :: w in tree[i].widgets && Matches(w, term) {
      var w :| w in tree[i].widgets && Matches(w, term);
      assert w in c.widgets;
    }
    if c in Filter(tree, term) {
      FilterSound(tree, term);
      assert c.widgets[0] in c.widgets;
    } else {
      NonEmptyMembers(narrowed);
    }
  }

  /** Surviving categories keep the root order: filtering distributes over concatenation. */
  lemma {:induction false} FilterAppend(a: Tree, b: Tree, term: string)
    ensures Filter(a + b, term) == Filter(a, term) + Filter(b, term)
  {
    if a == [] {
      assert a + b == b;
    } else {
      assert (a + b)[0] == a[0];
      assert (a + b)[1..] == a[1..] + b;
      var kept := FilterWidgets(a[0].widgets, term);
      var head := if |kept| > 0 then [Category(a[0].name, kept)] else [];
      FilterAppend(a[1..], b, term);
      var rest, fb := Filter(a[1..], term), Filter(b, term);
      assert head + (rest + fb) == (head + rest) + fb;
    }
  }

  /** A tree of non-empty categories whose widgets all match is a fixed point of the filter. */
  lemma {:induction false} FilterFixesMatchingTree(tree: Tree, term: string)
    requires forall c :: c in tree ==> |c.widgets| > 0
    requires forall c, w :: c in tree && w in c.widgets ==> Matches(w, term)
    ensures Filter(tree, term) == tree
  {
    if tree != [] {
      FilterWidgetsAllMatch(tree[0].widgets, term);
      FilterFixesMatchingTree(tree[1..], term);
      assert tree == [tree[0]] + tree[1..];
    }
  }

  /** The filter hides nothing exactly when no category is empty and every widget matches;
      then filtered positions are root positions. */
  lemma FilterHidesNothing(tree: Tree, term: string)
    ensures Filter(tree, term) == tree <==>
      (forall c :: c in tree ==> |c.widgets| > 0)
      && (forall c, w :: c in tree && w in c.widgets ==> Matches(w, term))
  {
    FilterSound(tree, term);
    if (forall c :: c in tree ==> |c.widgets| > 0)
      && (forall c, w :: c in tree && w in c.widgets ==> Matches(w, term)) {
      FilterFixesMatchingTree(tree, term);
    }
  }

  /** Searching again for the same term changes nothing. */
  lemma FilterIdempotent(tree: Tree, term: string)
    ensures Filter(Filter(tree, term), term) == Filter(tree, term)
  {
    FilterSound(tree, term);
    FilterFixesMatchingTree(Filter(tree, term), term);
  }

  /** With an empty term every widget matches, so the filter only drops the categories
      that were already empty; a tree without empty categories comes back unchanged. */
  lemma {:induction false} FilterEmptyTerm(tree: Tree)
    ensures Filter(tree, "") == NonEmpty(tree)
    ensures (forall c :: c in tree ==> |c.widgets| > 0) ==> Filter(tree, "") == tree
  {
    if tree != [] {
      assert Lower("") == "";
      forall w | w in tree[0].widgets ensures Matches(w, "") {
        IncludesEmpty(Lower(w.name));
      }
      FilterWidgetsAllMatch(tree[0].widgets, "");
      FilterEmptyTerm(tree[1..]);
      assert tree == [tree[0]] + tree[1..];
    }
  }

  /** The root position of the `k`-th widget the filter keeps from `ws`. */
  function WidgetSource(ws: seq<Widget>, term: string, k: nat): (j: nat)
    requires k < |FilterWidgets(ws, term)|
    ensures j < |ws| && ws[j] == FilterWidgets(ws, term)[k]
  {
    if Matches(ws[0], term) then
      if k == 0 then 0 else 1 + WidgetSource(ws[1..], term, k - 1)
    else 1 + WidgetSource(ws[1..], term, k)
  }

  /** Kept widgets appear in root order: later filtered positions come from later root positions. */
  lemma {:induction false} WidgetSourceIncreasing(ws: seq<Widget>, term: string, k1: nat, k2: nat)
    requires k1 < k2 < |FilterWidgets(ws, term)|
    ensures WidgetSource(ws, term, k1) < WidgetSource(ws, term, k2)
  {
    var rest := FilterWidgets(ws[1..], term);
    if Matches(ws[0], term) {
      assert FilterWidgets(ws, term) == [ws[0]] + rest;
      assert WidgetSource(ws, term, k2) == 1 + WidgetSource(ws[1..], term, k2 - 1);
      if k1 > 0 {
        WidgetSourceIncreasing(ws[1..], term, k1 - 1, k2 - 1);
      }
    } else {
      assert FilterWidgets(ws, term) == rest;
      WidgetSourceIncreasing(ws[1..], term, k1, k2);
    }
  }

  /** Every matching root position is the source of some filtered position: together with
      WidgetSourceIncreasing, the kept widgets are exactly the matching ones, in order. */
  lemma {:induction false} WidgetSourceOnto(ws: seq<Widget>, term: string, j: nat)
    requires j < |ws| && Matches(ws[j], term)
    ensures exists k: nat :: k < |FilterWidgets(ws, term)| && WidgetSource(ws, term, k) == j
  {
    if j == 0 {
      assert WidgetSource(ws, term, 0) == 0;
    } else {
      WidgetSourceOnto(ws[1..], term, j - 1);
      var k: nat :| k < |FilterWidgets(ws[1..], term)| && WidgetSource(ws[1..], term, k) == j - 1;
      var k' := if Matches(ws[0], term) then k + 1 else k;
      assert WidgetSource(ws, term, k') == j;
    }
  }

  /** The root position of the `ci`-th category of the filtered tree. */
  function CategorySource(tree: Tree, term: string, ci: nat): (j: nat)
    requires ci < |Filter(tree, term)|
    ensures j < |tree|
    ensures Filter(tree, term)[ci] == Category(tree[j].name, FilterWidgets(tree[j].widgets, term))
  {
    if |FilterWidgets(tree[0].widgets, term)| > 0 then
      if ci == 0 then 0 else 1 + CategorySource(tree[1..], term, ci - 1)
    else 1 + CategorySource(tree[1..], term, ci)
  }

  /** Filtered categories appear in root order. */
  lemma {:induction false} CategorySourceIncreasing(tree: Tree, term: string, c1: nat, c2: nat)
    requires c1 < c2 < |Filter(tree, term)|
    ensures CategorySource(tree, term, c1) < CategorySource(tree, term, c2)
  {
    var kept := FilterWidgets(tree[0].widgets, term);
    var rest := Filter(tree[1..], term);
    if |kept| > 0 {
      assert Filter(tree, term) == [Category(tree[0].name, kept)] + rest;
      assert CategorySource(tree, term, c2) == 1 + CategorySource(tree[1..], term, c2 - 1);
      if c1 > 0 {
        CategorySourceIncreasing(tree[1..], term, c1 - 1, c2 - 1);
      }
    } else {
      assert Filter(tree, term) == rest;
      CategorySourceIncreasing(tree[1..], term, c1, c2);
    }
  }
}
