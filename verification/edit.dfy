/** The two edits of the root tree, as values: appending a new widget to a category,
    and splicing one widget out of a category with JavaScript's `splice(start, 1)`. */
module Edit {
  import opened Model
  import opened Search

  /** The widget the add form creates: the form's name and type tag, and no data. */
  function NewWidget(id: string, name: string, kind: string): (w: Widget)
    ensures w.id == id && w.name == name && w.kind == kind && |w.data| == 0
  {
    Widget(id, name, kind, [])
  }

  /** The tree after pushing `w` onto the widgets of category `ci`. */
  function AppendWidget(tree: Tree, ci: nat, w: Widget): (r: Tree)
    requires ci < |tree|
    ensures |r| == |tree|
    ensures r[ci].name == tree[ci].name && r[ci].widgets == tree[ci].widgets + [w]
    ensures forall k :: 0 <= k < |tree| && k != ci ==> r[k] == tree[k]
  {
    tree[ci := Category(tree[ci].name, tree[ci].widgets + [w])]
  }

  /** Appending adds exactly one widget carrying the new id and loses none. */
  lemma AppendWidgetIds(tree: Tree, ci: nat, w: Widget, id: string)
    requires ci < |tree|
    ensures IdCount(AppendWidget(tree, ci, w), id) == IdCount(tree, id) + (if w.id == id then 1 else 0)
  {
    var ws := tree[ci].widgets;
    IdCountUpdate(tree, ci, Category(tree[ci].name, ws + [w]), id);
    CountInConcat(ws, [w], id);
  }

  /** A widget added under an id the tree does not use keeps every id unique. */
  lemma AppendKeepsIdsUnique(tree: Tree, ci: nat, w: Widget)
    requires ci < |tree| && UniqueIds(tree) && IdCount(tree, w.id) == 0
    ensures UniqueIds(AppendWidget(tree, ci, w))
  {
    forall id ensures IdCount(AppendWidget(tree, ci, w), id) <= 1 {
      AppendWidgetIds(tree, ci, w, id);
    }
  }

  /** Searching after an add: the target category's matching widgets are the old ones
      followed by the new widget when it matches; no other category's are touched. */
  lemma NarrowAfterAppend(tree: Tree, ci: nat, w: Widget, term: string)
    requires ci < |tree|
    ensures Narrow(AppendWidget(tree, ci, w), term) ==
      Narrow(tree, term)[ci := Category(tree[ci].name,
        FilterWidgets(tree[ci].widgets, term) + (if Matches(w, term) then [w] else []))]
  {
    FilterWidgetsAppend(tree[ci].widgets, [w], term);
    assert FilterWidgets([w], term) == (if Matches(w, term) then [w] else []);
  }

  /** Where `splice(start, 1)` starts: a start inside the list is used as it is, a negative
      start counts back from the end and is clamped at 0, and a start past the end is
      clamped to the length. */
  function SpliceStart(len: nat, start: int): (s: nat)
    ensures s <= len
    ensures 0 <= start <= len ==> s == start
    ensures start < 0 && len + start >= 0 ==> s == len + start
    ensures start < 0 && len + start < 0 ==> s == 0
    ensures start > len ==> s == len
  {
    if start < 0 then (if len + start < 0 then 0 else len + start)
    else if start > len then len
    else start
  }

  /** `ws.splice(start, 1)`: when the start resolves inside the list, the length drops by
      one, the widgets before it keep their positions and the later ones shift down by one;
      a start that resolves to the end leaves the list as it is. */
  function SpliceOne(ws: seq<Widget>, start: int): (r: seq<Widget>)
    ensures var s := SpliceStart(|ws|, start);
      s < |ws| ==> (|r| == |ws| - 1 && r[..s] == ws[..s] && forall k :: s <= k < |r| ==> r[k] == ws[k + 1])
    ensures SpliceStart(|ws|, start) == |ws| ==> r == ws
  {
    var s := SpliceStart(|ws|, start);
    if s < |ws| then ws[..s] + ws[s + 1..] else ws
  }

  /** Splicing at a valid position loses exactly that widget. */
  lemma SpliceOneIds(ws: seq<Widget>, i: nat, id: string)
    requires i < |ws|
    ensures CountIn(SpliceOne(ws, i), id) + (if ws[i].id == id then 1 else 0) == CountIn(ws, id)
  {
    var before, after := ws[..i], ws[i + 1..];
    assert before + [ws[i]] == ws[..i + 1];
    assert ws[..i + 1] + after == ws;
    CountInConcat(before + [ws[i]], after, id);
    CountInConcat(before, [ws[i]], id);
    CountInConcat(before, after, id);
    assert SpliceOne(ws, i) == before + after;
  }

  /** The tree after `tree[ci].widgets.splice(wi, 1)`. */
  function RemoveAt(tree: Tree, ci: nat, wi: int): (r: Tree)
    requires ci < |tree|
    ensures |r| == |tree|
    ensures r[ci].name == tree[ci].name && r[ci].widgets == SpliceOne(tree[ci].widgets, wi)
    ensures forall k :: 0 <= k < |tree| && k != ci ==> r[k] == tree[k]
  {
    tree[ci := Category(tree[ci].name, SpliceOne(tree[ci].widgets, wi))]
  }

  /** Removing loses exactly the widget at the resolved splice start, or nothing when the
      start resolves to the end of the category. */
  lemma RemoveAtIds(tree: Tree, ci: nat, wi: int, id: string)
    requires ci < |tree|
    ensures var ws := tree[ci].widgets; var s := SpliceStart(|ws|, wi);
      IdCount(RemoveAt(tree, ci, wi), id) ==
        IdCount(tree, id) - (if s < |ws| && ws[s].id == id then 1 else 0)
  {
    var ws := tree[ci].widgets;
    var s := SpliceStart(|ws|, wi);
    var r := RemoveAt(tree, ci, wi);
    IdCountUpdate(tree, ci, r[ci], id);
    if s < |ws| {
      SpliceOneIds(ws, s, id);
      assert SpliceOne(ws, wi) == SpliceOne(ws, s);
    }
  }

  /** Removing a widget never makes two ids clash. */
  lemma RemoveKeepsIdsUnique(tree: Tree, ci: nat, wi: int)
    requires ci < |tree| && UniqueIds(tree)
    ensures UniqueIds(RemoveAt(tree, ci, wi))
  {
    forall id ensures IdCount(RemoveAt(tree, ci, wi), id) <= 1 {
      RemoveAtIds(tree, ci, wi, id);
    }
  }

  // The page renders the filtered tree, so the positions its buttons report are positions
  // in that tree. The two functions below translate them back to the root tree before
  // editing; RemoveAt and AppendWidget applied to the reported positions directly are what
  // the component does.

  /** Removes the widget shown at position `wi` of the `ci`-th category of the filtered tree. */
  function RemoveShown(tree: Tree, term: string, ci: nat, wi: nat): (r: Tree)
    requires ci < |Filter(tree, term)| && wi < |Filter(tree, term)[ci].widgets|
    ensures |r| == |tree|
  {
    var j := CategorySource(tree, term, ci);
    RemoveAt(tree, j, WidgetSource(tree[j].widgets, term, wi))
  }

  /** The corrected remove loses exactly the widget that was shown at the clicked position. */
  lemma RemoveShownIds(tree: Tree, term: string, ci: nat, wi: nat, id: string)
    requires ci < |Filter(tree, term)| && wi < |Filter(tree, term)[ci].widgets|
    ensures var shown := Filter(tree, term)[ci].widgets[wi];
      IdCount(RemoveShown(tree, term, ci, wi), id) == IdCount(tree, id) - (if shown.id == id then 1 else 0)
  {
    var j := CategorySource(tree, term, ci);
    var ws := tree[j].widgets;
    var k := WidgetSource(ws, term, wi);
    RemoveAtIds(tree, j, k, id);
  }

  /** With unique ids, the shown widget is gone after the corrected remove, and ids stay unique. */
  lemma RemoveShownRemovesShown(tree: Tree, term: string, ci: nat, wi: nat)
    requires ci < |Filter(tree, term)| && wi < |Filter(tree, term)[ci].widgets| && UniqueIds(tree)
    ensures IdCount(RemoveShown(tree, term, ci, wi), Filter(tree, term)[ci].widgets[wi].id) == 0
    ensures UniqueIds(RemoveShown(tree, term, ci, wi))
  {
    var shown := Filter(tree, term)[ci].widgets[wi];
    var j := CategorySource(tree, term, ci);
    var ws := tree[j].widgets;
    var k := WidgetSource(ws, term, wi);
    SpliceOneIds(ws, k, shown.id);
    IdCountUpdate(tree, j, Category(tree[j].name, []), shown.id);
    RemoveShownIds(tree, term, ci, wi, shown.id);
    forall id ensures IdCount(RemoveShown(tree, term, ci, wi), id) <= 1 {
      RemoveShownIds(tree, term, ci, wi, id);
    }
  }

  /** Appends `w` to the category shown at position `ci` of the filtered tree. */
  function AppendToShown(tree: Tree, term: string, ci: nat, w: Widget): (r: Tree)
    requires ci < |Filter(tree, term)|
    ensures |r| == |tree|
  {
    AppendWidget(tree, CategorySource(tree, term, ci), w)
  }

  /** A matching widget added through the corrected add shows up at the end of the category
      that was clicked, which keeps its position; the rest of the view is unchanged. */
  lemma {:induction false} AppendToShownShows(tree: Tree, term: string, ci: nat, w: Widget)
    requires ci < |Filter(tree, term)| && Matches(w, term)
    ensures var f := Filter(tree, term);
      Filter(AppendToShown(tree, term, ci, w), term) == f[ci := Category(f[ci].name, f[ci].widgets + [w])]
  {
    var f := Filter(tree, term);
    var c := tree[0];
    var kept := FilterWidgets(c.widgets, term);
    var head := if |kept| > 0 then [Category(c.name, kept)] else [];
    var r := AppendToShown(tree, term, ci, w);
    assert f == head + Filter(tree[1..], term);
    if |kept| > 0 && ci == 0 {
      var kept' := FilterWidgets(c.widgets + [w], term);
      FilterWidgetsAppend(c.widgets, [w], term);
      assert FilterWidgets([w], term) == [w];
      assert kept' == kept + [w];
      assert r[0] == Category(c.name, c.widgets + [w]) && r[1..] == tree[1..];
      assert Filter(r, term) == [Category(c.name, kept')] + Filter(tree[1..], term);
    } else {
      var ci' := if |kept| > 0 then ci - 1 else ci;
      var rest := Filter(tree[1..], term);
      var x := Category(f[ci].name, f[ci].widgets + [w]);
      assert f[ci] == rest[ci'];
      AppendToShownShows(tree[1..], term, ci', w);
      assert r[0] == c;
      assert r[1..] == AppendToShown(tree[1..], term, ci', w);
      assert Filter(r, term) == head + Filter(r[1..], term);
      assert f[ci := x] == head + rest[ci' := x];
    }
  }
}
