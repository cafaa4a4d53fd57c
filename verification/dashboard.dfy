/** The dashboard component: its state, the search box, the add dialog and the remove
    buttons. Each method that changes the tree or the search term ends by recomputing the
    filtered tree, which is what the component's effect does after every such change. */
module Dashboard {
  import opened Model
  import opened Search
  import opened Edit
  import opened SeedChecks

  /** The type tag the add form starts with and is reset to after an add. */
  const DefaultWidgetType := "bar-chart"

  class DashboardComponent {
    var categories: Tree
    var searchTerm: string
    var filtered: Tree
    var newWidgetName: string
    var newWidgetType: string
    /** The category index the add dialog was opened from; `None` is the source's `null`. */
    var selectedCategory: Option<int>

    /** The rendered tree is the filter of the root tree, and widget ids (the list keys) are unique. */
    ghost predicate Valid()
      reads this
    {
      filtered == Filter(categories, searchTerm) && UniqueIds(categories)
    }

    /** The initial state: the seed tree, no search, every category shown, an empty form. */
    constructor ()
      ensures Valid()
      ensures categories == Seed && searchTerm == "" && filtered == Seed
      ensures newWidgetName == "" && newWidgetType == DefaultWidgetType && selectedCategory == None
    {
      categories := Seed;
      searchTerm := "";
      filtered := Seed;
      newWidgetName := "";
      newWidgetType := DefaultWidgetType;
      selectedCategory := None;
      SeedIdsUnique();
      SeedShownInFull();
    }

    /** Typing in the search box: the tree is re-filtered with the new term. */
    method SetSearchTerm(term: string)
      requires Valid()
      modifies this
      ensures Valid()
      ensures searchTerm == term && filtered == Filter(categories, term)
      ensures categories == old(categories) && newWidgetName == old(newWidgetName)
      ensures newWidgetType == old(newWidgetType) && selectedCategory == old(selectedCategory)
    {
      searchTerm := term;
      filtered := Filter(categories, searchTerm);
    }

    /** Typing in the add dialog's name field. */
    method SetNewWidgetName(name: string)
      modifies this
      ensures old(Valid()) ==> Valid()
      ensures newWidgetName == name
      ensures categories == old(categories) && searchTerm == old(searchTerm) && filtered == old(filtered)
      ensures newWidgetType == old(newWidgetType) && selectedCategory == old(selectedCategory)
    {
      newWidgetName := name;
    }

    /** Choosing a type in the add dialog. */
    method SetNewWidgetType(kind: string)
      modifies this
      ensures old(Valid()) ==> Valid()
      ensures newWidgetType == kind
      ensures categories == old(categories) && searchTerm == old(searchTerm) && filtered == old(filtered)
      ensures newWidgetName == old(newWidgetName) && selectedCategory == old(selectedCategory)
    {
      newWidgetType := kind;
    }

    /** Opening the add dialog of the category at `categoryIndex` of the rendered tree. */
    method SelectCategory(categoryIndex: int)
      modifies this
      ensures old(Valid()) ==> Valid()
      ensures selectedCategory == Some(categoryIndex)
      ensures categories == old(categories) && searchTerm == old(searchTerm) && filtered == old(filtered)
      ensures newWidgetName == old(newWidgetName) && newWidgetType == old(newWidgetType)
    {
      selectedCategory := Some(categoryIndex);
    }

    /** The dialog's add button: it hands the category index recorded when the dialog was
        opened to the add. */
    method ClickAdd(freshId: string) returns (ok: bool)
      requires Valid() && IdCount(categories, freshId) == 0
      modifies this
      ensures Valid()
      ensures ok <==> old(selectedCategory).Some? && 0 <= old(selectedCategory).value < |old(categories)|
      ensures ok ==> categories == AppendWidget(old(categories), old(selectedCategory).value,
        NewWidget(freshId, old(newWidgetName), old(newWidgetType)))
      ensures ok ==> (searchTerm == old(searchTerm) && newWidgetName == ""
        && newWidgetType == DefaultWidgetType && selectedCategory == None)
      ensures !ok ==> unchanged(this)
    {
      ok := AddWidget(selectedCategory, freshId);
    }

    /** The add, as the component does it: the new widget is pushed onto the
        ROOT category at `categoryIndex` and the form is reset. A missing or out-of-range
        index makes the component throw before any state changes, which is `ok == false`
        here. `freshId` stands for the clock-derived id, assumed unused. */
    method AddWidget(categoryIndex: Option<int>, freshId: string) returns (ok: bool)
      requires Valid() && IdCount(categories, freshId) == 0
      modifies this
      ensures Valid()
      ensures ok <==> categoryIndex.Some? && 0 <= categoryIndex.value < |old(categories)|
      ensures ok ==> categories == AppendWidget(old(categories), categoryIndex.value,
        NewWidget(freshId, old(newWidgetName), old(newWidgetType)))
      ensures ok ==> (searchTerm == old(searchTerm) && newWidgetName == ""
        && newWidgetType == DefaultWidgetType && selectedCategory == None)
      ensures !ok ==> unchanged(this)
    {
      if categoryIndex.None? || categoryIndex.value < 0 || categoryIndex.value >= |categories| {
        return false;
      }
      var w := NewWidget(freshId, newWidgetName, newWidgetType);
      AppendKeepsIdsUnique(categories, categoryIndex.value, w);
      categories := AppendWidget(categories, categoryIndex.value, w);
      newWidgetName := "";
      newWidgetType := DefaultWidgetType;
      selectedCategory := None;
      filtered := Filter(categories, searchTerm);
      ok := true;
    }

    /** A widget's remove button, as the component does it: `splice(widgetIndex, 1)` on the
        widgets of the ROOT category at `categoryIndex`. An out-of-range category index
        makes the component throw before any state changes, which is `ok == false` here. */
    method RemoveWidget(categoryIndex: int, widgetIndex: int) returns (ok: bool)
      requires Valid()
      modifies this
      ensures Valid()
      ensures ok <==> 0 <= categoryIndex < |old(categories)|
      ensures ok ==> categories == RemoveAt(old(categories), categoryIndex, widgetIndex)
      ensures ok ==> (searchTerm == old(searchTerm) && newWidgetName == old(newWidgetName)
        && newWidgetType == old(newWidgetType) && selectedCategory == old(selectedCategory))
      ensures !ok ==> unchanged(this)
    {
      if categoryIndex < 0 || categoryIndex >= |categories| {
        return false;
      }
      RemoveKeepsIdsUnique(categories, categoryIndex, widgetIndex);
      categories := RemoveAt(categories, categoryIndex, widgetIndex);
      filtered := Filter(categories, searchTerm);
      ok := true;
    }

    /** The corrected remove button: the clicked position of the rendered tree is
        translated back to the root tree, so the widget removed is the widget shown there. */
    method RemoveShownWidget(categoryIndex: int, widgetIndex: int) returns (ok: bool)
      requires Valid()
      modifies this
      ensures Valid()
      ensures ok <==> 0 <= categoryIndex < |old(filtered)| && 0 <= widgetIndex < |old(filtered)[categoryIndex].widgets|
      ensures ok ==> categories == RemoveShown(old(categories), old(searchTerm), categoryIndex, widgetIndex)
      ensures ok ==> IdCount(categories, old(filtered)[categoryIndex].widgets[widgetIndex].id) == 0
      ensures ok ==> (searchTerm == old(searchTerm) && newWidgetName == old(newWidgetName)
        && newWidgetType == old(newWidgetType) && selectedCategory == old(selectedCategory))
      ensures !ok ==> unchanged(this)
    {
      if categoryIndex < 0 || categoryIndex >= |filtered| || widgetIndex < 0
        || widgetIndex >= |filtered[categoryIndex].widgets| {
        return false;
      }
      RemoveShownRemovesShown(categories, searchTerm, categoryIndex, widgetIndex);
      categories := RemoveShown(categories, searchTerm, categoryIndex, widgetIndex);
      filtered := Filter(categories, searchTerm);
      ok := true;
    }

    /** The corrected add button: the new widget goes to the root category behind the
        rendered category the dialog was opened from. */
    method AddWidgetToShown(categoryIndex: Option<int>, freshId: string) returns (ok: bool)
      requires Valid() && IdCount(categories, freshId) == 0
      modifies this
      ensures Valid()
      ensures ok <==> categoryIndex.Some? && 0 <= categoryIndex.value < |old(filtered)|
      ensures ok ==> categories == AppendToShown(old(categories), old(searchTerm), categoryIndex.value,
        NewWidget(freshId, old(newWidgetName), old(newWidgetType)))
      ensures ok ==> (searchTerm == old(searchTerm) && newWidgetName == ""
        && newWidgetType == DefaultWidgetType && selectedCategory == None)
      ensures !ok ==> unchanged(this)
    {
      if categoryIndex.None? || categoryIndex.value < 0 || categoryIndex.value >= |filtered| {
        return false;
      }
      var w := NewWidget(freshId, newWidgetName, newWidgetType);
      var target := CategorySource(categories, searchTerm, categoryIndex.value);
      AppendKeepsIdsUnique(categories, target, w);
      categories := AppendToShown(categories, searchTerm, categoryIndex.value, w);
      newWidgetName := "";
      newWidgetType := DefaultWidgetType;
      selectedCategory := None;
      filtered := Filter(categories, searchTerm);
      ok := true;
    }

    /** The corrected dialog button: the recorded index goes to the corrected add. */
    method ClickAddToShown(freshId: string) returns (ok: bool)
      requires Valid() && IdCount(categories, freshId) == 0
      modifies this
      ensures Valid()
      ensures ok <==> old(selectedCategory).Some? && 0 <= old(selectedCategory).value < |old(filtered)|
      ensures ok ==> categories == AppendToShown(old(categories), old(searchTerm), old(selectedCategory).value,
        NewWidget(freshId, old(newWidgetName), old(newWidgetType)))
      ensures ok ==> (searchTerm == old(searchTerm) && newWidgetName == ""
        && newWidgetType == DefaultWidgetType && selectedCategory == None)
      ensures !ok ==> unchanged(this)
    {
      ok := AddWidgetToShown(selectedCategory, freshId);
    }
  }

  /** A session on a fresh dashboard: search "workload", open the add dialog of the first
      category shown ("CWPP Dashboard"), type a name and confirm. The component puts the
      new widget into "CNAPP Dashboard", the first root category. */
  method AddFromFilteredDialog(term: string, name: string, freshId: string)
    returns (c: DashboardComponent, ok: bool)
    requires term == "workload" && IdCount(Seed, freshId) == 0
    ensures Filter(Seed, term) == [Category("CWPP Dashboard", [WorkloadAlerts])]
    ensures ok && c.Valid()
    ensures c.categories == AppendWidget(Seed, 0, NewWidget(freshId, name, DefaultWidgetType))
    ensures c.categories[0].name == "CNAPP Dashboard" && c.categories[1] == Seed[1]
  {
    c := new DashboardComponent();
    c.SetSearchTerm(term);
    SearchWorkload(term);
    c.SelectCategory(0);
    c.SetNewWidgetName(name);
    ok := c.ClickAdd(freshId);
  }

  /** The same session with the corrected dialog button: the new widget lands in
      "CWPP Dashboard", the category whose dialog was opened. */
  method AddFromFilteredDialogCorrected(term: string, name: string, freshId: string)
    returns (c: DashboardComponent, ok: bool)
    requires term == "workload" && IdCount(Seed, freshId) == 0
    ensures Filter(Seed, term) == [Category("CWPP Dashboard", [WorkloadAlerts])]
    ensures ok && c.Valid()
    ensures c.categories == AppendWidget(Seed, 1, NewWidget(freshId, name, DefaultWidgetType))
    ensures c.categories[1].name == "CWPP Dashboard" && c.categories[0] == Seed[0]
  {
    c := new DashboardComponent();
    c.SetSearchTerm(term);
    ShownWorkloadSource(term);
    c.SelectCategory(0);
    c.SetNewWidgetName(name);
    ok := c.ClickAddToShown(freshId);
  }
}
