# Dashboard widget model

This project models the `DashboardComponent` of the dashboard app. It shows a tree of
categories. Each category holds chart widgets. A search box filters the widgets by
case-insensitive name match and hides the categories that end up empty. A dialog adds a
widget with a name and a chart type to a category, and every widget has a remove button.
Each widget is drawn by a dispatch on its type tag: pie, donut, bar, stacked bar, or an
"unsupported" fallback.

Modules:

- `Text`: ASCII lower-casing and the `includes` substring test.
- `Model`: widgets, categories, the root tree, id counting and the seed tree.
- `Search`: the filter that the component's effect recomputes. It is stated both as the
  source's `map` then `filter`, and as one fused recursion. It also maps positions of the
  filtered tree back to the root tree.
- `Charts`: the type dispatch. It produces a descriptor of what is handed to the charting
  library.
- `Edit`: the two tree edits as values:
  - push onto a category;
  - `splice(i, 1)` with JavaScript's start resolution.

  It also holds the corrected edits described under Findings.
- `SeedChecks`: concrete facts about the seed tree, including the counterexamples for the
  findings.
- `Dashboard`: the component as a class. Its fields are the component's state variables.
  Each method that changes the tree or the search term ends by recomputing `filtered`,
  which is the component's effect on `[categories, searchTerm]`.

## Model

| member | source | states |
|---|---|---|
| Text.LowerChar | dashboard/src/components/dashboard.tsx:158 | the lowered character is never an upper-case letter; a non-letter is kept; an upper-case letter moves up by 32 code points, to its lower-case form |
| Text.Lower | dashboard/src/components/dashboard.tsx:158 | `toLowerCase`: same length; no character of the result is upper-case; an upper-case letter becomes its lower-case form (32 code points up) and every other character is kept |
| Text.LowerIdempotent | dashboard/src/components/dashboard.tsx:158 | lower-casing an already lower-cased string changes nothing |
| Text.Includes | dashboard/src/components/dashboard.tsx:158 | `includes`, scanning the name from the left; its meaning is stated by Text.IncludesOccurs |
| Text.IncludesOccurs | dashboard/src/components/dashboard.tsx:158 | `includes` holds exactly when the term occurs at some position of the name |
| Text.IncludesFirstChar | dashboard/src/components/dashboard.tsx:158 | a non-empty term can only be found in a name containing its first character |
| Text.IncludesEmpty | dashboard/src/components/dashboard.tsx:158 | the empty term is found in every name |
| Model.CountInConcat | dashboard/src/components/dashboard.tsx:172 | id counts over two concatenated widget lists add up |
| Model.IdCountUpdate | dashboard/src/components/dashboard.tsx:171-172 | replacing one category changes the tree's id counts by exactly the difference between the old and new category |
| Search.FilterWidgets | dashboard/src/components/dashboard.tsx:157-159 | the kept widget list is never longer than the category's list |
| Search.Matches | dashboard/src/components/dashboard.tsx:158 | the search test on one widget; the empty term matches every widget |
| Search.MatchesLowerTerm | dashboard/src/components/dashboard.tsx:158 | the search is case-insensitive in the term: lower-casing the term first finds the same widgets |
| Search.FilterWidgetsMembers | dashboard/src/components/dashboard.tsx:157-159 | a widget is kept exactly when it is in the category and its lower-cased name includes the lower-cased term |
| Search.Narrow | dashboard/src/components/dashboard.tsx:155-159 | the `map` step keeps every category, in order, with its name, narrowed to its matching widgets |
| Search.NonEmpty | dashboard/src/components/dashboard.tsx:160 | the `filter` step never lengthens the tree |
| Search.NonEmptyMembers | dashboard/src/components/dashboard.tsx:160 | a category survives the `filter` step exactly when it holds at least one widget |
| Search.Filter | dashboard/src/components/dashboard.tsx:154-162 | the filtered tree is never longer than the root tree |
| Search.FilterIsNarrowThenNonEmpty | dashboard/src/components/dashboard.tsx:155-160 | the fused filter equals the source's `map` followed by `filter` |
| Search.FilterSound | dashboard/src/components/dashboard.tsx:155-160 | every shown category holds a widget, and every shown widget matches the term |
| Search.FilterWidgetsAppend | dashboard/src/components/dashboard.tsx:157-159 | the widget filter distributes over concatenation, so relative order is kept |
| Search.FilterWidgetsAllMatch | dashboard/src/components/dashboard.tsx:157-159 | a list whose widgets all match is kept whole |
| Search.FilterKeepsCategory | dashboard/src/components/dashboard.tsx:160 | a root category appears, narrowed, in the filtered tree exactly when one of its widgets matches |
| Search.FilterAppend | dashboard/src/components/dashboard.tsx:155-160 | the filter distributes over concatenation of trees, so surviving categories keep root order |
| Search.FilterFixesMatchingTree | dashboard/src/components/dashboard.tsx:155-160 | a tree of non-empty categories of matching widgets is a fixed point |
| Search.FilterHidesNothing | dashboard/src/components/dashboard.tsx:155-160 | the filtered tree is the root tree exactly when no root category is empty and every widget matches the term |
| Search.FilterIdempotent | dashboard/src/components/dashboard.tsx:155-160 | filtering the filtered tree again with the same term changes nothing |
| Search.FilterEmptyTerm | dashboard/src/components/dashboard.tsx:158-160 | with the empty term only already-empty categories are dropped; a tree without empty categories comes back unchanged |
| Search.WidgetSource | dashboard/src/components/dashboard.tsx:157-159 | every kept widget is the widget at a definite position of the root category (it matches, by FilterWidgetsMembers) |
| Search.WidgetSourceIncreasing | dashboard/src/components/dashboard.tsx:157-159 | kept widgets appear in root order |
| Search.WidgetSourceOnto | dashboard/src/components/dashboard.tsx:157-159 | every matching root widget is kept at some filtered position |
| Search.CategorySource | dashboard/src/components/dashboard.tsx:155-160 | every shown category is a root category, with its name, narrowed to its matching widgets |
| Search.CategorySourceIncreasing | dashboard/src/components/dashboard.tsx:160 | shown categories appear in root order |
| Charts.Render | dashboard/src/components/dashboard.tsx:99-143 | pie/donut tags give a pie, bar/stacked-bar give bars, any other tag the fallback; one slice or bar per data entry in order; slice `i` is coloured `COLORS[i % 4]`; inner radius 60 for donut and 0 for pie; outer radius 80; bar fill `#8884d8` |
| Charts.Slices | dashboard/src/components/dashboard.tsx:103-119 | one slice per data entry, with the entry's name and value in order; slice `i` is filled with `COLORS[i % 4]` |
| Charts.Bars | dashboard/src/components/dashboard.tsx:128 | one bar per data entry, with the entry's name and value in order |
| Charts.PaletteCycles | dashboard/src/components/dashboard.tsx:118 | adjacent slices never share a colour, and colours repeat every four slices |
| Charts.PieTotal | dashboard/src/components/dashboard.tsx:103 | the slices carry the whole of the widget's data: their values add up to the data total |
| Charts.SlicesTotalFrom | dashboard/src/components/dashboard.tsx:103 | the same sum, for every suffix of the data |
| Charts.StackedBarIsBar | dashboard/src/components/dashboard.tsx:126-137 | a stacked bar is drawn exactly as a plain bar |
| Charts.DonutIsPieWithHole | dashboard/src/components/dashboard.tsx:101-124 | a donut is the pie over the same data with inner radius 60 |
| Edit.NewWidget | dashboard/src/components/dashboard.tsx:165-170 | the new widget carries the supplied id, the form's name and type, and no data |
| Edit.AppendWidget | dashboard/src/components/dashboard.tsx:171-172 | the target category keeps its name and gains the new widget at the end; every other category is unchanged |
| Edit.AppendWidgetIds | dashboard/src/components/dashboard.tsx:172 | the add creates exactly one widget with the new id and loses none |
| Edit.AppendKeepsIdsUnique | dashboard/src/components/dashboard.tsx:165-172 | an add under an unused id keeps widget ids (the list keys) unique |
| Edit.NarrowAfterAppend | dashboard/src/components/dashboard.tsx:154-162 | after an add, the target's narrowed widgets are the old ones plus the new widget if it matches; other categories are untouched |
| Edit.SpliceStart | dashboard/src/components/dashboard.tsx:181 | a start inside the list is used as is; a negative start counts back from the end, and one reaching before the beginning resolves to 0; a start past the end resolves to the end |
| Edit.SpliceOne | dashboard/src/components/dashboard.tsx:181 | when the start resolves inside the list, one widget goes, earlier widgets keep their positions and later ones shift down by one; a start that resolves to the end (any start at or past it) removes nothing |
| Edit.SpliceOneIds | dashboard/src/components/dashboard.tsx:181 | splicing at a valid index loses exactly the widget at that index |
| Edit.RemoveAt | dashboard/src/components/dashboard.tsx:179-183 | only the target category changes, by `splice(widgetIndex, 1)` |
| Edit.RemoveAtIds | dashboard/src/components/dashboard.tsx:181 | the remove loses exactly the widget at the resolved start, or nothing |
| Edit.RemoveKeepsIdsUnique | dashboard/src/components/dashboard.tsx:179-183 | a remove keeps ids unique |
| Edit.RemoveShown | dashboard/src/components/dashboard.tsx:224 | the corrected remove keeps the tree's length |
| Edit.RemoveShownIds | dashboard/src/components/dashboard.tsx:224 | the corrected remove loses exactly the widget shown at the clicked position |
| Edit.RemoveShownRemovesShown | dashboard/src/components/dashboard.tsx:224 | with unique ids the clicked widget is gone afterwards, and ids stay unique |
| Edit.AppendToShown | dashboard/src/components/dashboard.tsx:172 | the corrected add keeps the tree's length |
| Edit.AppendToShownShows | dashboard/src/components/dashboard.tsx:172 | a matching widget added from a dialog appears at the end of that dialog's category, at the same filtered position; the rest of the view is unchanged |
| SeedChecks.MissesWorkload | dashboard/src/components/dashboard.tsx:158 | a name without `w`/`W` never matches "workload" |
| SeedChecks.WorkloadAlertsMatches | dashboard/src/components/dashboard.tsx:58 | "Workload Alerts" matches "workload" |
| SeedChecks.NarrowCnappWorkload | dashboard/src/components/dashboard.tsx:16-40 | searching "workload" keeps nothing of CNAPP |
| SeedChecks.NarrowCwppWorkload | dashboard/src/components/dashboard.tsx:41-68 | searching "workload" keeps only "Workload Alerts" of CWPP |
| SeedChecks.NarrowRegistryWorkload | dashboard/src/components/dashboard.tsx:69-95 | searching "workload" keeps nothing of the registry scan |
| SeedChecks.PairFiltered | dashboard/src/components/dashboard.tsx:157-159 | a two-widget category keeps its matching widgets in order |
| SeedChecks.SearchWorkload | dashboard/src/components/dashboard.tsx:154-162 | on the seed tree, "workload" shows only CWPP holding only "Workload Alerts" |
| SeedChecks.PairIds | dashboard/src/components/dashboard.tsx:14-97 | two widgets with different ids hold each id at most once |
| SeedChecks.SeedIdsUnique | dashboard/src/components/dashboard.tsx:14-97 | the six seed ids are distinct |
| SeedChecks.SeedShownInFull | dashboard/src/components/dashboard.tsx:149 | the initial filtered tree, equal to the seed tree, is what the effect computes for the empty term |
| SeedChecks.SeedDonut | dashboard/src/components/dashboard.tsx:101-124 | the seed donut renders its four entries, in order, coloured with the four palette colours in order, around a 60-pixel hole, totalling 9909 |
| SeedChecks.SecondOfPairSource | dashboard/src/components/dashboard.tsx:217 | when only the second of two widgets is kept, filtered position 0 is root position 1 |
| SeedChecks.FirstCategorySource | dashboard/src/components/dashboard.tsx:213 | when the first category keeps nothing and the second something, filtered category 0 is root category 1 |
| SeedChecks.ShownWorkloadSource | dashboard/src/components/dashboard.tsx:213-224 | while "workload" is searched, the widget shown at (0, 0) sits at root position (1, 1) |
| SeedChecks.RemoveOnFilteredViewHitsWrongWidget | dashboard/src/components/dashboard.tsx:224 | the component's remove at the clicked (0, 0) deletes "Cloud Accounts" and leaves the clicked "Workload Alerts" |
| SeedChecks.RemoveShownOnFilteredView | dashboard/src/components/dashboard.tsx:224 | the corrected remove at (0, 0) deletes "Workload Alerts" and nothing else |
| SeedChecks.AddOnFilteredViewHitsWrongCategory | dashboard/src/components/dashboard.tsx:236 | the component's add from the first shown dialog (CWPP) puts the widget into CNAPP |
| SeedChecks.RemoveAfterEmptyingHitsHiddenCategory | dashboard/src/components/dashboard.tsx:181 | with no search, after both CNAPP widgets are removed, CNAPP is hidden and "Top 5 Namespace Specific Alerts" is shown at (0, 0); the component's remove at (0, 0) then removes nothing |
| SeedChecks.AddAfterEmptyingHitsHiddenCategory | dashboard/src/components/dashboard.tsx:172 | in the same state the first shown dialog is CWPP's, and the component's add at 0 lands in the hidden CNAPP |
| Dashboard.DashboardComponent.constructor | dashboard/src/components/dashboard.tsx:146-152 | initial state: seed tree, empty term, every category shown, form `("", "bar-chart", null)` |
| Dashboard.DashboardComponent.SetSearchTerm | dashboard/src/components/dashboard.tsx:197 | the new term is stored and the view re-filtered; nothing else changes |
| Dashboard.DashboardComponent.SetNewWidgetName | dashboard/src/components/dashboard.tsx:254 | only the form's name changes; the view and id invariant is kept |
| Dashboard.DashboardComponent.SetNewWidgetType | dashboard/src/components/dashboard.tsx:264 | only the form's type changes; the view and id invariant is kept |
| Dashboard.DashboardComponent.SelectCategory | dashboard/src/components/dashboard.tsx:236 | only the selected category changes; the view and id invariant is kept |
| Dashboard.DashboardComponent.ClickAdd | dashboard/src/components/dashboard.tsx:278 | the dialog's button adds with the category index recorded when the dialog was opened; no recorded index changes nothing |
| Dashboard.DashboardComponent.AddWidget | dashboard/src/components/dashboard.tsx:164-177 | with a valid root index the widget `(id, name, type, {})` is appended there and the form reset; a null or out-of-range index changes nothing; the view stays the filter of the tree and ids stay unique |
| Dashboard.DashboardComponent.RemoveWidget | dashboard/src/components/dashboard.tsx:179-183 | with a valid root category index the category is spliced at the widget index; otherwise nothing changes; view and id invariants kept |
| Dashboard.DashboardComponent.RemoveShownWidget | dashboard/src/components/dashboard.tsx:224 | corrected remove: a valid shown position removes exactly the shown widget's id from the tree |
| Dashboard.DashboardComponent.AddWidgetToShown | dashboard/src/components/dashboard.tsx:172 | corrected add: the widget goes to the root category behind the shown category the dialog belongs to |
| Dashboard.DashboardComponent.ClickAddToShown | dashboard/src/components/dashboard.tsx:278 | the corrected dialog button hands the recorded index to the corrected add |
| Dashboard.AddFromFilteredDialog | dashboard/src/components/dashboard.tsx:236 | a session through the class: search "workload", open the dialog of the first shown category (CWPP), confirm; the new widget lands in CNAPP |
| Dashboard.AddFromFilteredDialogCorrected | dashboard/src/components/dashboard.tsx:236 | the same session with the corrected button: the new widget lands in CWPP |

## Left out

- The `lastDays` selector (lines 148, 200-210) holds UI state and affects no data.
- JSX markup, styling, the recharts components and the UI primitives are left out. `Charts.Render` yields a descriptor: the slices or bars, the radii and the fills.
- Widget ids: the source builds them as `new-widget-` plus `Date.now()`. The model takes the id as a parameter and requires it to be unused. Two adds within the same millisecond would share an id; that case is not modelled.
- Lower-casing is ASCII-only. Unicode case mapping is not modelled.
- Aliasing is not modelled. `[...categories]` is a shallow copy, so `push` and `splice` also mutate the widget arrays of the previous state. The model replaces the tree as a value.
- Reactivity is simplified. The component renders once with a stale filtered tree before the effect re-filters. Each model method re-filters as its last step.
- Data entries are kept in the order written in the seed. JavaScript's `Object.entries` puts integer-like keys first; the seed has none.
- Numbers are unbounded integers, not floating point.
- Dashboard.DashboardComponent.AddWidget: the source throws a TypeError for a null or out-of-range index. The model returns `ok == false` with the state unchanged. That matches the source, where the throw comes before any setter. One such case: clicking the dialog's add button a second time after `selectedCategory` was reset to null (`Dashboard.DashboardComponent.ClickAdd` with `None`).
- Dashboard.DashboardComponent.RemoveWidget: the source throws for an out-of-range category index. The model returns `ok == false` with the state unchanged.
- A non-integer category index is not modelled: the UI passes only integer positions.

## Findings

| source | as written | input that shows it | evidently intended | confidence | as-written member | corrected member |
|---|---|---|---|---|---|---|
| dashboard/src/components/dashboard.tsx:224 | the remove button passes its position in the filtered tree, and `removeWidget` uses it as a position in the root tree (line 181) | seed tree, search "workload"; click remove on the only shown widget, "Workload Alerts", at (0, 0). Also with no search: remove both CNAPP widgets, then click remove on "Top 5 Namespace Specific Alerts", shown at (0, 0); nothing is removed (SeedChecks.RemoveAfterEmptyingHitsHiddenCategory) | the clicked widget is removed | high (not executed) | SeedChecks.RemoveOnFilteredViewHitsWrongWidget | Edit.RemoveShownRemovesShown |
| dashboard/src/components/dashboard.tsx:236 | the dialog records the filtered category position, and `addWidget` uses it as a root position (line 172) | seed tree, search "workload"; add from the dialog of "CWPP Dashboard", shown at position 0. Also with no search: remove both CNAPP widgets, then add from the dialog of "CWPP Dashboard", now shown at position 0; the widget goes to the hidden CNAPP (SeedChecks.AddAfterEmptyingHitsHiddenCategory) | the widget goes to "CWPP Dashboard" | high (not executed) | Dashboard.AddFromFilteredDialog | Edit.AppendToShownShows |

The two index spaces coincide exactly when the filter hides nothing: no root category is empty and every widget matches the term (`Search.FilterHidesNothing`). This always holds for the empty term over a tree with no empty root category (`Search.FilterEmptyTerm`); `SeedChecks.SeedShownInFull` shows it for the seed. They differ as soon as a search hides a widget or a category, or a root category becomes empty. `Dashboard.DashboardComponent.RemoveWidget` and `AddWidget` model the code as written. `ClickAdd` is the dialog button that hands the recorded index to `AddWidget`. `RemoveShownWidget`, `AddWidgetToShown` and `ClickAddToShown` use the corrected translation through `Search.CategorySource` and `Search.WidgetSource`.
