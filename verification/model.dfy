/** The dashboard's view-model: categories holding widgets, each widget a typed chart
    with ordered data entries, and the seed tree the dashboard starts from. */
module Model {

  datatype Option<+T> = None | Some(value: T)

  /** One chart card. `kind` is the source's `type` tag, kept as the raw string so that
      tags outside the four chart kinds stay representable. `data` lists the entries of
      the data object in iteration order. */
  datatype Widget = Widget(id: string, name: string, kind: string, data: seq<(string, int)>)

  datatype Category = Category(name: string, widgets: seq<Widget>)

  /** The root tree: categories in display order. */
  type Tree = seq<Category>

  /** How many widgets of the list carry `id`. */
  function CountIn(ws: seq<Widget>, id: string): nat {
    if ws == [] then 0 else (if ws[0].id == id then 1 else 0) + CountIn(ws[1..], id)
  }

  /** How many widgets of the whole tree carry `id`. */
  function IdCount(tree: Tree, id: string): nat {
    if tree == [] then 0 else CountIn(tree[0].widgets, id) + IdCount(tree[1..], id)
  }

  /** No two widgets of the tree share an id. */
  ghost predicate UniqueIds(tree: Tree) {
    forall id :: IdCount(tree, id) <= 1
  }

  /** Counts over concatenated widget lists add up. */
  lemma {:induction false} CountInConcat(a: seq<Widget>, b: seq<Widget>, id: string)
    ensures CountIn(a + b, id) == CountIn(a, id) + CountIn(b, id)
  {
    if a == [] {
      assert a + b == b;
    } else {
      assert (a + b)[1..] == a[1..] + b;
      CountInConcat(a[1..], b, id);
    }
  }

  /** Replacing one category changes the tree's id counts by exactly that category's counts. */
  lemma {:induction false} IdCountUpdate(tree: Tree, ci: nat, c: Category, id: string)
    requires ci < |tree|
    ensures IdCount(tree[ci := c], id) + CountIn(tree[ci].widgets, id)
         == IdCount(tree, id) + CountIn(c.widgets, id)
  {
    var t := tree[ci := c];
    if ci == 0 {
      assert t[1..] == tree[1..];
    } else {
      assert t[1..] == tree[1..][ci - 1 := c];
      IdCountUpdate(tree[1..], ci - 1, c, id);
    }
  }

  // The seed widgets, in the order the seed tree lists them.
  const CloudAccounts := Widget("cloud-accounts", "Cloud Accounts", "pie-chart",
    [("Connected", 2), ("Not Connected", 0)])
  const CloudAccountRisk := Widget("cloud-account-risk-assessment", "Cloud Account Risk Assessment",
    "donut-chart", [("Failed", 1589), ("Warning", 681), ("Not Available", 386), ("Passed", 7253)])
  const NamespaceAlerts := Widget("top-5-namespace-specific-alerts", "Top 5 Namespace Specific Alerts",
    "bar-chart", [("Namespace 1", 5), ("Namespace 2", 4), ("Namespace 3", 3), ("Namespace 4", 2), ("Namespace 5", 1)])
  const WorkloadAlerts := Widget("workload-alerts", "Workload Alerts", "bar-chart",
    [("Critical", 10), ("High", 20), ("Medium", 30), ("Low", 40)])
  const ImageRisk := Widget("image-risk-assessment", "Image Risk Assessment", "bar-chart",
    [("Critical", 5), ("High", 150), ("Medium", 300), ("Low", 500)])
  const ImageSecurity := Widget("image-security-issues", "Image Security Issues", "stacked-bar-chart",
    [("Critical", 2), ("High", 2), ("Medium", 5), ("Low", 10)])

  /** The seed tree the dashboard starts from. */
  const Seed: Tree := [
    Category("CNAPP Dashboard", [CloudAccounts, CloudAccountRisk]),
    Category("CWPP Dashboard", [NamespaceAlerts, WorkloadAlerts]),
    Category("Registry Scan", [ImageRisk, ImageSecurity])
  ]
}
