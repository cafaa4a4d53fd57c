/** The widget renderer: a pure dispatch on the widget's type tag that produces the
    descriptor handed to the charting library. */
module Charts {
  import opened Model

  /** The slice palette, cycled by slice position. */
  const Palette: seq<string> := ["#0088FE", "#00C49F", "#FFBB28", "#FF8042"]

  /** Fill of the bar series (and the pie's default fill, which the slices override). */
  const SeriesFill := "#8884d8"

  const DonutHole := 60
  const OuterRadius := 80

  datatype Slice = Slice(name: string, value: int, fill: string)
  datatype Bar = Bar(name: string, value: int)

  /** What the renderer hands to the charting library. */
  datatype Chart =
    | PieChart(slices: seq<Slice>, innerRadius: nat, outerRadius: nat)
    | BarChart(bars: seq<Bar>, fill: string)
    | Unsupported

  predicate IsPieKind(kind: string) {
    kind == "pie-chart" || kind == "donut-chart"
  }

  predicate IsBarKind(kind: string) {
    kind == "bar-chart" || kind == "stacked-bar-chart"
  }

  /** The data entries in order, slice `i` filled with palette colour `i mod 4`. */
  function Slices(data: seq<(string, int)>): (r: seq<Slice>)
    ensures |r| == |data|
    ensures forall i :: 0 <= i < |data| ==> (r[i].name, r[i].value) == data[i] && r[i].fill == Palette[i % 4]
  {
    seq(|data|, i requires 0 <= i < |data| => Slice(data[i].0, data[i].1, Palette[i % |Palette|]))
  }

  /** The data entries in order, one bar each. */
  function Bars(data: seq<(string, int)>): (r: seq<Bar>)
    ensures |r| == |data|
    ensures forall i :: 0 <= i < |data| ==> (r[i].name, r[i].value) == data[i]
  {
    seq(|data|, i requires 0 <= i < |data| => Bar(data[i].0, data[i].1))
  }

  /** The type dispatch of one widget. */
  function Render(w: Widget): (r: Chart)
    ensures r.PieChart? <==> IsPieKind(w.kind)
    ensures r.BarChart? <==> IsBarKind(w.kind)
    ensures r.Unsupported? <==> !IsPieKind(w.kind) && !IsBarKind(w.kind)
    ensures r.PieChart? ==> r.innerRadius == (if w.kind == "donut-chart" then DonutHole else 0)
    ensures r.PieChart? ==> r.outerRadius == OuterRadius && |r.slices| == |w.data|
    ensures r.PieChart? ==> forall i :: 0 <= i < |w.data| ==>
      r.slices[i] == Slice(w.data[i].0, w.data[i].1, Palette[i % 4])
    ensures r.BarChart? ==> r.fill == SeriesFill && |r.bars| == |w.data|
    ensures r.BarChart? ==> forall i :: 0 <= i < |w.data| ==> r.bars[i] == Bar(w.data[i].0, w.data[i].1)
  {
    match w.kind
    case "pie-chart" => PieChart(Slices(w.data), 0, OuterRadius)
    case "donut-chart" => PieChart(Slices(w.data), DonutHole, OuterRadius)
    case "bar-chart" => BarChart(Bars(w.data), SeriesFill)
    case "stacked-bar-chart" => BarChart(Bars(w.data), SeriesFill)
    case _ => Unsupported
  }

  /** Sum of a list of data values. */
  function DataTotal(data: seq<(string, int)>): int {
    if data == [] then 0 else data[0].1 + DataTotal(data[1..])
  }

  /** Sum of a pie's slice values. */
  function SliceTotal(slices: seq<Slice>): int {
    if slices == [] then 0 else slices[0].value + SliceTotal(slices[1..])
  }

  /** Consecutive slices never share a colour, and the colours repeat every four slices. */
  lemma {:induction false} PaletteCycles(data: seq<(string, int)>, i: nat)
    requires i + 1 < |data|
    ensures Slices(data)[i].fill != Slices(data)[i + 1].fill
    ensures i + 4 < |data| ==> Slices(data)[i].fill == Slices(data)[i + 4].fill
  {
  }

  /** The slices of a pie add up to the total of the widget's data. */
  lemma {:induction false} PieTotal(data: seq<(string, int)>)
    ensures SliceTotal(Slices(data)) == DataTotal(data)
  {
    SlicesTotalFrom(data, 0);
  }

  lemma {:induction false} SlicesTotalFrom(data: seq<(string, int)>, k: nat)
    requires k <= |data|
    ensures SliceTotal(Slices(data)[k..]) == DataTotal(data[k..])
    decreases |data| - k
  {
    if k < |data| {
      SlicesTotalFrom(data, k + 1);
      assert Slices(data)[k..][1..] == Slices(data)[k + 1..];
      assert data[k..][1..] == data[k + 1..];
    }
  }

  /** The stacked-bar tag renders exactly as the plain bar tag. */
  lemma StackedBarIsBar(w: Widget)
    requires w.kind == "stacked-bar-chart"
    ensures Render(w) == Render(w.(kind := "bar-chart"))
  {
  }

  /** A pie and a donut over the same data differ only in the inner radius. */
  lemma DonutIsPieWithHole(w: Widget)
    requires w.kind == "donut-chart"
    ensures var pie := Render(w.(kind := "pie-chart"));
      pie.PieChart? && pie.innerRadius == 0 && Render(w) == pie.(innerRadius := DonutHole)
  {
  }
}
