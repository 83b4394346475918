/**
  The self-contained chart component (`chart.tsx`), which carries its own
  copies of the map updaters and of the projection instead of calling the
  hook and the transform module. The copied code is the same as the shared
  code; the reconciliation, the `set` and the dataset chain are re-written
  here as walks and proved equal to the shared definitions, and the label
  expression and the dataset callback are stated in terms of them. Its
  palette is a concrete list of 8 colours.
 */
module InlineChart {
  import opened Common
  import opened PopulationTypes
  import opened Selection
  import opened ChartData
  import opened ChartTransform

  /** The component's `COLORS`. */
  const Colors: seq<string> := [
    "rgb(255, 99, 132)",
    "rgb(53, 162, 235)",
    "rgb(75, 192, 192)",
    "rgb(255, 159, 64)",
    "rgb(153, 102, 255)",
    "rgb(255, 205, 86)",
    "rgb(201, 203, 207)",
    "rgb(54, 162, 235)"
  ]

  /** A dataset as handed to the line chart, with its border colour drawn
      from `Colors`. */
  datatype ColoredDataset = ColoredDataset(legend: string, values: seq<int>, borderColor: string)

  /** A dataset painted with the component's palette. */
  function Paint(d: Dataset): ColoredDataset
  {
    ColoredDataset(d.legend, d.values, Colour(Colors, d).value)
  }

  /** Painting a list of datasets, one by one. */
  function PaintAll(ds: seq<Dataset>): (r: seq<ColoredDataset>)
    ensures |r| == |ds|
    ensures forall k :: 0 <= k < |ds| ==> r[k] == Paint(ds[k])
  {
    MapSeq(Paint, ds)
  }

  /** The component's reconciliation effect: walk the entries of the copied
      map and keep those whose code is in the selected set. (Deleting the
      current entry while iterating a JavaScript `Map` still visits every
      other entry, so the walk sees each entry once.) */
  method InlineReconcile(prev: DataMap, selected: seq<SelectedPrefecture>) returns (next: DataMap)
    ensures next == Reconcile(prev, selected)
  {
    var selectedCodes := Codes(selected);
    next := [];
    var i := 0;
    while i < |prev|
      invariant 0 <= i <= |prev|
      invariant next == Reconcile(prev[..i], selected)
    {
      ReconcileSnoc(prev, i, selected);
      if prev[i].key in selectedCodes {
        next := next + [prev[i]];
      }
      i := i + 1;
    }
    assert prev[..|prev|] == prev;
  }

  /** The component's load callback: `set` on a copy of the map, found by a
      walk over the keys. */
  method InlineLoad(prev: DataMap, prefCode: int, prefName: string, data: Option<Composition>) returns (next: DataMap)
    ensures next == Load(prev, prefCode, prefName, data)
  {
    var i := 0;
    while i < |prev| && prev[i].key != prefCode
      invariant 0 <= i <= |prev|
      invariant forall j :: 0 <= j < i ==> prev[j].key != prefCode
    {
      i := i + 1;
    }
    if i < |prev| {
      LoadExisting(prev, i, prefName, data);
      next := prev[i := Entry(prefCode, Value(prefName, data))];
    } else {
      InKeys(prev, prefCode);
      LoadNew(prev, prefCode, prefName, data);
      next := prev + [Entry(prefCode, Value(prefName, data))];
    }
  }

  /** The dataset the component builds for an item whose payload has the
      category, when the item is the `index`-th with data. */
  function InlineDataset(item: Item, category: Category, index: nat): (d: ColoredDataset)
    requires Emits(item, category)
    ensures d == Paint(DatasetFor(item, category, index))
  {
    var found := FindSeries(item.data.value.series, Label(category));
    ColoredDataset(item.prefName, Values(found.value.points), Colors[index % |Colors|])
  }

  /** One more item of the walk: the count of items with data grows when it
      has data, and the painted chain grows by its dataset when it emits. */
  lemma {:induction false} InlineDatasetsStep(list: seq<Item>, category: Category, i: nat)
    requires i < |list|
    ensures CountWithData(list[..i + 1]) == CountWithData(list[..i]) + (if list[i].data.Some? then 1 else 0)
    ensures PaintAll(Pipeline(list[..i + 1], category, 0))
         == PaintAll(Pipeline(list[..i], category, 0))
            + (if Emits(list[i], category) then [InlineDataset(list[i], category, CountWithData(list[..i]))] else [])
  {
    var item, index := list[i], CountWithData(list[..i]);
    assert CountWithData(list[..i + 1]) == index + (if item.data.Some? then 1 else 0) by {
      assert list[..i + 1] == list[..i] + [item];
      CountWithDataAppend(list[..i], [item]);
    }
    var before := Pipeline(list[..i], category, 0);
    var extra := if Emits(item, category) then [DatasetFor(item, category, index)] else [];
    var painted := if Emits(item, category) then [InlineDataset(item, category, index)] else [];
    assert Pipeline(list[..i + 1], category, 0) == before + extra by {
      PipelinePrefixStep(list, category, i + 1);
    }
    assert PaintAll(extra) == painted by {
      if Emits(item, category) {
        assert PaintAll(extra)[0] == Paint(extra[0]);
      }
    }
    assert PaintAll(before + extra) == PaintAll(before) + PaintAll(extra) by {
      MapSeqAppend(Paint, before, extra);
    }
  }

  /** The component's inline dataset chain, run as one walk over the list:
      items without data are skipped, each item with data takes the next
      colour index, and items without the category's series yield nothing. */
  method InlineDatasets(list: seq<Item>, category: Category) returns (datasets: seq<ColoredDataset>)
    ensures datasets == PaintAll(CreateChartDatasets(list, category))
  {
    datasets := [];
    var index: nat := 0;
    var i := 0;
    while i < |list|
      invariant 0 <= i <= |list|
      invariant index == CountWithData(list[..i])
      invariant datasets == PaintAll(Pipeline(list[..i], category, 0))
    {
      var item := list[i];
      InlineDatasetsStep(list, category, i);
      var emitted := if Emits(item, category) then [InlineDataset(item, category, index)] else [];
      datasets := datasets + emitted;
      if item.data.Some? {
        index := index + 1;
      }
      i := i + 1;
    }
    assert list[..|list|] == list;
  }

  /** The component's inline label expression. */
  function InlineLabels(list: seq<Item>): (r: seq<int>)
    ensures r == ExtractChartLabels(list)
  {
    if |list| > 0 && list[0].data.Some? then
      if |list[0].data.value.series| > 0 then Years(list[0].data.value.series[0].points) else []
    else []
  }

  /** What the component renders: a placeholder, or one data provider per
      selected prefecture plus the line chart. */
  datatype View =
    | Placeholder
    | LineChart(providers: seq<SelectedPrefecture>, labels: seq<int>, datasets: seq<ColoredDataset>)

  /** The render decision over the current selection and map. */
  function Render(selected: seq<SelectedPrefecture>, m: DataMap, category: Category): (v: View)
    ensures v.Placeholder? <==> |selected| == 0
    ensures v.LineChart? ==> v.providers == selected
    ensures v.LineChart? ==> v.labels == ExtractChartLabels(ConvertMapToList(m))
    ensures v.LineChart? ==> v.datasets == PaintAll(CreateChartDatasets(ConvertMapToList(m), category))
  {
    var list := ConvertMapToList(m);
    var datasets := PaintAll(CreateChartDatasets(list, category));
    var labels := InlineLabels(list);
    if |selected| == 0 then Placeholder
    else LineChart(selected, labels, datasets)
  }

  /** An empty selection shows the placeholder whatever the map still holds. */
  lemma {:induction false} EmptySelectionIgnoresMap(m1: DataMap, m2: DataMap, c1: Category, c2: Category)
    ensures Render([], m1, c1) == Render([], m2, c2) == Placeholder
  {
  }

  /** The palette has 8 colours, and the dataset for the item at position
      `idx[k]` is painted with colour number (items with data before it) mod 8. */
  lemma {:induction false} InlineColours(list: seq<Item>, category: Category)
    ensures |Colors| == 8
    ensures |CreateChartDatasets(list, category)| == |EmittingIndices(list, category, |list|)|
    ensures var ds := CreateChartDatasets(list, category);
            var idx := EmittingIndices(list, category, |list|);
            forall k :: 0 <= k < |ds| && k < |idx| ==> idx[k] < |list| && ds[k].index == Slot(list, idx[k])
    ensures var ds := CreateChartDatasets(list, category);
            var idx := EmittingIndices(list, category, |list|);
            forall k :: 0 <= k < |ds| && k < |idx| ==> Paint(ds[k]).borderColor == Colors[Slot(list, idx[k]) % 8]
  {
    assert |Colors| == 8;
    SharedColours(list, category, Colors);
  }
}
