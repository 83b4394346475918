/**
  The chart projection (`chartDataTransform.ts`): pure functions from the
  list form of the data map and a chosen category to chart.js datasets and
  x-axis labels.

  Two behaviours of the code are kept exactly:
  - the colour of a dataset is its position among the entries that HAVE data,
    counted before entries lacking the chosen category are dropped, so such
    an entry still uses up a colour slot;
  - the labels are read from the FIRST entry only, so they are empty whenever
    that entry has no data, whatever later entries hold.
  A dataset records the `.map` index it was built at; its colours are read
  from a palette at that index wrapped to the palette's length (`Colour`).
 */
module ChartTransform {
  import opened Common
  import opened PopulationTypes
  import opened ChartData

  /** One row of the list form of the data map. */
  datatype Item = Item(prefCode: int, prefName: string, data: Option<Composition>)

  /** A chart.js dataset: legend text, plotted values, and the `.map` index
      its border and background colours are chosen by. */
  datatype Dataset = Dataset(legend: string, values: seq<int>, index: nat)

  /** `palette[index % palette.length]`: the border colour of a dataset, or
      `undefined` (here `None`) when the palette is empty and the index
      expression is `NaN`. The position is computed with `Wrap`, which is
      `%` on a non-negative index, so that proofs about it stay linear. */
  function Colour(palette: seq<string>, d: Dataset): (c: Option<string>)
    ensures c.Some? <==> |palette| > 0
    ensures c.Some? ==> c.value in palette
    ensures c.Some? ==> c.value == palette[d.index % |palette|]
  {
    if |palette| == 0 then None
    else
      WrapIsMod(d.index, |palette|);
      Some(palette[Wrap(d.index, |palette|)])
  }

  // ---------------------------------------------------------------------
  // Map to list

  /** `convertMapToList`: one item per map entry, in iteration order. */
  function ConvertMapToList(m: seq<Entry>): (r: seq<Item>)
    ensures |r| == |m|
    ensures forall i :: 0 <= i < |m| ==> r[i] == Item(m[i].key, m[i].value.prefName, m[i].value.data)
  {
    if |m| == 0 then []
    else [Item(m[0].key, m[0].value.prefName, m[0].value.data)] + ConvertMapToList(m[1..])
  }

  /** The inverse view: the entries a list of items describes. */
  function ListToEntries(items: seq<Item>): (r: seq<Entry>)
    ensures |r| == |items|
  {
    if |items| == 0 then []
    else [Entry(items[0].prefCode, Value(items[0].prefName, items[0].data))] + ListToEntries(items[1..])
  }

  /** The list form loses nothing: it converts back to the very same map,
      and every list converts back to itself through its entries. */
  lemma {:induction false} ConvertRoundTrip(m: seq<Entry>, items: seq<Item>)
    ensures ListToEntries(ConvertMapToList(m)) == m
    ensures ConvertMapToList(ListToEntries(items)) == items
    decreases |m| + |items|
  {
    if |m| > 0 {
      ConvertRoundTrip(m[1..], items);
      assert m == [m[0]] + m[1..];
    }
    if |items| > 0 {
      ConvertRoundTrip(m, items[1..]);
      assert items == [items[0]] + items[1..];
    }
  }

  // ---------------------------------------------------------------------
  // Datasets, as the code computes them: filter, map with index, filter

  /** Position `i` holds the first series labelled `name`. */
  predicate FirstMatchAt(series: seq<Series>, name: string, i: int)
  {
    0 <= i < |series| && series[i].name == name && forall j :: 0 <= j < i ==> series[j].name != name
  }

  lemma {:induction false} FirstMatchShift(series: seq<Series>, name: string, i: int)
    requires |series| > 0 && series[0].name != name
    requires FirstMatchAt(series[1..], name, i)
    ensures FirstMatchAt(series, name, i + 1) && series[i + 1] == series[1..][i]
  {
    forall j | 0 <= j < i + 1 ensures series[j].name != name {
      if j > 0 {
        assert series[j] == series[1..][j - 1];
      }
    }
  }

  /** `Array.prototype.find` on the series of a payload, by label: the
      first series with that label, or nothing when none has it. */
  function FindSeries(series: seq<Series>, name: string): Option<Series>
  {
    if |series| == 0 then None
    else if series[0].name == name then Some(series[0])
    else FindSeries(series[1..], name)
  }

  /** `FindSeries` finds nothing exactly when no series carries the label,
      and otherwise the first series that does. */
  lemma {:induction false} FindSeriesFirst(series: seq<Series>, name: string)
    ensures var r := FindSeries(series, name);
            (r.None? <==> forall i :: 0 <= i < |series| ==> series[i].name != name) &&
            (r.Some? ==> exists i :: FirstMatchAt(series, name, i) && series[i] == r.value)
    decreases |series|
  {
    if |series| > 0 {
      if series[0].name == name {
        assert FirstMatchAt(series, name, 0);
      } else {
        var r := FindSeries(series[1..], name);
        FindSeriesFirst(series[1..], name);
        if r.None? {
          assert forall i :: 0 < i < |series| ==> series[i] == series[1..][i - 1];
        } else {
          var i :| FirstMatchAt(series[1..], name, i) && series[1..][i] == r.value;
          FirstMatchShift(series, name, i);
        }
      }
    }
  }

  /** The number of items whose payload is present. */
  function CountWithData(list: seq<Item>): (r: nat)
    ensures r <= |list|
  {
    if |list| == 0 then 0
    else (if list[0].data.Some? then 1 else 0) + CountWithData(list[1..])
  }

  /** `.filter((pref) => pref.data)`. */
  function WithData(list: seq<Item>): (r: seq<Item>)
    ensures |r| == CountWithData(list)
    ensures forall k :: 0 <= k < |r| ==> r[k].data.Some?
    ensures IsSubsequence(r, list)
  {
    if |list| == 0 then []
    else
      var rest := WithData(list[1..]);
      if list[0].data.Some? then
        var r := [list[0]] + rest;
        assert r[1..] == rest;
        r
      else
        rest
  }

  /** The body of the `.map` callback for the item at `index`: `null` when
      the payload lacks the category. (The callback reads the payload
      without a check; the filter before it guarantees it is present, so the
      absent case, which would throw, never reaches the callback and is
      given `null` here.) */
  function ToDataset(item: Item, category: Category, index: nat): (r: Option<Dataset>)
    ensures r.Some? <==> Emits(item, category)
    ensures r.Some? ==> r.value.legend == item.prefName && r.value.index == index
    ensures r.Some? ==> r.value.values == Values(FindSeries(item.data.value.series, Label(category)).value.points)
  {
    match item.data
    case None => None
    case Some(composition) =>
      match FindSeries(composition.series, Label(category))
      case None => None
      case Some(s) => Some(Dataset(item.prefName, Values(s.points), index))
  }

  /** The `.map((pref, index) => ...)` callback for a category, as a function
      value; the map itself is `MapWithIndex`. */
  function Callback(category: Category): (Item, nat) -> Option<Dataset>
  {
    (item: Item, index: nat) => ToDataset(item, category, index)
  }

  /** Datasets as `.map` results that are all present. */
  function Present(ds: seq<Dataset>): (r: seq<Option<Dataset>>)
    ensures |r| == |ds|
    ensures forall k :: 0 <= k < |r| ==> r[k] == Some(ds[k])
  {
    if |ds| == 0 then [] else [Some(ds[0])] + Present(ds[1..])
  }

  /** The number of `.map` results that are not `null`. */
  function CountPresent(os: seq<Option<Dataset>>): (r: nat)
    ensures r <= |os|
  {
    if |os| == 0 then 0
    else (if os[0].Some? then 1 else 0) + CountPresent(os[1..])
  }

  /** `.filter((dataset) => dataset !== null)`: the present results, in
      order, and all of them. */
  function DropNulls(os: seq<Option<Dataset>>): (r: seq<Dataset>)
    ensures |r| == CountPresent(os)
    ensures IsSubsequence(Present(r), os)
  {
    if |os| == 0 then []
    else
      var rest := DropNulls(os[1..]);
      if os[0].Some? then
        var r := [os[0].value] + rest;
        assert Present(r)[1..] == Present(rest);
        r
      else
        rest
  }

  /** The whole chain, with the `.map` index starting at `start`. */
  function Pipeline(list: seq<Item>, category: Category, start: nat): seq<Dataset>
  {
    DropNulls(MapWithIndex(Callback(category), WithData(list), start))
  }

  /** `createChartDatasets`. */
  function CreateChartDatasets(list: seq<Item>, category: Category): (r: seq<Dataset>)
    ensures |r| <= CountWithData(list)
  {
    Pipeline(list, category, 0)
  }

  // ---------------------------------------------------------------------
  // Datasets, as an independent reference: which items emit, and what

  /** An item yields a dataset for `category`: its payload is present and
      holds a series labelled with the category. */
  predicate Emits(item: Item, category: Category)
  {
    item.data.Some? && FindSeries(item.data.value.series, Label(category)).Some?
  }

  /** The dataset an emitting item yields at index `slot`: its name as
      legend and the values of the first matching series in point order. */
  function DatasetFor(item: Item, category: Category, slot: nat): Dataset
    requires Emits(item, category)
  {
    Dataset(item.prefName, Values(FindSeries(item.data.value.series, Label(category)).value.points), slot)
  }

  /** The colour slot of position `i`: how many items before it have data. */
  function Slot(list: seq<Item>, i: nat): nat
    requires i <= |list|
  {
    CountWithData(list[..i])
  }

  /** `Emits` for a category, as a function value. */
  function EmitsIn(category: Category): Item -> bool
  {
    (item: Item) => Emits(item, category)
  }

  /** The positions below `n` whose items emit a dataset, in increasing order. */
  function EmittingIndices(list: seq<Item>, category: Category, n: nat): (r: seq<nat>)
    requires n <= |list|
    ensures forall k :: 0 <= k < |r| ==> r[k] < n && Emits(list[r[k]], category)
    ensures forall k, l :: 0 <= k < l < |r| ==> r[k] < r[l]
  {
    Positions(EmitsIn(category), list, n)
  }

  /** No emitting position below `n` is missing from `EmittingIndices`. */
  lemma {:induction false} EmittingIndicesComplete(list: seq<Item>, category: Category, n: nat)
    requires n <= |list|
    ensures forall i :: 0 <= i < n && Emits(list[i], category) ==> i in EmittingIndices(list, category, n)
  {
    PositionsComplete(EmitsIn(category), list, n);
  }

  lemma {:induction false} CountWithDataAppend(a: seq<Item>, b: seq<Item>)
    ensures CountWithData(a + b) == CountWithData(a) + CountWithData(b)
    decreases |a|
  {
    if |a| == 0 {
      assert a + b == b;
    } else {
      assert (a + b)[1..] == a[1..] + b;
      CountWithDataAppend(a[1..], b);
    }
  }

  lemma {:induction false} WithDataAppend(a: seq<Item>, b: seq<Item>)
    ensures WithData(a + b) == WithData(a) + WithData(b)
    decreases |a|
  {
    if |a| == 0 {
      assert a + b == b;
    } else {
      assert (a + b)[1..] == a[1..] + b;
      WithDataAppend(a[1..], b);
    }
  }

  lemma {:induction false} DropNullsAppend(x: seq<Option<Dataset>>, y: seq<Option<Dataset>>)
    ensures DropNulls(x + y) == DropNulls(x) + DropNulls(y)
    decreases |x|
  {
    if |x| == 0 {
      assert x + y == y;
    } else {
      assert (x + y)[1..] == x[1..] + y;
      DropNullsAppend(x[1..], y);
    }
  }

  /** The chain over a sequence `ab` split as `a + b`: the second part's
      indices start at `mid`, after the first part's items with data. */
  lemma {:induction false} PipelineSplit(ab: seq<Item>, a: seq<Item>, b: seq<Item>, category: Category, start: nat, mid: nat)
    requires ab == a + b && mid == start + CountWithData(a)
    ensures Pipeline(ab, category, start) == Pipeline(a, category, start) + Pipeline(b, category, mid)
  {
    var wa, wb := WithData(a), WithData(b);
    var f := Callback(category);
    var ma, mb := MapWithIndex(f, wa, start), MapWithIndex(f, wb, mid);
    assert WithData(ab) == wa + wb by {
      WithDataAppend(a, b);
    }
    assert MapWithIndex(f, wa + wb, start) == ma + mb by {
      MapWithIndexAppend(f, wa, wb, start);
    }
    DropNullsAppend(ma, mb);
  }

  /** The chain over a concatenation. */
  lemma {:induction false} PipelineAppend(a: seq<Item>, b: seq<Item>, category: Category, start: nat)
    ensures Pipeline(a + b, category, start)
         == Pipeline(a, category, start) + Pipeline(b, category, start + CountWithData(a))
  {
    PipelineSplit(a + b, a, b, category, start, start + CountWithData(a));
  }

  /** The chain over a single item. */
  lemma {:induction false} PipelineSingle(x: Item, category: Category, start: nat)
    ensures Pipeline([x], category, start)
         == if Emits(x, category) then [DatasetFor(x, category, start)] else []
  {
    assert [x][1..] == [];
    if x.data.Some? {
      assert WithData([x]) == [x];
      assert MapWithIndex(Callback(category), [x], start) == [ToDataset(x, category, start)];
    } else {
      assert WithData([x]) == [];
    }
  }

  /** `d` is the reference dataset for the emitting position `i`. */
  predicate MatchesAt(d: Dataset, list: seq<Item>, category: Category, i: nat)
  {
    i < |list| && Emits(list[i], category) && d == DatasetFor(list[i], category, Slot(list, i))
  }

  /** `r` is the reference output for the emitting positions `idx`. */
  predicate MatchesReference(r: seq<Dataset>, list: seq<Item>, category: Category, idx: seq<nat>)
  {
    |r| == |idx| && forall k :: 0 <= k < |r| ==> MatchesAt(r[k], list, category, idx[k])
  }

  /** Extending a matching output by one matching dataset. */
  lemma {:induction false} MatchesReferenceSnoc(r: seq<Dataset>, idx: seq<nat>, d: Dataset, i: nat,
                                                list: seq<Item>, category: Category)
    requires MatchesReference(r, list, category, idx)
    requires MatchesAt(d, list, category, i)
    ensures MatchesReference(r + [d], list, category, idx + [i])
  {
    var grown, grownIdx := r + [d], idx + [i];
    forall k | 0 <= k < |grown|
      ensures MatchesAt(grown[k], list, category, grownIdx[k])
    {
      if k < |r| {
        assert grown[k] == r[k] && grownIdx[k] == idx[k];
      } else {
        assert grown[k] == d && grownIdx[k] == i;
      }
    }
  }

  /** Growing the prefix by one item appends that item's contribution. */
  lemma {:induction false} PipelinePrefixStep(list: seq<Item>, category: Category, n: nat)
    requires 0 < n <= |list|
    ensures Pipeline(list[..n], category, 0)
         == Pipeline(list[..n - 1], category, 0)
            + (if Emits(list[n - 1], category) then [DatasetFor(list[n - 1], category, Slot(list, n - 1))] else [])
  {
    var i := n - 1;
    var front, last := list[..i], [list[i]];
    var slot := Slot(list, i);
    assert list[..n] == front + last;
    PipelineSplit(list[..n], front, last, category, 0, slot);
    PipelineSingle(list[i], category, slot);
  }

  lemma {:induction false} PipelineMatchesReference(list: seq<Item>, category: Category, n: nat)
    requires n <= |list|
    ensures MatchesReference(Pipeline(list[..n], category, 0), list, category, EmittingIndices(list, category, n))
    decreases n
  {
    if n == 0 {
      assert list[..0] == [];
    } else {
      var i := n - 1;
      var front := Pipeline(list[..i], category, 0);
      var frontIdx := EmittingIndices(list, category, i);
      PipelineMatchesReference(list, category, i);
      if Emits(list[i], category) {
        MatchesReferenceSnoc(front, frontIdx, DatasetFor(list[i], category, Slot(list, i)), i, list, category);
      } else {
        assert front + [] == front && frontIdx + [] == frontIdx;
      }
      PipelinePrefixStep(list, category, n);
    }
  }

  /** `createChartDatasets` emits, in input order, exactly one dataset per
      item that has data AND holds the category's series: legend = the
      item's name, values = that series' values in point order, index = the
      number of items WITH DATA before it (whether or not they held the
      category). Items without data or without the category contribute
      nothing. */
  lemma {:induction false} DatasetsCharacterized(list: seq<Item>, category: Category)
    ensures MatchesReference(CreateChartDatasets(list, category), list, category, EmittingIndices(list, category, |list|))
  {
    assert list[..|list|] == list;
    PipelineMatchesReference(list, category, |list|);
  }

  /** Two positions that both have data get increasing slots, both below the
      number of items with data. */
  lemma {:induction false} SlotsIncrease(list: seq<Item>, i: nat, j: nat)
    requires i < j < |list| && list[i].data.Some? && list[j].data.Some?
    ensures Slot(list, i) < Slot(list, j) < CountWithData(list)
  {
    var front, mid, rest := list[..i], list[i..j], list[j..];
    assert list[..j] == front + mid;
    assert list == list[..j] + rest;
    CountWithDataAppend(front, mid);
    CountWithDataAppend(list[..j], rest);
    assert mid[0] == list[i];
    assert rest[0] == list[j];
  }

  /** Datasets carry strictly increasing indices, all below the number of
      items with data. */
  lemma {:induction false} DatasetIndicesIncrease(list: seq<Item>, category: Category)
    ensures var r := CreateChartDatasets(list, category);
            forall k, l :: 0 <= k < l < |r| ==> r[k].index < r[l].index < CountWithData(list)
  {
    var r := CreateChartDatasets(list, category);
    var idx := EmittingIndices(list, category, |list|);
    DatasetsCharacterized(list, category);
    forall k, l | 0 <= k < l < |r|
      ensures r[k].index < r[l].index < CountWithData(list)
    {
      SlotsIncrease(list, idx[k], idx[l]);
    }
  }

  /** As long as no more items have data than the palette has colours, no
      two datasets share a palette position, so with a palette of distinct
      colours no two datasets share a colour. */
  lemma {:induction false} DistinctColourSlots(list: seq<Item>, category: Category, palette: seq<string>)
    requires CountWithData(list) <= |palette|
    ensures var r := CreateChartDatasets(list, category);
            forall k, l :: 0 <= k < l < |r| ==> Wrap(r[k].index, |palette|) != Wrap(r[l].index, |palette|)
    ensures (forall i, j :: 0 <= i < j < |palette| ==> palette[i] != palette[j]) ==>
            var r := CreateChartDatasets(list, category);
            forall k, l :: 0 <= k < l < |r| ==> Colour(palette, r[k]) != Colour(palette, r[l])
  {
    var r := CreateChartDatasets(list, category);
    DatasetIndicesIncrease(list, category);
    forall k, l | 0 <= k < l < |r|
      ensures Wrap(r[k].index, |palette|) != Wrap(r[l].index, |palette|)
    {
      assert r[k].index < r[l].index < CountWithData(list);
    }
  }

  /** The colour each dataset is painted with, for any non-empty palette:
      the palette entry at the dataset's slot (its item's position among
      the items with data) wrapped to the palette's length. */
  lemma {:induction false} SharedColours(list: seq<Item>, category: Category, palette: seq<string>)
    requires |palette| > 0
    ensures |CreateChartDatasets(list, category)| == |EmittingIndices(list, category, |list|)|
    ensures var ds := CreateChartDatasets(list, category);
            var idx := EmittingIndices(list, category, |list|);
            forall k :: 0 <= k < |ds| && k < |idx| ==> idx[k] < |list| && ds[k].index == Slot(list, idx[k])
    ensures var ds := CreateChartDatasets(list, category);
            var idx := EmittingIndices(list, category, |list|);
            forall k :: 0 <= k < |ds| && k < |idx| ==> Colour(palette, ds[k]) == Some(palette[Slot(list, idx[k]) % |palette|])
  {
    DatasetsCharacterized(list, category);
  }

  lemma {:induction false} WithDataIdempotent(list: seq<Item>)
    ensures WithData(WithData(list)) == WithData(list)
    decreases |list|
  {
    if |list| > 0 {
      WithDataIdempotent(list[1..]);
      if list[0].data.Some? {
        assert ([list[0]] + WithData(list[1..]))[1..] == WithData(list[1..]);
      }
    }
  }

  /** Items with a `null` payload neither produce a dataset nor shift any
      colour: dropping them first changes nothing. */
  lemma {:induction false} DatasetsIgnoreNullEntries(list: seq<Item>, category: Category)
    ensures CreateChartDatasets(WithData(list), category) == CreateChartDatasets(list, category)
  {
    WithDataIdempotent(list);
  }

  // ---------------------------------------------------------------------
  // Labels

  /** `extractChartLabels`: the years of the first series of the FIRST item,
      or nothing when there is no first item, its payload is `null`, or it
      has no series. */
  function ExtractChartLabels(list: seq<Item>): (r: seq<int>)
    ensures |list| == 0 || list[0].data.None? || |list[0].data.value.series| == 0 ==> r == []
    ensures |list| > 0 && list[0].data.Some? && |list[0].data.value.series| > 0 ==>
              |r| == |list[0].data.value.series[0].points| &&
              forall i :: 0 <= i < |r| ==> r[i] == list[0].data.value.series[0].points[i].year
  {
    if |list| > 0 && list[0].data.Some? then
      if |list[0].data.value.series| > 0 then Years(list[0].data.value.series[0].points) else []
    else []
  }

  /** Only the first item decides the labels; nothing appended after it matters. */
  lemma {:induction false} LabelsIgnoreLaterItems(list: seq<Item>, later: seq<Item>)
    requires |list| > 0
    ensures ExtractChartLabels(list + later) == ExtractChartLabels(list)
  {
    assert (list + later)[0] == list[0];
  }

  /** When the first item emits a dataset from its first series, there is
      one label per plotted value of the first dataset. */
  lemma {:induction false} LabelsAlignWithFirstDataset(list: seq<Item>, category: Category)
    requires |list| > 0 && list[0].data.Some?
    requires |list[0].data.value.series| > 0 && list[0].data.value.series[0].name == Label(category)
    ensures var r := CreateChartDatasets(list, category);
            |r| > 0 && r[0].legend == list[0].prefName && r[0].index == 0 &&
            |r[0].values| == |ExtractChartLabels(list)|
  {
    var series := list[0].data.value.series;
    assert FindSeries(series, Label(category)) == Some(series[0]);
    assert Emits(list[0], category);
    DatasetsCharacterized(list, category);
    var idx := EmittingIndices(list, category, |list|);
    assert 0 in idx by {
      EmittingIndicesComplete(list, category, |list|);
    }
    assert idx[0] == 0;
    assert list[..0] == [];
  }

  // ---------------------------------------------------------------------
  // Worked cases

  /** A payload holding only the total-population series. */
  function TotalOnly(): Composition
  {
    Composition(2020, [Series("総人口", [Point(1980, 12817), Point(1985, 12707)])])
  }

  /** A payload holding the total and young-population series. */
  function TotalAndYoung(): Composition
  {
    Composition(2020, [Series("総人口", [Point(1980, 12817), Point(1985, 12707)]),
                       Series("年少人口", [Point(1980, 2906), Point(1985, 2769)])])
  }

  /** One selected prefecture: the labels are its years and its single dataset
      switches values with the category, without any new load. */
  lemma {:induction false} SinglePrefectureProjection()
    ensures ExtractChartLabels([Item(1, "北海道", Some(TotalAndYoung()))]) == [1980, 1985]
    ensures CreateChartDatasets([Item(1, "北海道", Some(TotalAndYoung()))], Total)
         == [Dataset("北海道", [12817, 12707], 0)]
    ensures CreateChartDatasets([Item(1, "北海道", Some(TotalAndYoung()))], Young)
         == [Dataset("北海道", [2906, 2769], 0)]
  {
    var x := Item(1, "北海道", Some(TotalAndYoung()));
    var total := TotalAndYoung().series[0];
    var young := TotalAndYoung().series[1];
    assert Years(total.points) == [1980, 1985];
    assert Values(total.points) == [12817, 12707];
    assert Values(young.points) == [2906, 2769];
    assert FindSeries(TotalAndYoung().series, Label(Total)) == Some(total);
    assert FindSeries(TotalAndYoung().series, Label(Young)) == Some(young);
    PipelineSingle(x, Total, 0);
    PipelineSingle(x, Young, 0);
  }

  /** An item with data but without the chosen category still uses up index
      0: the next item is drawn with index 1, the palette's second colour. */
  lemma {:induction false} SkippedCategoryTakesColourSlot()
    ensures CreateChartDatasets([Item(1, "北海道", Some(TotalOnly())), Item(13, "東京都", Some(TotalAndYoung()))], Young)
         == [Dataset("東京都", [2906, 2769], 1)]
  {
    var a := Item(1, "北海道", Some(TotalOnly()));
    var b := Item(13, "東京都", Some(TotalAndYoung()));
    var young := TotalAndYoung().series[1];
    assert Values(young.points) == [2906, 2769];
    assert FindSeries(TotalOnly().series, Label(Young)) == None;
    assert FindSeries(TotalAndYoung().series, Label(Young)) == Some(young);
    var front, last := [a], [b];
    assert [a, b] == front + last;
    PipelineAppend(front, last, Young, 0);
    PipelineSingle(a, Young, 0);
    PipelineSingle(b, Young, 1);
  }

  /** A first item whose payload is still `null` hides the years of every
      later item, although those items are plotted. */
  lemma {:induction false} NullFirstItemHidesLabels()
    ensures ExtractChartLabels([Item(1, "北海道", None), Item(13, "東京都", Some(TotalOnly()))]) == []
    ensures |CreateChartDatasets([Item(1, "北海道", None), Item(13, "東京都", Some(TotalOnly()))], Total)| == 1
  {
    var a := Item(1, "北海道", None);
    var b := Item(13, "東京都", Some(TotalOnly()));
    assert FindSeries(TotalOnly().series, Label(Total)) == Some(TotalOnly().series[0]);
    var front, last := [a], [b];
    assert [a, b] == front + last;
    PipelineAppend(front, last, Total, 0);
    PipelineSingle(a, Total, 0);
    PipelineSingle(b, Total, 0);
  }
}
