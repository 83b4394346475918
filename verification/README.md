# Population composition chart: a Dafny model

This project models the core of a small Next.js dashboard. The dashboard plots the population composition of Japanese prefectures as a line chart, one line per checked prefecture. It models five parts:

- **The selection hook** (`usePopulationSelection`): an ordered list of checked prefectures. Checking appends an entry. Unchecking removes every entry with that code.
- **The chart-data hook** (`useChartData`): an insertion-ordered map from prefecture code to name and payload (the payload is `null` while missing).
  - A reconciliation step keeps only the selected codes.
  - A load callback writes with `Map.prototype.set`.
- **The transform module** (`chartDataTransform.ts`):
  - it turns the map into a list;
  - it builds one chart dataset per prefecture whose payload has the chosen category, with a palette colour per prefecture that has data;
  - it takes the x-axis labels from the first list entry.
- **The chart component** (`chart.tsx`). It carries its own copies of the updaters, of the dataset chain and of the label expression, plus an eight-colour palette and a placeholder for an empty selection. The component's code is the same as the shared code. Here the dataset chain, the reconciliation and the load are re-written as walks, and each walk is proved equal to the shared definition. The label expression and the dataset callback are stated directly, in terms of the shared definitions.
- **The two server routes and the environment check** (`app/api/*/route.ts`, `lib/env.ts`):
  - the population route checks its `prefCode` query parameter, then the configuration; the prefectures route checks only the configuration;
  - they relay one upstream request;
  - they pass a failing status through, unless no response can carry that status, in which case building the response throws;
  - they turn a throw into a 500.

How the model is built:

- A JavaScript `Map` is a sequence of entries with unique keys. Iteration order is sequence order.
- `null` is `Option.None`, and a thrown `Error` is `Result.Failure`.
- The upstream `fetch` and the data providers' reports are inputs. A route takes the outcome of its upstream call as a parameter. The map takes the history of reports as a sequence of events.

Behaviours worth knowing:

- **Duplicates.** Checking an already checked prefecture appends a second entry (`Selection.ToggleOnTwiceDuplicates`).
- **Late loads.** The load callback writes whatever code it is given. A load that lands after its prefecture was unchecked puts the code back into the map until the next reconciliation (`ChartData.LateLoadReinserts`).
- **Labels.** The x-axis labels come from the first list entry only. A first entry whose payload is still `null` hides all labels (`ChartTransform.NullFirstItemHidesLabels`).
- **Colour slots.** A colour slot is counted among entries with data, before the category filter. An entry that lacks the category still uses up a slot (`ChartTransform.SkippedCategoryTakesColourSlot`).

## Model

| member | source | states |
|---|---|---|
| Selection.RemoveCode | features/population/hooks/usePopulationSelection.ts:39-41 | the unchecking filter keeps the input's order and drops exactly the entries with the code; its length falls by the number of such entries; the code leaves the set of selected codes and nothing else does |
| Selection.Toggle | features/population/hooks/usePopulationSelection.ts:31-43 | checking appends the pair at the end and keeps everything before it; unchecking removes the code and keeps the order of the rest; the selected codes gain or lose exactly that code |
| Selection.ToggleOffAbsent | features/population/hooks/usePopulationSelection.ts:39-41 | unchecking a code that is not selected changes nothing |
| Selection.ToggleOffIdempotent | features/population/hooks/usePopulationSelection.ts:39-41 | unchecking twice is the same as unchecking once |
| Selection.ToggleOnThenOff | features/population/hooks/usePopulationSelection.ts:36-41 | checking a new code and then unchecking it restores the original list |
| Selection.ToggleOnTwiceDuplicates | features/population/hooks/usePopulationSelection.ts:36-37 | checking the same prefecture twice from the initial state leaves two equal entries |
| Selection.ReplayMembership | features/population/hooks/usePopulationSelection.ts:20-43 | after any history of checkbox events from the empty initial list, a code is selected exactly when the last event for it checked it |
| Selection.CountCodeZero | features/population/hooks/usePopulationSelection.ts:39-41 | no entry is counted for a code exactly when the code is not selected |
| PopulationTypes.Years | features/population/utils/chartDataTransform.ts:63 | the year list has one year per data point, in point order |
| PopulationTypes.Values | features/population/utils/chartDataTransform.ts:43 | the value list has one value per data point, in point order |
| PopulationTypes.LabelsDistinct | features/population/constants/populationCategories.ts:5-10 | the four category labels are pairwise distinct and each category is listed once |
| ChartData.Get | features/population/utils/chartDataTransform.ts:7-10 | a lookup finds a value exactly when the code is a key of the map |
| ChartData.GetAt | features/population/utils/chartDataTransform.ts:7-10 | looking up the key of an entry returns the value stored in that entry |
| ChartData.Reconcile | features/population/hooks/useChartData.ts:20-32 | reconciliation keeps an order-preserving part of the map whose keys are the old keys that are selected; a selected code keeps its value and an unselected one has none |
| ChartData.ReconcileKeepsSelected | features/population/hooks/useChartData.ts:25-29 | when every key is selected, reconciliation returns the map unchanged |
| ChartData.ReconcileIdempotent | features/population/hooks/useChartData.ts:20-32 | reconciling twice against the same selection is reconciling once |
| ChartData.Load | features/population/hooks/useChartData.ts:49-53 | after a load the code maps to the new name and payload and every other code keeps its value; the keys gain the code and no other |
| ChartData.LoadExisting | features/population/hooks/useChartData.ts:51 | loading under a present key rewrites that one entry in place |
| ChartData.LoadNew | features/population/hooks/useChartData.ts:51 | loading under an absent key appends one entry |
| ChartData.LoadOverwrites | features/population/hooks/useChartData.ts:51 | of two loads under one code only the second is visible, at the position the first gave it |
| ChartData.ReconcileDropsUnselectedLoad | features/population/hooks/useChartData.ts:19-56 | a load under an unselected code is undone by the next reconciliation |
| ChartData.KeysFromLoads | features/population/hooks/useChartData.ts:14-56 | starting from the empty map, every key present was written by some load |
| ChartData.ProviderSettles | features/population/components/ChartDataProvider.tsx:23-25 | a provider's provisional `null` report followed by its outcome leaves the same map as the outcome alone |
| ChartData.LoadsForKeys | features/population/hooks/useChartData.ts:43-56 | one load per selected prefecture adds exactly the selected codes to the keys |
| ChartData.SettledKeysAreSelected | features/population/hooks/useChartData.ts:19-56 | after a reconciliation and one report per selected prefecture, the keys are exactly the selected codes |
| ChartData.LateLoadReinserts | features/population/hooks/useChartData.ts:19-56 | a load that lands after its code was deselected puts the code back, and only the next reconciliation removes it |
| ChartTransform.ConvertMapToList | features/population/utils/chartDataTransform.ts:74-84 | the list has one item per map entry, in iteration order, carrying the entry's code, name and payload |
| ChartTransform.ConvertRoundTrip | features/population/utils/chartDataTransform.ts:77-83 | the list form converts back to the same map, and every list converts back to itself |
| ChartTransform.FindSeriesFirst | features/population/utils/chartDataTransform.ts:35 | the lookup finds nothing exactly when no series has the category label; otherwise it returns the first series with that label |
| ChartTransform.WithData | features/population/utils/chartDataTransform.ts:33 | the data filter is an order-preserving part of the input that holds only items whose payload is present, and as many as there are such items, so it is exactly those items |
| ChartTransform.WithDataIdempotent | features/population/utils/chartDataTransform.ts:33 | filtering for data twice is filtering once |
| Common.MapWithIndexAt | features/population/utils/chartDataTransform.ts:34 | the `.map` with an index passes the item at position k to the callback together with the index start + k |
| ChartTransform.ToDataset | features/population/utils/chartDataTransform.ts:34-49 | the callback yields a dataset exactly when the payload holds a series labelled with the category; the dataset has the item's name as legend, the values of the first such series in point order, and the callback's index. An absent payload never reaches the callback (it would throw at line 35) and yields nothing here |
| ChartTransform.Colour | features/population/utils/chartDataTransform.ts:44 | a colour is picked exactly when the palette is non-empty, and it is the palette entry at the dataset's index modulo the palette's length |
| Common.WrapIsMod | features/population/utils/chartDataTransform.ts:44 | wrapping a non-negative index by repeated subtraction gives the remainder of `%`, which is how the colour lookup is computed here |
| ChartTransform.DropNulls | features/population/utils/chartDataTransform.ts:50 | the null filter keeps the present results in their order, and as many as there are, so it drops exactly the `null`s |
| ChartTransform.CreateChartDatasets | features/population/utils/chartDataTransform.ts:28-51 | there are never more datasets than items with data |
| ChartTransform.DatasetsCharacterized | features/population/utils/chartDataTransform.ts:28-51 | the datasets are, in input order, exactly one per item whose payload has the category; each carries that item's name and the values of the first matching series; its colour index is the number of earlier items with data |
| ChartTransform.DatasetsIgnoreNullEntries | features/population/utils/chartDataTransform.ts:33-34 | removing the items without data beforehand changes neither the datasets nor their colours |
| ChartTransform.EmittingIndices | features/population/utils/chartDataTransform.ts:33-50 | the listed positions are strictly increasing, and each holds an item whose payload has the category |
| ChartTransform.EmittingIndicesComplete | features/population/utils/chartDataTransform.ts:33-50 | every position whose payload has the category is listed |
| ChartTransform.DatasetIndicesIncrease | features/population/utils/chartDataTransform.ts:32-50 | the datasets' colour indices strictly increase and all lie below the number of items with data |
| ChartTransform.DistinctColourSlots | features/population/utils/chartDataTransform.ts:32-50 | while no more items have data than the palette has colours, no two datasets are given the same palette position, and with a palette of distinct colours no two datasets get the same colour |
| ChartTransform.SharedColours | features/population/utils/chartDataTransform.ts:32-50 | for any non-empty palette, the k-th dataset is coloured with the palette entry at its item's position among the items with data, modulo the palette's length |
| ChartTransform.ExtractChartLabels | features/population/utils/chartDataTransform.ts:59-66 | the labels are empty when the list is empty, when the first payload is null or when it has no series; otherwise they are the years of that payload's first series |
| ChartTransform.LabelsIgnoreLaterItems | features/population/utils/chartDataTransform.ts:62-63 | nothing after the first item affects the labels |
| ChartTransform.LabelsAlignWithFirstDataset | features/population/utils/chartDataTransform.ts:28-66 | when the first item's first series has the chosen category, the first dataset has one value per label |
| ChartTransform.SinglePrefectureProjection | features/population/utils/chartDataTransform.ts:28-66 | for one prefecture with total and young series, the labels are its years and switching the category switches the plotted values without a new load |
| ChartTransform.SkippedCategoryTakesColourSlot | features/population/utils/chartDataTransform.ts:34-44 | an item that has data but lacks the category still uses up colour slot 0, so the next item gets slot 1 |
| ChartTransform.NullFirstItemHidesLabels | features/population/utils/chartDataTransform.ts:62-65 | a first item whose payload is null empties the labels although a later item is plotted |
| InlineChart.InlineReconcile | features/population/components/chart.tsx:55-69 | the component's walk-and-delete over the copied map computes the shared reconciliation |
| InlineChart.InlineLoad | features/population/components/chart.tsx:71-84 | the component's `set` on a copy computes the shared load |
| InlineChart.InlineDataset | features/population/components/chart.tsx:125-139 | the component's callback builds, for an item that has the category, the shared dataset at that index painted with the component's colours |
| InlineChart.InlineDatasets | features/population/components/chart.tsx:123-141 | the component's inline chain yields the shared datasets, each painted with the component's colours |
| InlineChart.InlineLabels | features/population/components/chart.tsx:144-147 | the component's inline label expression equals the shared label extraction |
| InlineChart.PaintAll | features/population/components/chart.tsx:135 | painting keeps the datasets' order and count, and paints each dataset on its own |
| InlineChart.EmptySelectionIgnoresMap | features/population/components/chart.tsx:154-160 | with nothing selected the placeholder is shown, whatever the map holds and whatever category is chosen |
| InlineChart.Render | features/population/components/chart.tsx:154-175 | the placeholder shows exactly when nothing is selected; otherwise there is one data provider per selected prefecture, in order, plus a chart with the shared labels and one painted dataset per shared dataset |
| InlineChart.InlineColours | features/population/components/chart.tsx:33-42 | the palette has eight colours, and each dataset is painted with the colour at its slot modulo 8; this is `ChartTransform.SharedColours` for that palette |
| ServerEnv.MissingVars | lib/env.ts:17-23 | the missing list keeps the order of the required names, and a name is in it exactly when it is required and absent or empty |
| ServerEnv.ValidateEnv | lib/env.ts:16-31 | validation throws exactly when some required variable is missing, that is when API_URL or API_KEY is absent or empty |
| ServerEnv.GetEnv | lib/env.ts:36-43 | the configuration is returned exactly when both variables are set, and holds their values; otherwise the validation error is passed on |
| ServerEnv.ValidateEnvMessages | lib/env.ts:25-30 | for each combination of missing variables, the exact error message, naming them in required order separated by ", " |
| Proxy.Headers | app/api/population/route.ts:33-36 | the upstream request carries the API key in X-API-KEY |
| Proxy.Catch | app/api/population/route.ts:51-57 | a throw inside a handler becomes a 500 with "Internal server error"; a returned response is kept |
| Proxy.Forward | app/api/population/route.ts:42-50 | a response that is not ok passes its status through with the route's failure message when a response can carry that status (200..599 and not 204, 205 or 304); for any other status, building the error response throws; an ok response is forwarded with 200; a throw propagates |
| Proxy.ForwardStatusRelayable | app/api/population/route.ts:42-57 | every relayed response carries a status a response can have; an upstream status outside that set ends in the catch's 500 "Internal server error" |
| Proxy.ConfigCheckMatchesValidation | app/api/population/route.ts:20-28 | the routes' inline configuration check rejects exactly the environments that the environment validation rejects, and reads the same values |
| Proxy.ForwardStatus | app/api/population/route.ts:42-50 | for an upstream whose ok flag agrees with its status, a relayed response has a success status exactly when it forwards the body |
| PopulationRoute.Request | app/api/population/route.ts:30-40 | the upstream URL is the API base, then the composition path, then the code; the request carries the key and a 24-hour cache lifetime |
| PopulationRoute.Get | app/api/population/route.ts:8-58 | a missing or empty prefCode gives 400; otherwise a missing configuration gives 500; the upstream is called exactly when both checks pass; then an ok answer is forwarded with 200, a failing status a response can carry is passed through with the population message, and a throw or any other failing status gives 500 "Internal server error" |
| PopulationRoute.UpstreamIrrelevantWhenNotCalled | app/api/population/route.ts:11-28 | a request rejected before the upstream call gets the same response whatever the upstream would do |
| PopulationRoute.QueryCheckedBeforeConfig | app/api/population/route.ts:11-28 | a missing or empty prefCode is reported as 400 even when the configuration is missing too |
| PopulationRoute.ForwardedIffOk | app/api/population/route.ts:42-50 | the body is forwarded exactly when the upstream was called and was ok, and with a consistent upstream exactly when the status is a success status |
| PrefecturesRoute.Request | app/api/prefectures/route.ts:20-27 | the upstream URL is the API base plus the prefectures path; the request carries the key and a one-hour cache lifetime |
| PrefecturesRoute.Get | app/api/prefectures/route.ts:8-45 | a missing configuration gives 500 without an upstream call; otherwise an ok answer is forwarded with 200, a failing status a response can carry is passed through with the prefectures message, and a throw or any other failing status gives 500 "Internal server error" |
| PrefecturesRoute.UpstreamIrrelevantWithoutConfig | app/api/prefectures/route.ts:10-18 | without configuration the response does not depend on the upstream |
| PrefecturesRoute.ForwardedIffOk | app/api/prefectures/route.ts:29-37 | the body is forwarded exactly when the upstream was called and was ok, and with a consistent upstream exactly when the status is a success status |
| PrefecturesRoute.RoutesAgree | app/api/prefectures/route.ts:8-45 | given a prefCode, both routes report a missing configuration identically; once configured, both routes answer with the same status, and they answer an ok or throwing upstream with the same body too |

## Left out

- Data fetching is not modelled. This covers SWR caching and request de-duplication (`usePopulationData`, `fetcher.ts`) and the client services. What a provider reports is an input event, and what a route's `fetch` yields is a parameter.
- React scheduling is not modelled: effects, re-renders and the order in which state updates are committed. A history of the map is an explicit sequence of events applied in order.
- The chart's options object, the chart.js registration, the titles and the placeholder text are presentation only.
- The background colour is left out. It is made by rewriting the colour string with `.replace("rgb", "rgba").replace(")", ", 0.5)")` (chartDataTransform.ts lines 45-47 and chart.tsx lines 136-138). Only the palette slot and the border colour are modelled.
- The shared palette `CHART_COLORS` lives in a constants file that is not part of this model, so `ChartTransform.Colour` takes the palette as a parameter. The component's own palette has eight colours, and `InlineChart` uses it.
- ChartTransform.Colour: with an empty palette the source picks `undefined`, and the `.replace` for the background colour then throws, so `createChartDatasets` throws as soon as an item yields a dataset. The model does not carry that throw: the background colour is left out, and `Colour` returns `None` instead.
- PopulationTypes.Years: numbers are whole numbers. The optional `rate` of a point and floating-point values are dropped.
- The JSON body is not parsed or re-serialised. A forwarded body is the upstream payload as a string. Rejections from `fetch` and from `res.json()` are both the one `Throws` outcome.
- Repeated query parameters are not modelled. `searchParams.get` returns the first value of a repeated parameter, and the query is modelled as a map with one value per name.
- Logging with `console.error` is left out.
