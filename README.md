# Live traffic dashboard: state and render model

This project models the core of a browser dashboard that polls a metrics endpoint
for per-client traffic volumes and shows them in a bar chart. The model covers
four pieces of state that the page updates in place:

- the cached snapshot `lastData`;
- the view flags `currentView` and `currentDrilldownIp`;
- the chart's labels and its two datasets (inbound, outbound);
- the connection status.

It also models the handlers that change that state: a poll cycle (`fetchData`),
a click on a bar, and the back button (`showMainView`).

- `wrappers.dfy`: `Option`.
- `traffic.dfy` (module `Traffic`): the decoded snapshot. A JSON object is an
  association list in `Object.keys` order. `Keys` is `Object.keys`. `Get` is
  property lookup `t[k]`.
- `projector.dfy` (module `Projector`): the two pure projections.
  - `MainSeries`: clients with their totals.
  - `DrilldownSeries`: one client's protocols, or `None` where the source
    returns early.
- `dashboard.dfy` (module `LiveTraffic`): the `Chart` widget's data and the
  `Dashboard` coordinator class.
  - Its methods mirror `updateMainChart`, `updateDrilldownChart`,
    `showDrilldownView`, `showMainView`, `fetchData` and the chart's `onClick`
    handler.
  - `Valid()` is the invariant that every handler keeps:
    - the view is main exactly when no drill-down id is set;
    - the three chart sequences have equal length;
    - in the main view, the chart is the aggregate projection of the cache;
    - in a drill-down, the id is a client of the cache, and the chart is that
      client's protocol projection whenever one exists. When none exists, the
      chart keeps its earlier bars.

A poll's outcome is a parameter: `Some(snapshot)` is a decoded 200 response.
`None` is a non-ok status or a thrown error. A decoded snapshot has distinct
keys at both levels (`Traffic.WellFormed`), because `JSON.parse` keeps one
entry per key. `FetchData` requires this of the snapshot it is given, and
`Valid()` keeps it for the cache.

Three behaviours of the code are easy to misread. The model follows the code:

- A client whose `protocols` object is present but empty drills into an empty
  chart (zero labels). It is not treated as "not available", because an empty
  object is truthy.
- A click switches the view to drill-down even when the drill-down render then
  returns early. In that case the chart keeps the aggregate bars.
- `showMainView` has no guard. It re-renders the aggregate view from any state.

## Model

| member | source | states |
|---|---|---|
| `Traffic.Keys` | frontend/script.js:37 | `Object.keys` lists one key per entry, in enumeration order |
| `Traffic.Get` | frontend/script.js:52 | a lookup finds a value exactly when the key is present, and that value is stored under the key |
| `Traffic.GetAt` | frontend/script.js:38-39 | with distinct keys, looking up the i-th key yields the i-th value |
| `Projector.MainSeries` | frontend/script.js:36-39 | labels are the snapshot's client ids in order; the two series have the same length; bar i holds the inbound/outbound totals stored under label i; an empty snapshot gives an empty chart |
| `Projector.MainSeriesAt` | frontend/script.js:37-39 | in a decoded snapshot, bar i is exactly client i's (id, inbound, outbound) |
| `Projector.DrilldownSeries` | frontend/script.js:52-57 | not available exactly when the client is missing or has no `protocols` field; otherwise labels are the protocol names in order with matching, equal-length series; an empty `protocols` object gives an empty series |
| `Projector.DrilldownSeriesAt` | frontend/script.js:55-57 | in a decoded snapshot, bar j of a drill-down is exactly protocol j's (name, inbound, outbound) |
| `LiveTraffic.Chart.constructor` | frontend/script.js:135-152 | the chart starts with no labels and empty datasets |
| `LiveTraffic.Dashboard.constructor` | frontend/script.js:10-13 | main view, no drill-down id, empty cache, status connecting (the yellow indicator that lines 120 and 126 remove), empty chart (created at lines 135-152); the invariant holds |
| `LiveTraffic.Dashboard.UpdateMainChart` | frontend/script.js:36-45 | the chart afterwards shows the aggregate projection of the given snapshot |
| `LiveTraffic.Dashboard.UpdateDrilldownChart` | frontend/script.js:51-63 | the chart is left untouched when the client is missing from the cache or lacks `protocols`; otherwise it shows that client's protocol projection |
| `LiveTraffic.Dashboard.ShowDrilldownView` | frontend/script.js:71-78 | view becomes drill-down for the id even if nothing can be drawn; cache and status unchanged; chart is the protocol projection if available, else unchanged; invariant kept |
| `LiveTraffic.Dashboard.ShowMainView` | frontend/script.js:83-90 | from any state with a decoded cache: main view with no drill-down id, cache and status unchanged, chart equals the aggregate projection of the cache; invariant re-established |
| `LiveTraffic.Dashboard.FetchData` | frontend/script.js:98-130 | failure: status Error and cache, view flags and chart untouched. Success: cache replaced wholesale and status Connected. Main view: aggregate render. Drill-down on a client still present: stays, with protocol render or unchanged chart. Client gone: reverts to main with aggregate render |
| `LiveTraffic.Dashboard.OnClick` | frontend/script.js:200-207 | a click outside the main view or on no bar changes nothing; otherwise the view becomes drill-down on the label under the first hit bar, which is a client of the cache, and the chart follows the drill-down rule |
| `LiveTraffic.MainViewShowsClients` | frontend/script.js:36-43 | in the main view, bar i shows exactly the i-th cached client's id, inbound and outbound, in cache order |
| `LiveTraffic.RefetchIsIdempotent` | frontend/script.js:104-117 | polling the snapshot already cached leaves the cache, the view flags and the chart as they were, and only sets the status to Connected |

`LiveTraffic.DrilldownWalkthrough` steps through one scenario:

1. A poll with one client renders one bar pair.
2. A click on it drills into its single protocol.
3. A poll without that client returns to an empty main chart.
4. A failed poll leaves the chart alone.

## Left out

- `formatBytes` (frontend/script.js:22-28): it uses floating-point logarithms and `toFixed`.
- Chart.js construction options are not modelled: colours, axes, tooltips and the label-formatting callbacks. They configure a foreign library. Only the initial empty data is kept.
- DOM effects are not modelled: the back button's `hidden` class, the subtitle text, and the status indicator's colour classes and text. The status is kept as the enum `Status`.
- The status text's timestamp (`toLocaleTimeString`) and `console.error` logging are left out: they read the clock and write a log.
- The HTTP request, `response.json()`, `async`/`await` and the `setInterval` schedule are not modelled. A poll is an already-decoded `Option<Snapshot>`. Overlapping in-flight requests are a concurrency concern and are not modelled.
- A body that parses as JSON but does not have the snapshot's shape is not modelled. One example is `null`, or a client record that is `null`. The code assigns `lastData` before the render throws, so such a poll would change the cache and still report Error. Snapshots here are always well-typed.
- Keys inherited from `Object.prototype` are not modelled. For example, `data["constructor"]` is truthy even when no client has that id. Lookups here see only the snapshot's own keys.
- `Object.keys` puts integer-like keys first in numeric order. The model takes the snapshot's enumeration order as given.
- `LiveTraffic.Dashboard.OnClick`: requires every reported bar index to lie within the current labels. The chart library only reports bars it has drawn. An out-of-range index, which would make JavaScript's id `undefined`, is not modelled.
- `LiveTraffic.Dashboard.ShowDrilldownView`: requires the id to be a client of the cache. Its only caller passes a label of the aggregate chart, and in the main view those labels are exactly the cached client ids.
- `LiveTraffic.Dashboard.ShowMainView`: requires the cache to have distinct keys. The cache only ever holds the initial empty object or a decoded snapshot, so every call meets this.
