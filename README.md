# Stock dashboard session state machine

This project models the client side of a stock prediction dashboard: the
React component `App` in `client/src/App.js`. It holds six pieces of state:

- the ticker catalog;
- the selected ticker (`""` for none);
- the buy/sell mode;
- the last fetched chart images and metrics;
- a `loading` flag.

Its handlers change that state when the user:

- picks a mode;
- picks a ticker;
- presses "Fetch Graph".

A stock-data request settles later, with a response or an error. The page
is then redrawn from the state: the loader, nothing, or a graph section
with a heading and up to four chart images.

Modules:

- `Session` (session.dfy): the state as a value, and one pure transition
  per handler and per settlement.
- `View` (view.dfy): the rendered body as a pure function of the state.
  This covers which images appear, in which order and with what data, the
  heading text, and the drop-down options.
- `Traces` (traces.dfy): events, runs of event sequences, and properties
  that span several events.
- `App` (app.dfy): class `Dashboard`. It has the component's six state
  fields and a ghost count of outstanding requests. Each handler is a
  method that updates the fields in place. Each method is proved to
  produce the `Session` transition of the old state. The object invariant
  says the loader is only up while a request is outstanding.

The model follows the component as written:

- No stale-response guard. A successful response replaces the images and
  metrics whatever ticker is selected when it arrives, so it is shown
  under the newly selected ticker's heading
  (`Traces.StaleResponseShownUnderNewTicker`).
- Choosing a new ticker keeps the old images on screen under the new
  heading.
- The graph section, with its heading and no image, appears as soon as a
  ticker is selected, before any fetch (`Traces.GraphBeforeAnyFetch`).
- Overlapping fetches are not prevented. The first settlement clears
  `loading` while another request is still outstanding, and the last
  successful settlement wins.

## Model

| member | source | states |
|---|---|---|
| `Session.ModeLabel` | client/src/App.js:39-50 | the mode is stored as a non-empty lower-case word, "buy" exactly for Buy |
| `Session.CatalogSettled` | client/src/App.js:13-18 | a catalog response replaces the ticker list; a failure changes nothing; nothing but the list ever changes |
| `Session.SelectMode` | client/src/App.js:39-50 | a mode button sets the mode and changes no other field |
| `Session.SelectTicker` | client/src/App.js:54-56 | a drop-down change sets the selected ticker and changes no other field |
| `Session.FetchRequest` | client/src/App.js:20-25 | a request goes out iff a ticker is selected, and it carries that ticker only (not the mode) |
| `Session.Dispatch` | client/src/App.js:20-23 | a fetch click raises `loading` iff a ticker is selected, changes nothing else, and is a no-op without a ticker |
| `Session.Settle` | client/src/App.js:26-31 | any settlement clears `loading`; success replaces images and metrics with the response's; failure keeps them; ticker, mode and catalog are untouched |
| `Session.SelectModeIdempotent` | client/src/App.js:39-50 | clicking a mode button twice equals clicking it once |
| `Session.SelectTickerIdempotent` | client/src/App.js:54-56 | choosing a ticker twice equals choosing it once |
| `Session.SelectionsCommute` | client/src/App.js:39-56 | mode and ticker selection commute |
| `Session.FetchWithoutTickerIsNoOp` | client/src/App.js:21 | with no ticker selected, a fetch click sends nothing and leaves the state, `loading` included, unchanged |
| `Session.SuccessDropsMissingKeys` | client/src/App.js:26-29 | a success does not merge: a key absent from the response is gone afterwards |
| `Session.FailedFetchRestoresState` | client/src/App.js:20-31 | a dispatch followed by a failed settlement, from an idle state, gives back exactly that state |
| `Session.FirstSettlementClearsLoading` | client/src/App.js:23-31 | with two requests dispatched, the first settlement of either kind clears `loading` |
| `View.Rank` | client/src/App.js:125-148 | every artifact has a position in the fixed display order |
| `View.PicturesFrom` | client/src/App.js:125-148 | the checks from a position in the display order on yield at most one picture per remaining artifact |
| `View.PicturesFromSound` | client/src/App.js:125-148 | every picture is of an artifact whose entry is truthy, at or after the starting position, and shows that entry's data |
| `View.PicturesFromOrdered` | client/src/App.js:125-148 | the pictures follow the display order strictly, so none appears twice |
| `View.PicturesFromComplete` | client/src/App.js:125-148 | every truthy artifact at or after the starting position has its picture |
| `View.Pictures` | client/src/App.js:125-148 | the images shown are exactly the artifacts whose entry is present and non-empty, at most four, in the order closingPrice, ma100, ma100ma200, prediction, each showing its own base64 data; none at all when no entry is truthy |
| `View.UpperChar` | client/src/App.js:122 | a lower-case letter becomes the matching capital; nothing else changes; no lower-case letter remains |
| `View.Upper` | client/src/App.js:122 | upper-casing a string keeps its length and upper-cases each character |
| `View.HeadingText` | client/src/App.js:121-123 | the heading reads "BUY Signals for T" or "SELL Signals for T" for the selected ticker T |
| `View.Render` | client/src/App.js:68-151 | the loader shows iff `loading`; the graph section shows iff not loading and a ticker is selected, with the mode's heading and the pictures of the current images |
| `View.DropdownOptions` | client/src/App.js:58-63 | the drop-down lists the "Select Company" placeholder with value "", then one option per catalog ticker in catalog order |
| `View.RenderIgnoresMetrics` | client/src/App.js:105-151 | metrics never change what is rendered |
| `View.AllArtifactsInOrder` | client/src/App.js:125-148 | with all four artifacts present, four pictures appear in the fixed order |
| `View.OldImagesUnderNewHeading` | client/src/App.js:105-148 | choosing another ticker while idle shows the previous images under the new ticker's heading |
| `View.HalfSettledRendersLoader` | client/src/App.js:26-31 | between applying a response and clearing `loading` the page shows only the loader |
| `View.HalfSettledAfterEarlierSettlement` | client/src/App.js:26-31 | if an earlier settlement already cleared `loading`, the half-applied response renders exactly as the completed settlement does |
| `Traces.RunAppend` | client/src/App.js:20-56 | running two event sequences in turn is running their concatenation |
| `Traces.SelectionsNeverFetch` | client/src/App.js:39-56 | any sequence of mode, ticker and catalog events leaves images, metrics and `loading` unchanged, and selects the last ticker chosen |
| `Traces.NoSuccessKeepsResult` | client/src/App.js:26-31 | events without a successful settlement never change images or metrics |
| `Traces.LastSuccessWins` | client/src/App.js:26-29 | the images and metrics held at the end are those of the last successful settlement |
| `Traces.SettlementEndsLoader` | client/src/App.js:31 | after any settlement the loader is gone, even with requests still outstanding |
| `Traces.GraphBeforeAnyFetch` | client/src/App.js:105-123 | before any fetch, a selected ticker already shows the graph section with its heading and no image |
| `Traces.StaleResponseShownUnderNewTicker` | client/src/App.js:20-31 | a response for ticker A arriving after ticker B was chosen is shown under B's heading |
| `Traces.SingleChartScenario` | client/src/App.js:13-148 | catalog AAPL/MSFT, AAPL, buy, response with only a closing-price chart: heading "BUY Signals for AAPL" and exactly that one image |
| `App.Dashboard.constructor` | client/src/App.js:6-11 | on mount: empty catalog, no ticker, buy mode, no images or metrics, not loading, nothing pending |
| `App.Dashboard.CatalogSettle` | client/src/App.js:13-18 | updates the fields as `CatalogSettled` prescribes |
| `App.Dashboard.ChooseMode` | client/src/App.js:39-50 | updates the fields as `SelectMode` prescribes |
| `App.Dashboard.ChooseTicker` | client/src/App.js:54-56 | updates the fields as `SelectTicker` prescribes |
| `App.Dashboard.FetchStockData` | client/src/App.js:20-25 | returns the request `FetchRequest` prescribes, applies `Dispatch`, and counts one more pending request iff one was sent |
| `App.Dashboard.Settle` | client/src/App.js:26-31 | applies `Session.Settle` to the fields and retires one pending request, keeping the loader-implies-pending invariant |
| `App.OverlappingFetches` | client/src/App.js:20-31 | on the class: fetches for AAPL then MSFT both send a request, and the first settlement drops the loader and shows its response under MSFT's heading |

## Left out

- The backend (`server/app.py`) is not part of this model. It downloads
  prices, draws and PNG-encodes charts, and computes floating-point
  metrics, all through foreign libraries.
- HTTP transport is not modelled: URLs, axios, and the mapping from error
  statuses (404, 500) or network errors to a rejected promise. A fetch is
  a dispatch event plus a later settlement event.
- The React runtime is not modelled: mounting, re-rendering, batching of
  setters. A settlement is one event. The intermediate render between
  `setImages` and `setLoading(false)` is the loader while `loading` is up
  (`View.HalfSettledRendersLoader`). When an earlier settlement already
  dropped it, that render equals the final one
  (`View.HalfSettledAfterEarlierSettlement`).
- Image payloads are opaque strings. Only empty versus non-empty matters,
  as JavaScript truthiness does. Metrics are `real` values that nothing
  reads.
- A response without an `images` object, or a catalog that is not a list,
  is not modelled. Either would make the page throw while rendering; the
  backend always sends both.
- Styling is not modelled: the active-button CSS class, the title, the
  SVG loader animation, and the commented-out second loader and metrics
  panel.
- `View.Upper` upper-cases ASCII letters only, where `toUpperCase` covers
  all of Unicode. Only "buy" and "sell" ever reach it.
- `App.Dashboard.ChooseTicker` accepts any string. The browser only ever
  delivers the value of one of the drop-down's options.
- `App.Dashboard.Settle` requires an outstanding request. The promise
  runtime only settles requests that were sent.
