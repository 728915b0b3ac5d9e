/** Sequences of events as the dashboard component receives them, and
    properties of whole sequences: what selections never touch, which
    response ends up on screen, and how a stale response is shown. */
module Traces {
  import opened Session
  import opened View

  /** One event the component reacts to. A request's settlement is its
      own event, delivered at some later point than the click that sent it. */
  datatype Event =
    | CatalogLoaded(ok: bool, list: seq<string>)
    | ModeClicked(mode: Mode)
    | TickerChanged(ticker: string)
    | FetchClicked
    | FetchSettled(success: bool, response: Response)

  /** The state after one event. */
  function Step(s: State, e: Event): State
  {
    match e
    case CatalogLoaded(ok, list) => CatalogSettled(s, ok, list)
    case ModeClicked(m) => SelectMode(s, m)
    case TickerChanged(t) => SelectTicker(s, t)
    case FetchClicked => Dispatch(s)
    case FetchSettled(success, p) => Settle(s, success, p)
  }

  /** The state after a sequence of events, applied in order. */
  function Run(s: State, events: seq<Event>): State
    decreases |events|
  {
    if events == [] then s else Run(Step(s, events[0]), events[1..])
  }

  /** Events that involve no stock-data request at all. */
  predicate NoFetch(e: Event)
  {
    e.CatalogLoaded? || e.ModeClicked? || e.TickerChanged?
  }

  /** A stock-data request that settled with a response. */
  predicate SuccessfulSettle(e: Event)
  {
    e.FetchSettled? && e.success
  }

  /** The ticker selected after `events`, starting from `current`. */
  function LastTicker(current: string, events: seq<Event>): string
    decreases |events|
  {
    if events == [] then current
    else LastTicker(if events[0].TickerChanged? then events[0].ticker else current, events[1..])
  }

  /** Running a sequence is taking its first step, then running the rest. */
  lemma RunCons(s: State, e: Event, rest: seq<Event>)
    ensures Run(s, [e] + rest) == Run(Step(s, e), rest)
  {
    assert ([e] + rest)[1..] == rest;
  }

  /** Running two sequences one after the other is running their concatenation. */
  lemma {:induction false} RunAppend(s: State, a: seq<Event>, b: seq<Event>)
    ensures Run(s, a + b) == Run(Run(s, a), b)
    decreases |a|
  {
    if a == [] {
      assert a + b == b;
    } else {
      assert (a + b)[0] == a[0] && (a + b)[1..] == a[1..] + b;
      RunAppend(Step(s, a[0]), a[1..], b);
    }
  }

  /** Selecting modes and tickers and loading the catalog, in any number and
      order, never touches the images, metrics or loading flag: fetching is
      never implicit. The selected ticker is the last one chosen. */
  lemma {:induction false} SelectionsNeverFetch(s: State, events: seq<Event>)
    requires forall i :: 0 <= i < |events| ==> NoFetch(events[i])
    ensures Run(s, events).images == s.images
    ensures Run(s, events).metrics == s.metrics
    ensures Run(s, events).loading == s.loading
    ensures Run(s, events).selectedTicker == LastTicker(s.selectedTicker, events)
    decreases |events|
  {
    if events != [] {
      SelectionsNeverFetch(Step(s, events[0]), events[1..]);
    }
  }

  /** Events after which no response arrives keep the images and metrics. */
  lemma {:induction false} NoSuccessKeepsResult(s: State, events: seq<Event>)
    requires forall i :: 0 <= i < |events| ==> !SuccessfulSettle(events[i])
    ensures Run(s, events).images == s.images
    ensures Run(s, events).metrics == s.metrics
    decreases |events|
  {
    if events != [] {
      NoSuccessKeepsResult(Step(s, events[0]), events[1..]);
    }
  }

  /** The last successful settlement wins: its response's images and
      metrics are the ones held at the end, whichever request it answered
      and whatever ticker is selected by then. */
  lemma LastSuccessWins(s: State, before: seq<Event>, p: Response, after: seq<Event>)
    requires forall i :: 0 <= i < |after| ==> !SuccessfulSettle(after[i])
    ensures Run(s, before + [FetchSettled(true, p)] + after).images == p.images
    ensures Run(s, before + [FetchSettled(true, p)] + after).metrics == p.metrics
  {
    RunAppend(s, before + [FetchSettled(true, p)], after);
    RunAppend(s, before, [FetchSettled(true, p)]);
    NoSuccessKeepsResult(Run(s, before + [FetchSettled(true, p)]), after);
  }

  /** After any sequence that ends with a settlement, success or failure,
      the loader is gone, even if other requests are still outstanding. */
  lemma SettlementEndsLoader(s: State, events: seq<Event>, success: bool, p: Response)
    ensures Render(Run(s, events + [FetchSettled(success, p)])) != Loader
  {
    RunAppend(s, events, [FetchSettled(success, p)]);
  }

  /** Before any fetch, choosing a ticker already shows the graph section,
      with its heading and no image at all. */
  lemma GraphBeforeAnyFetch(events: seq<Event>)
    requires forall i :: 0 <= i < |events| ==> NoFetch(events[i])
    requires LastTicker("", events) != ""
    ensures Render(Run(Initial, events)) ==
      Graph(Heading(Run(Initial, events).mode, LastTicker("", events)), [])
  {
    SelectionsNeverFetch(Initial, events);
  }

  /** The response to a request for one ticker, arriving after another
      ticker was chosen, is shown under the newly chosen ticker's heading:
      the component keeps no stale-response guard. */
  lemma StaleResponseShownUnderNewTicker(s: State, other: string, p: Response)
    requires !s.loading && s.selectedTicker != "" && other != ""
    ensures FetchRequest(s) == Some(Request(s.selectedTicker))
    ensures Render(Run(s, [FetchClicked, TickerChanged(other), FetchSettled(true, p)])) ==
      Graph(Heading(s.mode, other), Pictures(p.images))
  {
    var events := [FetchClicked, TickerChanged(other), FetchSettled(true, p)];
    var s1 := Dispatch(s);
    var s2 := SelectTicker(s1, other);
    RunCons(s, events[0], events[1..]);
    RunCons(s1, events[1], events[2..]);
    RunCons(s2, events[2], events[3..]);
    assert events[1..] == [events[1]] + events[2..];
    assert events[2..] == [events[2]] + events[3..];
    assert Run(s, events) == Settle(s2, true, p);
  }

  /** The end-to-end walk through one fetch: catalog ["AAPL", "MSFT"],
      ticker AAPL, mode buy, a response holding only a closing-price chart. */
  lemma SingleChartScenario()
    ensures Render(Run(Initial, [
      CatalogLoaded(true, ["AAPL", "MSFT"]), TickerChanged("AAPL"), ModeClicked(Buy),
      FetchClicked, FetchSettled(true, Response(map["closingPrice" := "X"], map[]))]))
      == Graph("BUY Signals for AAPL", [Picture(ClosingPrice, "X")])
  {
    var p := Response(map["closingPrice" := "X"], map[]);
    var events := [
      CatalogLoaded(true, ["AAPL", "MSFT"]), TickerChanged("AAPL"), ModeClicked(Buy),
      FetchClicked, FetchSettled(true, p)];
    var s1 := CatalogSettled(Initial, true, ["AAPL", "MSFT"]);
    var s2 := SelectTicker(s1, "AAPL");
    var s3 := SelectMode(s2, Buy);
    var s4 := Dispatch(s3);
    RunCons(Initial, events[0], events[1..]);
    RunCons(s1, events[1], events[2..]);
    RunCons(s2, events[2], events[3..]);
    RunCons(s3, events[3], events[4..]);
    RunCons(s4, events[4], events[5..]);
    assert events[1..] == [events[1]] + events[2..];
    assert events[2..] == [events[2]] + events[3..];
    assert events[3..] == [events[3]] + events[4..];
    assert events[4..] == [events[4]] + events[5..];
    assert Run(Initial, events) == Settle(s4, true, p);
    SingleChartView(Settle(s4, true, p));
  }

  /** The view at the end of the walk-through. */
  lemma SingleChartView(s: State)
    requires !s.loading && s.selectedTicker == "AAPL" && s.mode == Buy
    requires s.images == map["closingPrice" := "X"]
    ensures Render(s) == Graph("BUY Signals for AAPL", [Picture(ClosingPrice, "X")])
  {
    HeadingText(Buy, "AAPL");
    assert Heading(Buy, "AAPL") == "BUY Signals for AAPL";
    PicturesOfClosingPriceOnly(s.images);
  }

  /** Images holding only a closing-price chart render as that one picture. */
  lemma PicturesOfClosingPriceOnly(images: map<string, string>)
    requires images == map["closingPrice" := "X"]
    ensures Pictures(images) == [Picture(ClosingPrice, "X")]
  {
    assert !Truthy(images, Ma100) && !Truthy(images, Ma100Ma200) && !Truthy(images, Prediction);
    assert PicturesFrom(images, 4) == [];
    assert PicturesFrom(images, 3) == [];
    assert PicturesFrom(images, 2) == [];
    assert PicturesFrom(images, 1) == [];
    assert PicturesFrom(images, 0) == [Picture(ClosingPrice, "X")];
  }
}
