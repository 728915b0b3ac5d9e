/** The dashboard component as an object: its six state fields, updated in
    place by one method per handler, each proved to apply the matching
    transition of module Session. */
module App {
  import opened Session
  import opened View

  class Dashboard {
    var tickers: seq<string>
    var selectedTicker: string
    var mode: Mode
    var images: map<string, string>
    var metrics: map<string, real>
    var loading: bool

    /** Stock-data requests sent and not yet settled; they live in the
        HTTP client, not in the component. */
    ghost var pending: nat

    /** The loader is only up while some request is outstanding. The
        converse does not hold: the first settlement of two overlapping
        requests drops the loader while the second is still pending. */
    ghost predicate Valid()
      reads this
    {
      loading ==> pending > 0
    }

    /** The component's state as a value. */
    function Snapshot(): State
      reads this
    {
      State(tickers, selectedTicker, mode, images, metrics, loading)
    }

    /** What the component currently renders below its controls. */
    function Page(): Body
      reads this
    {
      Render(Snapshot())
    }

    /** The component mounts with its initial state and nothing in flight. */
    constructor ()
      ensures Valid() && pending == 0
      ensures Snapshot() == Initial
    {
      tickers := [];
      selectedTicker := "";
      images := map[];
      metrics := map[];
      mode := Buy;
      loading := false;
      pending := 0;
    }

    /** The ticker catalog request settles. */
    method CatalogSettle(success: bool, list: seq<string>)
      requires Valid()
      modifies this
      ensures Valid() && pending == old(pending)
      ensures Snapshot() == CatalogSettled(old(Snapshot()), success, list)
    {
      if success {
        tickers := list;
      }
    }

    /** A click on the Buy or Sell button. */
    method ChooseMode(m: Mode)
      requires Valid()
      modifies this
      ensures Valid() && pending == old(pending)
      ensures Snapshot() == SelectMode(old(Snapshot()), m)
    {
      mode := m;
    }

    /** A change of the ticker drop-down. */
    method ChooseTicker(t: string)
      requires Valid()
      modifies this
      ensures Valid() && pending == old(pending)
      ensures Snapshot() == SelectTicker(old(Snapshot()), t)
    {
      selectedTicker := t;
    }

    /** A click on "Fetch Graph": returns the request sent, if any. */
    method FetchStockData() returns (sent: Option<Request>)
      requires Valid()
      modifies this
      ensures Valid()
      ensures sent == FetchRequest(old(Snapshot()))
      ensures Snapshot() == Dispatch(old(Snapshot()))
      ensures pending == old(pending) + (if sent.Some? then 1 else 0)
    {
      if selectedTicker == "" {
        return None;
      }
      loading := true;
      sent := Some(Request(selectedTicker));
      pending := pending + 1;
    }

    /** One outstanding stock-data request settles, with its response on
        success; the response is applied before `loading` is cleared. */
    method Settle(success: bool, payload: Response)
      requires Valid() && pending > 0
      modifies this
      ensures Valid() && pending == old(pending) - 1
      ensures Snapshot() == Session.Settle(old(Snapshot()), success, payload)
    {
      if success {
        images := payload.images;
        metrics := payload.metrics;
      }
      loading := false;
      pending := pending - 1;
    }
  }

  /** Two overlapping fetches, for AAPL and then MSFT: both requests go
      out, and the first settlement, whichever request it answers, drops
      the loader while the other request is still pending and shows its
      response under MSFT's heading. */
  method OverlappingFetches(p: Response) returns (first: Option<Request>, second: Option<Request>, view: Body)
    ensures first == Some(Request("AAPL")) && second == Some(Request("MSFT"))
    ensures view == Graph(Heading(Buy, "MSFT"), Pictures(p.images))
  {
    var d := new Dashboard();
    d.ChooseTicker("AAPL");
    first := d.FetchStockData();
    assert d.Page() == Loader;
    d.ChooseTicker("MSFT");
    second := d.FetchStockData();
    assert d.pending == 2;
    d.Settle(true, p);
    assert !d.loading && d.pending == 1;
    view := d.Page();
  }
}
