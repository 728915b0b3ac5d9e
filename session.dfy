/** The session state of the stock dashboard component and the pure
    transitions that its event handlers apply to it. Each transition is
    the effect of one handler once React has applied its state setters. */
module Session {

  datatype Option<T> = None | Some(value: T)

  /** The trading mode chosen with the Buy and Sell buttons. */
  datatype Mode = Buy | Sell

  /** The string the component keeps in its `mode` state for a mode. */
  function ModeLabel(m: Mode): (name: string)
    ensures |name| > 0
    ensures forall i :: 0 <= i < |name| ==> 'a' <= name[i] <= 'z'
    ensures m == Buy <==> name == "buy"
  {
    match m
    case Buy => "buy"
    case Sell => "sell"
  }

  /** The body of a successful stock-data response: chart images as
      base64 strings keyed by artifact name, and numeric metrics. */
  datatype Response = Response(images: map<string, string>, metrics: map<string, real>)

  /** The body the component posts to the stock-data endpoint. */
  datatype Request = Request(ticker: string)

  /** The component's state; `selectedTicker == ""` means no ticker. */
  datatype State = State(
    tickers: seq<string>,
    selectedTicker: string,
    mode: Mode,
    images: map<string, string>,
    metrics: map<string, real>,
    loading: bool)

  /** The state on mount: no catalog, no selection, buy mode, nothing fetched. */
  const Initial: State := State([], "", Buy, map[], map[], false)

  /** The ticker catalog request settles: on success the list replaces
      `tickers`; on failure the error is only logged. */
  function CatalogSettled(s: State, success: bool, list: seq<string>): (r: State)
    ensures success ==> r.tickers == list
    ensures !success ==> r == s
    ensures r.(tickers := s.tickers) == s
  {
    if success then s.(tickers := list) else s
  }

  /** A Buy or Sell button is clicked. */
  function SelectMode(s: State, m: Mode): (r: State)
    ensures r.mode == m
    ensures r.(mode := s.mode) == s
  {
    s.(mode := m)
  }

  /** The ticker drop-down changes to `t` ("" is the placeholder option). */
  function SelectTicker(s: State, t: string): (r: State)
    ensures r.selectedTicker == t
    ensures r.(selectedTicker := s.selectedTicker) == s
  {
    s.(selectedTicker := t)
  }

  /** The request that a click on "Fetch Graph" sends, if any: none when no
      ticker is selected, otherwise one carrying only the selected ticker
      (the mode is not sent). */
  function FetchRequest(s: State): (req: Option<Request>)
    ensures req.Some? <==> s.selectedTicker != ""
    ensures req.Some? ==> req.value.ticker == s.selectedTicker
  {
    if s.selectedTicker == "" then None else Some(Request(s.selectedTicker))
  }

  /** The state right after a click on "Fetch Graph": `loading` is raised
      exactly when a request goes out, even if another is still outstanding. */
  function Dispatch(s: State): (r: State)
    ensures r.loading == (s.loading || s.selectedTicker != "")
    ensures r.(loading := s.loading) == s
    ensures FetchRequest(s).None? ==> r == s
  {
    if s.selectedTicker == "" then s else s.(loading := true)
  }

  /** A stock-data request settles. On success the response's images and
      metrics replace the current ones wholesale, whatever ticker is
      selected now; on failure they are kept. Either way `loading` drops. */
  function Settle(s: State, success: bool, p: Response): (r: State)
    ensures !r.loading
    ensures r.tickers == s.tickers && r.selectedTicker == s.selectedTicker && r.mode == s.mode
    ensures success ==> r.images == p.images && r.metrics == p.metrics
    ensures !success ==> r.images == s.images && r.metrics == s.metrics
  {
    var r := if success then s.(images := p.images, metrics := p.metrics) else s;
    r.(loading := false)
  }

  /** Clicking a mode button twice is the same as clicking it once. */
  lemma SelectModeIdempotent(s: State, m: Mode)
    ensures SelectMode(SelectMode(s, m), m) == SelectMode(s, m)
  {
  }

  /** Choosing the same ticker twice is the same as choosing it once. */
  lemma SelectTickerIdempotent(s: State, t: string)
    ensures SelectTicker(SelectTicker(s, t), t) == SelectTicker(s, t)
  {
  }

  /** Mode and ticker selection are independent of each other. */
  lemma SelectionsCommute(s: State, m: Mode, t: string)
    ensures SelectMode(SelectTicker(s, t), m) == SelectTicker(SelectMode(s, m), t)
  {
  }

  /** Without a selected ticker, a fetch click sends nothing and changes nothing. */
  lemma FetchWithoutTickerIsNoOp(s: State)
    requires s.selectedTicker == ""
    ensures FetchRequest(s) == None && Dispatch(s) == s
  {
  }

  /** A successful settlement does not merge: a key absent from the new
      response is gone, whatever the previous images held. */
  lemma SuccessDropsMissingKeys(s: State, p: Response, key: string)
    requires key in s.images && key !in p.images
    ensures key !in Settle(s, true, p).images
  {
  }

  /** A failed round trip from an idle state restores that state exactly. */
  lemma FailedFetchRestoresState(s: State, p: Response)
    requires !s.loading
    ensures Settle(Dispatch(s), false, p) == s
  {
  }

  /** Two overlapping requests: the first settlement, even a failure,
      clears `loading` although the second is still outstanding. */
  lemma FirstSettlementClearsLoading(s: State, p: Response, success: bool)
    requires s.selectedTicker != ""
    ensures Dispatch(Dispatch(s)).loading
    ensures !Settle(Dispatch(Dispatch(s)), success, p).loading
  {
  }
}
