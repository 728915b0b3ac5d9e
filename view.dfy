/** What the dashboard component renders for a given session state: the
    loader, nothing, or the graph section with its heading and the chart
    images in a fixed order; and the options of the ticker drop-down. */
module View {
  import opened Session

  /** The four chart artifacts the graph section knows about. */
  datatype ArtifactKey = ClosingPrice | Ma100 | Ma100Ma200 | Prediction

  /** The order in which the graph section lists the artifacts. */
  const ArtifactOrder: seq<ArtifactKey> := [ClosingPrice, Ma100, Ma100Ma200, Prediction]

  /** The property name under which an artifact sits in the `images` object. */
  function KeyName(k: ArtifactKey): string
  {
    match k
    case ClosingPrice => "closingPrice"
    case Ma100 => "ma100"
    case Ma100Ma200 => "ma100ma200"
    case Prediction => "prediction"
  }

  /** The position of an artifact in ArtifactOrder. */
  function Rank(k: ArtifactKey): (r: nat)
    ensures r < |ArtifactOrder| && ArtifactOrder[r] == k
  {
    match k
    case ClosingPrice => 0
    case Ma100 => 1
    case Ma100Ma200 => 2
    case Prediction => 3
  }

  /** JavaScript truthiness of `images[KeyName(k)]`: present and not the empty string. */
  predicate Truthy(images: map<string, string>, k: ArtifactKey)
  {
    KeyName(k) in images && images[KeyName(k)] != ""
  }

  /** One rendered chart image: which artifact, and the base64 data it shows. */
  datatype Picture = Picture(key: ArtifactKey, payload: string)

  /** The rendered pictures include artifact `k`. */
  ghost predicate Shows(pictures: seq<Picture>, k: ArtifactKey)
  {
    exists i :: 0 <= i < |pictures| && pictures[i].key == k
  }

  /** The pictures for the artifacts from position `from` of ArtifactOrder
      on: one per artifact whose entry is truthy, in that order. */
  function PicturesFrom(images: map<string, string>, from: nat): (r: seq<Picture>)
    requires from <= |ArtifactOrder|
    ensures |r| <= |ArtifactOrder| - from
    decreases |ArtifactOrder| - from
  {
    if from == |ArtifactOrder| then []
    else
      var k := ArtifactOrder[from];
      var rest := PicturesFrom(images, from + 1);
      if Truthy(images, k) then [Picture(k, images[KeyName(k)])] + rest else rest
  }

  /** Every picture is of a truthy artifact at or after `from`, showing its own data. */
  lemma {:induction false} PicturesFromSound(images: map<string, string>, from: nat)
    requires from <= |ArtifactOrder|
    ensures forall p :: p in PicturesFrom(images, from) ==>
      from <= Rank(p.key) && Truthy(images, p.key) && p.payload == images[KeyName(p.key)]
    decreases |ArtifactOrder| - from
  {
    if from < |ArtifactOrder| {
      PicturesFromSound(images, from + 1);
    }
  }

  /** The pictures follow ArtifactOrder strictly. */
  lemma {:induction false} PicturesFromOrdered(images: map<string, string>, from: nat)
    requires from <= |ArtifactOrder|
    ensures forall i, j :: 0 <= i < j < |PicturesFrom(images, from)| ==>
      Rank(PicturesFrom(images, from)[i].key) < Rank(PicturesFrom(images, from)[j].key)
    decreases |ArtifactOrder| - from
  {
    if from < |ArtifactOrder| {
      PicturesFromOrdered(images, from + 1);
      PicturesFromSound(images, from + 1);
      var rest := PicturesFrom(images, from + 1);
      assert forall i :: 0 <= i < |rest| ==> from < Rank(rest[i].key) by {
        forall i | 0 <= i < |rest| ensures from < Rank(rest[i].key) {
          assert rest[i] in rest;
        }
      }
    }
  }

  /** Every truthy artifact at or after `from` has its picture. */
  lemma {:induction false} PicturesFromComplete(images: map<string, string>, from: nat)
    requires from <= |ArtifactOrder|
    ensures forall k :: from <= Rank(k) && Truthy(images, k) ==>
      Picture(k, images[KeyName(k)]) in PicturesFrom(images, from)
    decreases |ArtifactOrder| - from
  {
    if from < |ArtifactOrder| {
      PicturesFromComplete(images, from + 1);
    }
  }

  /** The chart images of the graph section: exactly the artifacts whose
      entry is truthy, each once, in ArtifactOrder, showing its own data. */
  function Pictures(images: map<string, string>): (r: seq<Picture>)
    ensures |r| <= 4
    ensures forall k :: Shows(r, k) <==> Truthy(images, k)
    ensures forall i :: 0 <= i < |r| ==> Truthy(images, r[i].key) && r[i].payload == images[KeyName(r[i].key)]
    ensures forall i, j :: 0 <= i < j < |r| ==> Rank(r[i].key) < Rank(r[j].key)
    ensures (forall k :: !Truthy(images, k)) ==> r == []
  {
    PicturesFromSound(images, 0);
    PicturesFromOrdered(images, 0);
    PicturesFromComplete(images, 0);
    var r := PicturesFrom(images, 0);
    assert forall i :: 0 <= i < |r| ==> r[i] in r;
    assert forall k :: Truthy(images, k) ==> Shows(r, k) by {
      forall k | Truthy(images, k) ensures Shows(r, k) {
        var i :| 0 <= i < |r| && r[i] == Picture(k, images[KeyName(k)]);
      }
    }
    r
  }

  /** `toUpperCase` on one character, for the ASCII letters. */
  function UpperChar(c: char): (r: char)
    ensures !('a' <= r <= 'z')
    ensures 'a' <= c <= 'z' ==> 'A' <= r <= 'Z' && r as int - 'A' as int == c as int - 'a' as int
    ensures 'a' <= c <= 'z' || r == c
  {
    if 'a' <= c <= 'z' then (c as int - 32) as char else c
  }

  /** `toUpperCase` on a string, character by character. */
  function Upper(s: string): (r: string)
    ensures |r| == |s|
    ensures forall i :: 0 <= i < |s| ==> r[i] == UpperChar(s[i])
  {
    if s == [] then [] else [UpperChar(s[0])] + Upper(s[1..])
  }

  /** The graph section's heading. */
  function Heading(m: Mode, ticker: string): string
  {
    Upper(ModeLabel(m)) + " Signals for " + ticker
  }

  /** The heading reads "BUY Signals for T" or "SELL Signals for T". */
  lemma HeadingText(m: Mode, ticker: string)
    ensures Heading(m, ticker) == (if m == Buy then "BUY" else "SELL") + " Signals for " + ticker
  {
    var name := ModeLabel(m);
    if m == Buy {
      assert Upper(name) == "BUY";
    } else {
      assert Upper(name) == "SELL";
    }
  }

  /** What the area below the controls shows. */
  datatype Body = Loader | NoGraph | Graph(heading: string, pictures: seq<Picture>)

  /** The conditional part of the page: the loader while a request is
      pending; otherwise the graph section as soon as a ticker is selected. */
  function Render(s: State): (v: Body)
    ensures v.Loader? <==> s.loading
    ensures v.Graph? <==> !s.loading && s.selectedTicker != ""
    ensures v.Graph? ==> v.heading == Heading(s.mode, s.selectedTicker) && v.pictures == Pictures(s.images)
  {
    if s.loading then Loader
    else if s.selectedTicker != "" then Graph(Heading(s.mode, s.selectedTicker), Pictures(s.images))
    else NoGraph
  }

  /** An option of the ticker drop-down. */
  datatype Choice = Choice(value: string, text: string)

  /** The drop-down's options: the placeholder, then one per catalog ticker in catalog order. */
  function DropdownOptions(tickers: seq<string>): (opts: seq<Choice>)
    ensures |opts| == |tickers| + 1
    ensures opts[0] == Choice("", "Select Company")
    ensures forall i :: 0 <= i < |tickers| ==> opts[i + 1] == Choice(tickers[i], tickers[i])
  {
    [Choice("", "Select Company")] + seq(|tickers|, i requires 0 <= i < |tickers| => Choice(tickers[i], tickers[i]))
  }

  /** Metrics never affect what is rendered. */
  lemma RenderIgnoresMetrics(s: State, metrics: map<string, real>)
    ensures Render(s.(metrics := metrics)) == Render(s)
  {
  }

  /** With all four artifacts present, the four pictures appear in the fixed
      order, whatever order the response listed them in. */
  lemma AllArtifactsInOrder(images: map<string, string>)
    requires Truthy(images, ClosingPrice) && Truthy(images, Ma100)
    requires Truthy(images, Ma100Ma200) && Truthy(images, Prediction)
    ensures Pictures(images) == [
      Picture(ClosingPrice, images["closingPrice"]), Picture(Ma100, images["ma100"]),
      Picture(Ma100Ma200, images["ma100ma200"]), Picture(Prediction, images["prediction"])]
  {
    assert PicturesFrom(images, 4) == [];
    assert PicturesFrom(images, 3) == [Picture(Prediction, images["prediction"])];
    assert PicturesFrom(images, 2) == [Picture(Ma100Ma200, images["ma100ma200"])] + PicturesFrom(images, 3);
    assert PicturesFrom(images, 1) == [Picture(Ma100, images["ma100"])] + PicturesFrom(images, 2);
    assert PicturesFrom(images, 0) == [Picture(ClosingPrice, images["closingPrice"])] + PicturesFrom(images, 1);
  }

  /** Choosing another ticker while idle shows the old images under the new
      ticker's heading: nothing clears them. */
  lemma OldImagesUnderNewHeading(s: State, t: string)
    requires !s.loading && t != ""
    ensures Render(SelectTicker(s, t)) == Graph(Heading(s.mode, t), Pictures(s.images))
  {
  }

  /** While a settlement is half applied (new images and metrics set,
      `loading` not yet cleared), the page still shows only the loader. */
  lemma HalfSettledRendersLoader(s: State, p: Response)
    requires s.loading
    ensures Render(s.(images := p.images, metrics := p.metrics)) == Loader
  {
  }

  /** When an earlier settlement of overlapping requests has already cleared
      `loading`, the half-applied settlement renders what the whole one does. */
  lemma HalfSettledAfterEarlierSettlement(s: State, p: Response)
    requires !s.loading
    ensures Render(s.(images := p.images, metrics := p.metrics)) == Render(Settle(s, true, p))
  {
  }
}
