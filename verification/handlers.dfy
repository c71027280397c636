/** `EventHandlers`: what the generate and download buttons compute. The
    two variants of the program share this code except for the parser. */
module Handlers {
  import opened Optional
  import opened Strings
  import opened Utils
  import opened Page
  import opened Product
  import opened Canvas
  import opened ImageFit
  import Renderer
  import EnhancedParser
  import OriginalParser

  /** The URL field: trimmed, refused when blank, otherwise normalised. */
  function PrepareUrl(input: string): (r: Option<string>)
    ensures r.None? <==> Trim(input) == []
    ensures r.Some? ==> r.value != [] && (HasHttpScheme(r.value) || Contains(r.value, "://"))
    ensures r.Some? ==> r == Some(NormalizeUrl(Trim(input)))
  {
    var url := Trim(input);
    if url == [] then None else Some(NormalizeUrl(url))
  }

  /** The manual title and subtitle fields replace the extracted ones when
      they are not blank once trimmed. */
  function ApplyOverrides(data: ProductRecord, titleOverride: string, subtitleOverride: string): (r: ProductRecord)
    ensures r.name == (if Trim(titleOverride) != [] then Trim(titleOverride) else data.name)
    ensures r.subtitle == (if Trim(subtitleOverride) != [] then Trim(subtitleOverride) else data.subtitle)
    // every other field is left as it was
    ensures r.(name := data.name, subtitle := data.subtitle) == data
    ensures r.url == data.url
  {
    var withTitle := if Trim(titleOverride) != [] then data.(name := Trim(titleOverride)) else data;
    if Trim(subtitleOverride) != [] then withTitle.(subtitle := Trim(subtitleOverride)) else withTitle
  }

  /** Blank overrides change nothing. */
  lemma BlankOverridesKeep(data: ProductRecord, titleOverride: string, subtitleOverride: string)
    requires Trim(titleOverride) == [] && Trim(subtitleOverride) == []
    ensures ApplyOverrides(data, titleOverride, subtitleOverride) == data
  {
    var r := ApplyOverrides(data, titleOverride, subtitleOverride);
    assert r.(name := data.name, subtitle := data.subtitle) == r;
  }

  /** Applying the same overrides twice is applying them once. */
  lemma OverridesIdempotent(data: ProductRecord, titleOverride: string, subtitleOverride: string)
    ensures var once := ApplyOverrides(data, titleOverride, subtitleOverride);
      ApplyOverrides(once, titleOverride, subtitleOverride) == once
  {
    var once := ApplyOverrides(data, titleOverride, subtitleOverride);
    var twice := ApplyOverrides(once, titleOverride, subtitleOverride);
    assert twice.(name := once.name, subtitle := once.subtitle) == once;
  }

  const DownloadSuffix: string := "_海报.png"
  const DefaultDownloadName: string := "产品海报.png"
  /** The longest stem taken from the product name. */
  const MaxStem: nat := 20

  /** The download file name: the first 20 characters of the product name
      and `_海报.png`, or a fixed name when no poster was generated. */
  function DownloadName(current: Option<ProductRecord>): (r: string)
    ensures current.None? ==> r == DefaultDownloadName
    ensures current.Some? ==>
      |r| >= |DownloadSuffix| && r[|r| - |DownloadSuffix|..] == DownloadSuffix &&
      r[..|r| - |DownloadSuffix|] <= current.value.name &&
      |r| - |DownloadSuffix| == Min(MaxStem, |current.value.name|)
  {
    if current.None? then DefaultDownloadName
    else
      var name := current.value.name;
      var stem := if |name| <= MaxStem then name else name[..MaxStem];
      assert (stem + DownloadSuffix)[..|stem|] == stem;
      stem + DownloadSuffix
  }

  datatype Variant = Enhanced | Original

  /** What `parseProductData` returns in each variant. */
  function ParseWith(variant: Variant, doc: Doc, url: string): ProductRecord
  {
    match variant
    case Enhanced => EnhancedParser.Parsed(doc, url)
    case Original => OriginalParser.Parsed(doc, url)
  }

  /** `Parser.parseProductData` of the given variant. */
  method ParseProductData(variant: Variant, doc: Doc, url: string) returns (data: ProductRecord)
    ensures data == ParseWith(variant, doc, url)
    ensures data.url == url && data.name != []
  {
    match variant {
      case Enhanced => data := EnhancedParser.ParseProductData(doc, url);
      case Original => data := OriginalParser.ParseProductData(doc, url);
    }
  }

  /** What the QR code drawn third from the end of a poster encodes. */
  function QrPayload(poster: seq<DrawCmd>): Option<string>
  {
    if |poster| >= 3 && poster[|poster| - 3].QrCode? then Some(poster[|poster| - 3].payload) else None
  }

  /** The product photo `render` draws: loaded when the record names one. */
  function Photo(data: ProductRecord, load: string -> Option<Dims>): (r: Option<Dims>)
    requires forall u :: load(u).Some? ==> load(u).value.width > 0.0 && load(u).value.height > 0.0
    ensures r.Some? ==> r.value.width > 0.0 && r.value.height > 0.0
    ensures data.image == [] ==> r.None?
    ensures data.image != [] ==> r == load(data.image)
  {
    if data.image != [] then load(data.image) else None
  }

  /** The render step of `handleGenerate`: the product photo is loaded when
      the record names one, and the poster is drawn. */
  method DrawPoster(data: ProductRecord, load: string -> Option<Dims>, measure: Measure) returns (poster: seq<DrawCmd>)
    requires forall u :: load(u).Some? ==> load(u).value.width > 0.0 && load(u).value.height > 0.0
    // the poster is the layout of the record with its photo
    ensures poster == Renderer.Poster(measure, data, Photo(data, load))
    ensures |poster| >= 5 && poster[0].FillRect?
    // the QR code of the poster encodes the product URL
    ensures poster[|poster| - 3] == QrCode(data.url, Renderer.Width - Renderer.Padding - Renderer.QrSize,
                                           Renderer.Height - Renderer.Padding - Renderer.QrSize - 40, Renderer.QrSize)
  {
    var photo := Photo(data, load);
    var trace;
    poster, trace := Renderer.Render(measure, data, photo);
  }

  datatype Outcome = MissingUrl | FetchFailed(url: string) | Generated(data: ProductRecord)

  /** Every variant's record carries the page URL, which the poster's QR
      code then encodes. */
  lemma ParseWithUrl(variant: Variant, doc: Doc, url: string, titleOverride: string, subtitleOverride: string)
    ensures ParseWith(variant, doc, url).url == url
    ensures ApplyOverrides(ParseWith(variant, doc, url), titleOverride, subtitleOverride).url == url
  {
  }

  /** `handleGenerate`. Fetching the page, loading its photo and the
      variant's `parseProductData` are given as `fetch`, `load` and `parse`
      (`ParseWith` of the variant, computed by `ParseProductData`); the
      poster's drawing commands are returned with the outcome. */
  method HandleGenerate(parse: (Doc, string) -> ProductRecord, input: string, titleOverride: string, subtitleOverride: string,
                        fetch: string -> Option<Doc>, load: string -> Option<Dims>, measure: Measure)
    returns (outcome: Outcome, poster: seq<DrawCmd>)
    requires forall u :: load(u).Some? ==> load(u).value.width > 0.0 && load(u).value.height > 0.0
    // a blank field is refused before anything is fetched
    ensures outcome == MissingUrl <==> Trim(input) == []
    ensures Trim(input) != [] ==> var url := NormalizeUrl(Trim(input));
      (fetch(url).None? ==> outcome == FetchFailed(url)) &&
      (fetch(url).Some? ==> outcome == Generated(ApplyOverrides(parse(fetch(url).value, url), titleOverride, subtitleOverride)))
    // a poster is drawn only for a generated record, and its QR code
    // encodes the record's URL
    ensures !outcome.Generated? ==> poster == []
    ensures outcome.Generated? ==> QrPayload(poster) == Some(outcome.data.url)
    ensures outcome.Generated? ==> poster == Renderer.Poster(measure, outcome.data, Photo(outcome.data, load))
  {
    poster := [];
    var prepared := PrepareUrl(input);
    if prepared.None? {
      outcome := MissingUrl;
    } else {
      var url := prepared.value;
      var page := fetch(url);
      if page.None? {
        outcome := FetchFailed(url);
      } else {
        var data := parse(page.value, url);
        data := ApplyOverrides(data, titleOverride, subtitleOverride);
        poster := DrawPoster(data, load, measure);
        outcome := Generated(data);
      }
    }
  }
}
