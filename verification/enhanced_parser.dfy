/** `Parser` of the enhanced generator (poster-generator/poster.js): each
    field is taken from the first of several selectors that yields an
    acceptable value, with a fallback tier where the source has one. */
module EnhancedParser {
  import opened Optional
  import opened Strings
  import opened Utils
  import opened Page
  import opened Patterns
  import opened Product

  // ----- extractTitle -----

  const TitleSelectors: seq<string> := ["h1.product_title", "h1.entry-title", ".product-title", "h1",
                                        ".product-name h1", ".product-name", "[itemprop=\"name\"]"]

  /** A selector matches an element whose trimmed text is not blank. */
  function TitleHit(doc: Doc): string -> bool
  {
    (sel: string) => doc.select(sel).Some? && Trim(doc.select(sel).value.text) != []
  }

  /** The `<title>` text up to the first `|`, then up to the first `-`. */
  function StripSiteName(title: string): (r: string)
    ensures '|' !in r && '-' !in r
    ensures r <= title
  {
    BeforeFirst(BeforeFirst(title, '|'), '-')
  }

  function ExtractTitle(doc: Doc): (r: string)
    ensures IsClean(r)
    // the first selector whose element has non-blank text wins
    ensures var i := FirstIndex(TitleSelectors, TitleHit(doc));
      i < |TitleSelectors| ==> r != [] && r == CleanText(doc.select(TitleSelectors[i]).value.text)
    // then og:title, even when its content is empty
    ensures FirstIndex(TitleSelectors, TitleHit(doc)) == |TitleSelectors| && doc.select("meta[property=\"og:title\"]").Some? ==>
      r == CleanText(doc.select("meta[property=\"og:title\"]").value.content)
    // then the document title without the site name: it holds neither `|` nor `-`
    ensures FirstIndex(TitleSelectors, TitleHit(doc)) == |TitleSelectors| && doc.select("meta[property=\"og:title\"]").None? ==>
      (doc.select("title").Some? ==> r == CleanText(StripSiteName(doc.select("title").value.text)) && '|' !in r && '-' !in r) &&
      (doc.select("title").None? ==> r == [])
  {
    var i := FirstIndex(TitleSelectors, TitleHit(doc));
    if i < |TitleSelectors| then
      var text := doc.select(TitleSelectors[i]).value.text;
      TrimmedNonBlank(text);
      CleanText(text)
    else if doc.select("meta[property=\"og:title\"]").Some? then
      CleanText(doc.select("meta[property=\"og:title\"]").value.content)
    else if doc.select("title").Some? then
      var stripped := StripSiteName(doc.select("title").value.text);
      CleanNoNewChars(stripped, '|');
      CleanNoNewChars(stripped, '-');
      CleanText(stripped)
    else []
  }

  /** Text that is not blank once trimmed is not blank once cleaned. */
  lemma TrimmedNonBlank(s: string)
    requires Trim(s) != []
    ensures CleanText(s) != []
  {
    var t := Trim(s);
    assert t[0] in s;
    NonSpaceMembers(s, t[0]);
  }

  /** Cleaning adds no character other than the space. */
  lemma CleanNoNewChars(s: string, c: char)
    requires c !in s && c != ' '
    ensures c !in CleanText(s)
  {
    if c in CleanText(s) {
      CleanTextChars(s, c);
    }
  }

  // ----- extractSubtitle -----

  const SubtitleSelectors: seq<string> := [".product-subtitle", ".product_title + p", "h1 + p",
                                           ".woocommerce-product-details__short-description p:first-child"]

  /** A subtitle holds a Latin letter, differs from the title and is
      shorter than 100 characters. */
  predicate SubtitleOk(text: string, mainTitle: string)
  {
    HasAsciiLetter(text) && text != mainTitle && |text| < 100
  }

  function SubtitleHit(doc: Doc, mainTitle: string): string -> bool
  {
    (sel: string) => doc.select(sel).Some? && SubtitleOk(CleanText(doc.select(sel).value.text), mainTitle)
  }

  function ExtractSubtitle(doc: Doc, mainTitle: string): (r: string)
    ensures r == [] || (IsClean(r) && SubtitleOk(r, mainTitle))
    // empty exactly when no candidate qualifies; otherwise the first that does
    ensures var i := FirstIndex(SubtitleSelectors, SubtitleHit(doc, mainTitle));
      (r == [] <==> i == |SubtitleSelectors|) &&
      (i < |SubtitleSelectors| ==> r == CleanText(doc.select(SubtitleSelectors[i]).value.text))
  {
    var i := FirstIndex(SubtitleSelectors, SubtitleHit(doc, mainTitle));
    if i < |SubtitleSelectors| then CleanText(doc.select(SubtitleSelectors[i]).value.text) else []
  }

  // ----- extractPrice -----

  const PriceSelectors: seq<string> := [".price .amount", ".price ins .amount", ".price",
                                        "[itemprop=\"price\"]", ".product-price", ".woocommerce-Price-amount"]

  function PriceHit(doc: Doc): string -> bool
  {
    (sel: string) => doc.select(sel).Some? && MatchPrice(Trim(doc.select(sel).value.text)).Some?
  }

  function ExtractPrice(doc: Doc): (r: string)
    // empty exactly when no candidate holds a price
    ensures var i := FirstIndex(PriceSelectors, PriceHit(doc));
      (r == [] <==> i == |PriceSelectors|) &&
      (i < |PriceSelectors| ==> Some(r) == MatchPrice(Trim(doc.select(PriceSelectors[i]).value.text)))
    // a price is `$` followed by a digit or a comma
    ensures r != [] ==> |r| >= 2 && r[0] == '$' && IsDigitOrComma(r[1])
  {
    var i := FirstIndex(PriceSelectors, PriceHit(doc));
    if i < |PriceSelectors| then
      var text := Trim(doc.select(PriceSelectors[i]).value.text);
      MatchPrice(text).value
    else []
  }

  // ----- extractSpecs -----

  /** The index of the first unit pattern with a match in the body text. */
  function UnitHit(body: string): seq<Piece> -> bool
  {
    (p: seq<Piece>) => MatchPieces(body, p).Some?
  }

  function ExtractSpecs(doc: Doc): (r: string)
    ensures IsClean(r)
    // the first unit pattern with a match wins, and its match is never blank
    ensures var i := FirstIndex(UnitPatterns, UnitHit(doc.bodyText));
      i < |UnitPatterns| ==> r != [] && r == CleanText(MatchPieces(doc.bodyText, UnitPatterns[i]).value)
    // otherwise the rest of the line after a `规格:` label
    ensures FirstIndex(UnitPatterns, UnitHit(doc.bodyText)) == |UnitPatterns| ==>
      r == (if FindLabel(doc.bodyText, 0, false).Some? then CleanText(FindLabel(doc.bodyText, 0, false).value) else [])
  {
    var body := doc.bodyText;
    var i := FirstIndex(UnitPatterns, UnitHit(body));
    if i < |UnitPatterns| then
      var m := MatchPieces(body, UnitPatterns[i]).value;
      UnitPatternsShape(i);
      UnitMatchNotBlank(body, UnitPatterns[i]);
      CleanText(m)
    else if FindLabel(body, 0, false).Some? then CleanText(FindLabel(body, 0, false).value)
    else []
  }

  /** Every unit pattern starts with `\d+` and ends with a literal. */
  lemma UnitPatternsShape(i: nat)
    requires i < |UnitPatterns|
    ensures UnitPatterns[i] != [] && UnitPatterns[i][0] == Digits && UnitPatterns[i][|UnitPatterns[i]| - 1].Lit?
  {
  }

  /** A unit match starts with a digit, so it survives cleaning. */
  lemma UnitMatchNotBlank(body: string, p: seq<Piece>)
    requires p != [] && p[0] == Digits && p[|p| - 1].Lit?
    requires MatchPieces(body, p).Some?
    ensures CleanText(MatchPieces(body, p).value) != []
  {
    var i := FindPieces(body, 0, p).value;
    var m := body[i..PiecesEnd(body, i, p).value];
    assert MatchPieces(body, p) == Some(m);
    PiecesShape(body, i, p);
    assert !IsSpace(m[0]) && m[0] in m;
    NonSpaceMembers(m, m[0]);
    assert NonSpace(m) != [];
  }

  // ----- extractImage -----

  const ImageSelectors: seq<string> := [".woocommerce-product-gallery__image img", ".product-image img", ".wp-post-image",
                                        "img[class*=\"product\"]", ".entry-content img:first-of-type", "meta[property=\"og:image\"]"]

  /** The address a candidate element offers: a meta tag's `content`, an
      image's `src`, `data-src` or `data-lazy-src`, the first not empty. */
  function ImageSource(e: Element): (r: string)
    ensures e.tag == "META" ==> r == e.content
    ensures e.tag != "META" && r == [] ==> e.src == [] && e.dataSrc == [] && e.lazySrc == []
    // `src`, then `data-src`, then `data-lazy-src`
    ensures e.tag != "META" && e.src != [] ==> r == e.src
    ensures e.tag != "META" && e.src == [] && e.dataSrc != [] ==> r == e.dataSrc
    ensures e.tag != "META" && e.src == [] && e.dataSrc == [] ==> r == e.lazySrc
  {
    if e.tag == "META" then e.content
    else if e.src != [] then e.src
    else if e.dataSrc != [] then e.dataSrc
    else e.lazySrc
  }

  /** Addresses that look like icons, logos or placeholders are refused. */
  predicate LooksLikeProductImage(src: string)
  {
    src != [] && !Contains(src, "icon") && !Contains(src, "logo") && !Contains(src, "placeholder")
  }

  function ImageHit(doc: Doc): string -> bool
  {
    (sel: string) => doc.select(sel).Some? && LooksLikeProductImage(ImageSource(doc.select(sel).value))
  }

  /** The fallback filter over every `img` of the page. */
  predicate LargeNonLogo(img: Element)
  {
    !Contains(img.src, "logo") && !Contains(img.src, "icon") && !Contains(img.alt, "logo") && img.width > 100
  }

  function ExtractImage(doc: Doc): (r: string)
    // a chosen address is already normalised
    ensures NormalizeUrl(r) == r
    // the first candidate that does not look like an icon, logo or placeholder wins
    ensures var i := FirstIndex(ImageSelectors, ImageHit(doc));
      i < |ImageSelectors| ==> r != [] && r == NormalizeUrl(ImageSource(doc.select(ImageSelectors[i]).value))
    // otherwise the first large image that is not a logo or icon
    ensures var k := FirstIndex(doc.images, LargeNonLogo);
      FirstIndex(ImageSelectors, ImageHit(doc)) == |ImageSelectors| ==>
        r == (if k < |doc.images| then NormalizeUrl(doc.images[k].src) else [])
  {
    var i := FirstIndex(ImageSelectors, ImageHit(doc));
    var k := FirstIndex(doc.images, LargeNonLogo);
    var chosen := if i < |ImageSelectors| then ImageSource(doc.select(ImageSelectors[i]).value)
                  else if k < |doc.images| then doc.images[k].src
                  else [];
    NormalizeUrlIdempotent(chosen);
    NormalizeUrl(chosen)
  }

  // ----- extractDescription -----

  const DescriptionSelectors: seq<string> := [".woocommerce-product-details__short-description", ".product-description",
                                              ".entry-summary > p:first-of-type", "meta[name=\"description\"]"]

  function DescriptionText(e: Element): string
  {
    CleanText(if e.tag == "META" then e.content else e.text)
  }

  function DescriptionHit(doc: Doc): string -> bool
  {
    (sel: string) => doc.select(sel).Some? && |DescriptionText(doc.select(sel).value)| > 20
  }

  function ExtractDescription(doc: Doc): (r: string)
    ensures r == [] || (IsClean(r) && |r| > 20)
    ensures var i := FirstIndex(DescriptionSelectors, DescriptionHit(doc));
      (r == [] <==> i == |DescriptionSelectors|) &&
      (i < |DescriptionSelectors| ==> r == DescriptionText(doc.select(DescriptionSelectors[i]).value))
  {
    var i := FirstIndex(DescriptionSelectors, DescriptionHit(doc));
    if i < |DescriptionSelectors| then DescriptionText(doc.select(DescriptionSelectors[i]).value) else []
  }

  // ----- cleanBenefitText -----

  /** The class `[🔴🟢🟡⭐️✨💊🌿\s•·\-\d\.]` of leading characters that are
      stripped. */
  predicate IsBulletLead(c: char)
  {
    c == '🔴' || c == '🟢' || c == '🟡' || c == '⭐' || c == '\U{FE0F}' || c == '✨' || c == '💊' || c == '🌿'
    || IsSpace(c) || c == '•' || c == '·' || c == '-' || IsDigit(c) || c == '.'
  }

  /** The longest line kept before truncation. */
  const MaxBenefitLength: nat := 80

  /** The first line of the text once the leading bullet run is removed,
      trimmed. */
  function FirstLine(text: string): (line: string)
    ensures '\n' !in line
    ensures line == [] || !IsBulletLead(line[0])
  {
    var stripped := text[RunEnd(text, 0, IsBulletLead)..];
    var first := BeforeFirst(Trim(stripped), '\n');
    LineAfterBullets(stripped);
    TrimKeepsOut(first, '\n');
    Trim(first)
  }

  function CleanBenefitText(text: string): (r: string)
    ensures '\n' !in r
    ensures r == [] || !IsBulletLead(r[0])
    ensures |r| <= MaxBenefitLength + 3
    // lines longer than 80 characters are cut at 80 and marked with `...`
    ensures |FirstLine(text)| <= MaxBenefitLength ==> r == FirstLine(text)
    ensures |FirstLine(text)| > MaxBenefitLength ==> r == FirstLine(text)[..MaxBenefitLength] + "..."
  {
    var line := FirstLine(text);
    if |line| > MaxBenefitLength then
      var cut := line[..MaxBenefitLength];
      assert cut[0] == line[0];
      assert forall c :: c in cut + "..." ==> c in cut || c == '.';
      cut + "..."
    else line
  }

  /** Trimming after the bullets only trims the end, and the first line of
      the result starts where the stripped text does. */
  lemma LineAfterBullets(stripped: string)
    requires stripped == [] || !IsBulletLead(stripped[0])
    ensures var line := Trim(BeforeFirst(Trim(stripped), '\n'));
      line == [] || (line[0] == stripped[0] && !IsBulletLead(line[0]))
  {
    var cleaned := Trim(stripped);
    if stripped != [] {
      assert Lead(stripped) == 0;
      if cleaned != [] {
        assert cleaned[0] == stripped[0];
        var first := BeforeFirst(cleaned, '\n');
        if first != [] {
          assert first[0] == stripped[0];
          assert Lead(first) == 0;
        }
      }
    }
  }

  // ----- extractBenefits -----

  const BenefitKeywords: seq<string> := ["功效", "特点", "成分", "优势", "好处"]

  /** `headers.find(h => keywords.some(k => h.textContent.includes(k)))` */
  function HeadingWith(keywords: seq<string>): Heading -> bool
  {
    (h: Heading) => ContainsAny(h.text, keywords)
  }

  /** An anchored list item is kept, cleaned, when longer than three. */
  function KeepBenefit(text: string): (r: Option<string>)
    ensures r.Some? <==> |CleanBenefitText(text)| > 3
    ensures r.Some? ==> r.value == CleanBenefitText(text)
  {
    var c := CleanBenefitText(text);
    if c != [] && |c| > 3 then Some(c) else None
  }

  /** A fallback list item is kept, cleaned, when longer than five and
      shorter than a hundred. */
  function KeepFallbackBenefit(text: string): (r: Option<string>)
    ensures r.Some? <==> 5 < |CleanBenefitText(text)| < 100
    ensures r.Some? ==> r.value == CleanBenefitText(text)
  {
    var c := CleanBenefitText(text);
    if c != [] && |c| > 5 && |c| < 100 then Some(c) else None
  }

  function NoParagraph(text: string): Option<string>
  {
    None
  }

  /** At most ten siblings after the anchor; paragraphs do not count. */
  const BenefitScan: ScanRule := ScanRule(10, KeepBenefit, NoParagraph)

  /** The items found under the first heading that names a benefit. */
  function AnchoredBenefits(doc: Doc): seq<string>
  {
    var a := FirstIndex(doc.headings, HeadingWith(BenefitKeywords));
    if a < |doc.headings| then Scan(BenefitScan, doc.headings[a].siblings, BenefitScan.limit) else []
  }

  /** Every `li` of the page, used only when the anchored tier found none. */
  function FallbackBenefits(doc: Doc): seq<string>
  {
    FilterMap(doc.listItems, KeepFallbackBenefit)
  }

  /** The tier the benefits come from: the anchored walk, or the fallback
      when that walk found nothing. */
  function BenefitTier(doc: Doc): seq<string>
  {
    var anchored := AnchoredBenefits(doc);
    if anchored == [] then FallbackBenefits(doc) else anchored
  }

  function Benefits(doc: Doc): seq<string>
  {
    Take(BenefitTier(doc), MaxBenefits)
  }

  /** A benefit line: cleaned, one line, longer than three and at most
      83 characters. */
  predicate BenefitLine(b: string)
  {
    '\n' !in b && 3 < |b| <= MaxBenefitLength + 3 && !IsBulletLead(b[0])
  }

  function IsBenefitLine(): string -> bool
  {
    (b: string) => BenefitLine(b)
  }

  lemma BenefitsAreLines(doc: Doc)
    ensures |Benefits(doc)| <= MaxBenefits
    ensures forall i :: 0 <= i < |Benefits(doc)| ==> BenefitLine(Benefits(doc)[i])
    // the fallback is used exactly when the anchored tier found nothing
    ensures AnchoredBenefits(doc) != [] ==> Benefits(doc) <= AnchoredBenefits(doc)
    ensures AnchoredBenefits(doc) == [] ==> Benefits(doc) <= FallbackBenefits(doc)
    // the first five of that tier are kept, or all of it when shorter
    ensures |Benefits(doc)| == Min(MaxBenefits, |BenefitTier(doc)|)
  {
    var a := FirstIndex(doc.headings, HeadingWith(BenefitKeywords));
    if a < |doc.headings| {
      ScanKeeps(BenefitScan, doc.headings[a].siblings, BenefitScan.limit, IsBenefitLine());
    }
    FilterMapKeeps(doc.listItems, KeepFallbackBenefit, IsBenefitLine());
  }

  /** `extractBenefits`: the anchored walk, then the fallback over every
      list item if it found nothing, then the first five. */
  method ExtractBenefits(doc: Doc) returns (benefits: seq<string>)
    ensures benefits == Benefits(doc)
    ensures |benefits| <= MaxBenefits
    ensures benefits <= BenefitTier(doc) && |benefits| == Min(MaxBenefits, |BenefitTier(doc)|)
    ensures forall i :: 0 <= i < |benefits| ==> BenefitLine(benefits[i])
  {
    benefits := [];
    var a := FirstIndex(doc.headings, HeadingWith(BenefitKeywords));
    if a < |doc.headings| {
      benefits := ScanSiblings(BenefitScan, doc.headings[a].siblings);
    }
    assert benefits == AnchoredBenefits(doc);
    if |benefits| == 0 {
      benefits := KeepItems(doc.listItems, KeepFallbackBenefit);
    }
    benefits := Take(benefits, MaxBenefits);
    BenefitsAreLines(doc);
  }

  // ----- extractUsage -----

  const UsageKeywords: seq<string> := ["用法", "用量", "服用", "使用方法", "建议"]
  /** A paragraph is a usage line when it names a frequency. */
  const FrequencyWords: seq<string> := ["每", "次", "天"]

  /** A usage list item is kept, cleaned, when longer than five. */
  function KeepUsageItem(text: string): (r: Option<string>)
    ensures r.Some? <==> |CleanText(text)| > 5
    ensures r.Some? ==> r.value == CleanText(text)
  {
    var c := CleanText(text);
    if c != [] && |c| > 5 then Some(c) else None
  }

  /** A paragraph is kept, cleaned, when it names a frequency. */
  function KeepUsageParagraph(text: string): (r: Option<string>)
    ensures r.Some? <==> CleanText(text) != [] && ContainsAny(CleanText(text), FrequencyWords)
    ensures r.Some? ==> r.value == CleanText(text)
  {
    var c := CleanText(text);
    if c != [] && ContainsAny(c, FrequencyWords) then Some(c) else None
  }

  /** At most five siblings; paragraphs naming a frequency are kept and
      the walk goes on past them. */
  const UsageScan: ScanRule := ScanRule(5, KeepUsageItem, KeepUsageParagraph)

  /** The entries the walk after the first usage heading yields. */
  function UsageWalk(doc: Doc): seq<string>
  {
    var a := FirstIndex(doc.headings, HeadingWith(UsageKeywords));
    if a < |doc.headings| then Scan(UsageScan, doc.headings[a].siblings, UsageScan.limit) else []
  }

  function Usage(doc: Doc): seq<string>
  {
    Take(UsageWalk(doc), MaxUsage)
  }

  /** A usage line: cleaned, and either a list item longer than five or a
      paragraph naming a frequency. */
  predicate UsageLine(u: string)
  {
    IsClean(u) && u != [] && (|u| > 5 || ContainsAny(u, FrequencyWords))
  }

  function IsUsageLine(): string -> bool
  {
    (u: string) => UsageLine(u)
  }

  lemma UsageAreLines(doc: Doc)
    ensures |Usage(doc)| <= MaxUsage
    // the first three entries of the walk are kept, or all of them when fewer
    ensures Usage(doc) <= UsageWalk(doc) && |Usage(doc)| == Min(MaxUsage, |UsageWalk(doc)|)
    ensures forall i :: 0 <= i < |Usage(doc)| ==> UsageLine(Usage(doc)[i])
  {
    var a := FirstIndex(doc.headings, HeadingWith(UsageKeywords));
    if a < |doc.headings| {
      ScanKeeps(UsageScan, doc.headings[a].siblings, UsageScan.limit, IsUsageLine());
    }
  }

  /** `extractUsage` */
  method ExtractUsage(doc: Doc) returns (usage: seq<string>)
    ensures usage == Usage(doc)
    ensures |usage| <= MaxUsage
    ensures usage <= UsageWalk(doc) && |usage| == Min(MaxUsage, |UsageWalk(doc)|)
    ensures forall i :: 0 <= i < |usage| ==> UsageLine(usage[i])
  {
    usage := [];
    var a := FirstIndex(doc.headings, HeadingWith(UsageKeywords));
    if a < |doc.headings| {
      usage := ScanSiblings(UsageScan, doc.headings[a].siblings);
    }
    usage := Take(usage, MaxUsage);
    UsageAreLines(doc);
  }

  // ----- parseProductData -----

  /** The record `parseProductData(html, pageUrl)` returns for the parsed
      page; the subtitle is compared with the extracted title, not with
      the default name. */
  function Parsed(doc: Doc, pageUrl: string): ProductRecord
  {
    var title := ExtractTitle(doc);
    ProductRecord(if title != [] then title else DefaultName, ExtractSubtitle(doc, title),
                  ExtractPrice(doc), ExtractSpecs(doc), ExtractDescription(doc), ExtractImage(doc),
                  Benefits(doc), Usage(doc), pageUrl)
  }

  /** `parseProductData`, calling the extractors in the source's order. */
  method ParseProductData(doc: Doc, pageUrl: string) returns (data: ProductRecord)
    ensures data == Parsed(doc, pageUrl)
    ensures data.name != [] && |data.benefits| <= MaxBenefits && |data.usage| <= MaxUsage
    // the first five benefits of the tier used and the first three usage entries
    ensures data.benefits <= BenefitTier(doc) && |data.benefits| == Min(MaxBenefits, |BenefitTier(doc)|)
    ensures data.usage <= UsageWalk(doc) && |data.usage| == Min(MaxUsage, |UsageWalk(doc)|)
    ensures forall i :: 0 <= i < |data.benefits| ==> BenefitLine(data.benefits[i])
    ensures forall i :: 0 <= i < |data.usage| ==> UsageLine(data.usage[i])
  {
    var title := ExtractTitle(doc);
    var subtitle := ExtractSubtitle(doc, title);
    var price := ExtractPrice(doc);
    var specs := ExtractSpecs(doc);
    var image := ExtractImage(doc);
    var description := ExtractDescription(doc);
    var benefits := ExtractBenefits(doc);
    var usage := ExtractUsage(doc);
    data := ProductRecord(if title != [] then title else DefaultName, subtitle, price, specs,
                          description, image, benefits, usage, pageUrl);
  }
}
