/** `Parser.parseProductData` of the original generator (poster/poster.js):
    one selector per field, and the benefit and usage walks written inline. */
module OriginalParser {
  import opened Optional
  import opened Strings
  import opened Utils
  import opened Page
  import opened Patterns
  import opened Product

  /** Non-blank text with no whitespace at either end. */
  predicate IsTrimmedLine(s: string)
  {
    s != [] && !IsSpace(s[0]) && !IsSpace(s[|s| - 1])
  }

  predicate AllTrimmedLines(xs: seq<string>)
  {
    forall i :: 0 <= i < |xs| ==> IsTrimmedLine(xs[i]) && '\n' !in xs[i]
  }

  predicate NoNewlines(xs: seq<string>)
  {
    forall i :: 0 <= i < |xs| ==> '\n' !in xs[i]
  }

  /** The trimmed text of the first `h1`, or empty. */
  function Title(doc: Doc): (r: string)
    ensures r == [] || (!IsSpace(r[0]) && !IsSpace(r[|r| - 1]))
    ensures doc.select("h1").None? ==> r == []
  {
    if doc.select("h1").Some? then Trim(doc.select("h1").value.text) else []
  }

  /** `text.split('\n').map(l => l.trim()).filter(l => l)` */
  function TrimmedLines(parts: seq<string>): (r: seq<string>)
    requires NoNewlines(parts)
    ensures |r| <= |parts|
    ensures AllTrimmedLines(r)
    // every part whose trim is not blank, trimmed, in order
    ensures r == FilterMap(parts, KeepTrimmed)
  {
    if parts == [] then []
    else
      var t := Trim(parts[0]);
      TrimKeepsOut(parts[0], '\n');
      var rest := TrimmedLines(parts[1..]);
      TrimmedLinesStep(parts);
      TrimmedEnds(parts[0]);
      ConsTrimmedLine(t, rest);
      if t == [] then rest else [t] + rest
  }

  /** Putting a trimmed line, if not blank, in front of trimmed lines. */
  lemma ConsTrimmedLine(t: string, rest: seq<string>)
    requires t == [] || (IsTrimmedLine(t) && '\n' !in t)
    requires AllTrimmedLines(rest)
    ensures AllTrimmedLines(if t == [] then rest else [t] + rest)
  {
  }

  /** The trimmed first part's contribution, then the rest's. */
  lemma TrimmedLinesStep(parts: seq<string>)
    requires parts != []
    ensures Trim(parts[0]) == [] ==> FilterMap(parts, KeepTrimmed) == FilterMap(parts[1..], KeepTrimmed)
    ensures Trim(parts[0]) != [] ==> FilterMap(parts, KeepTrimmed) == [Trim(parts[0])] + FilterMap(parts[1..], KeepTrimmed)
  {
    assert parts == [parts[0]] + parts[1..];
    FilterMapCons(parts[0], parts[1..], KeepTrimmed);
    if Trim(parts[0]) == [] {
      assert Emit(KeepTrimmed(parts[0])) == [];
      assert [] + FilterMap(parts[1..], KeepTrimmed) == FilterMap(parts[1..], KeepTrimmed);
    }
  }

  function SubtitleLine(title: string): string -> bool
  {
    (l: string) => HasAsciiLetter(l) && l != title
  }

  /** The non-blank trimmed lines of an element's parent. */
  function ParentLines(e: Element): (r: seq<string>)
    ensures AllTrimmedLines(r)
  {
    var parts := Split(e.parentText, '\n');
    assert NoNewlines(parts);
    TrimmedLines(parts)
  }

  /** The first line that holds a Latin letter and is not the title,
      provided there is more than one line. */
  function PickSubtitle(lines: seq<string>, title: string): (r: string)
    requires AllTrimmedLines(lines)
    ensures r == [] || (HasAsciiLetter(r) && r != title && '\n' !in r && IsTrimmedLine(r))
    ensures |lines| <= 1 ==> r == []
    ensures var k := FirstIndex(lines, SubtitleLine(title));
      |lines| > 1 ==> (r == [] <==> k == |lines|)
    ensures var k := FirstIndex(lines, SubtitleLine(title));
      |lines| > 1 && k < |lines| ==> r == lines[k]
  {
    if |lines| <= 1 then []
    else
      var k := FirstIndex(lines, SubtitleLine(title));
      if k < |lines| then lines[k] else []
  }

  /** `h1.parentElement` supplies the subtitle candidates. */
  function Subtitle(doc: Doc, title: string): (r: string)
    ensures r == [] || (HasAsciiLetter(r) && r != title && '\n' !in r && IsTrimmedLine(r))
    ensures doc.select("h1").None? ==> r == []
  {
    if doc.select("h1").None? then [] else PickSubtitle(ParentLines(doc.select("h1").value), title)
  }

  const PriceSelector: string := ".price, [class*=\"price\"]"

  function Price(doc: Doc): (r: string)
    ensures r != [] ==> |r| >= 2 && r[0] == '$' && IsDigitOrComma(r[1])
    ensures doc.select(PriceSelector).Some? && MatchPrice(Trim(doc.select(PriceSelector).value.text)).Some? ==>
      r == MatchPrice(Trim(doc.select(PriceSelector).value.text)).value
    ensures doc.select(PriceSelector).None? || MatchPrice(Trim(doc.select(PriceSelector).value.text)).None? ==> r == []
  {
    if doc.select(PriceSelector).Some? && MatchPrice(Trim(doc.select(PriceSelector).value.text)).Some? then
      MatchPrice(Trim(doc.select(PriceSelector).value.text)).value
    else []
  }

  const SpecsSelector: string := ".woocommerce-product-details__short-description, .product-specs"

  /** The text after the first `规格:` label up to the end of its line,
      trimmed. */
  function Specs(doc: Doc): (r: string)
    ensures forall c :: c in r ==> !IsLineTerminator(c)
    ensures r == [] || (!IsSpace(r[0]) && !IsSpace(r[|r| - 1]))
    ensures doc.select(SpecsSelector).None? ==> r == []
  {
    if doc.select(SpecsSelector).Some? && FindLabel(doc.select(SpecsSelector).value.text, 0, true).Some? then
      Trim(FindLabel(doc.select(SpecsSelector).value.text, 0, true).value)
    else []
  }

  const ImageSelector: string := ".woocommerce-product-gallery__image img, .product-image img, img[class*=\"product\"]"

  /** `src || dataset.src || getAttribute('data-lazy-src') || ''`,
      normalised; no address is refused. */
  function Image(doc: Doc): (r: string)
    ensures NormalizeUrl(r) == r
    ensures doc.select(ImageSelector).None? ==> r == []
    ensures doc.select(ImageSelector).Some? && doc.select(ImageSelector).value.src != [] ==>
      r == NormalizeUrl(doc.select(ImageSelector).value.src)
    ensures doc.select(ImageSelector).Some? && doc.select(ImageSelector).value.src == []
            && doc.select(ImageSelector).value.dataSrc != [] ==>
      r == NormalizeUrl(doc.select(ImageSelector).value.dataSrc)
    ensures doc.select(ImageSelector).Some? && doc.select(ImageSelector).value.src == []
            && doc.select(ImageSelector).value.dataSrc == [] ==>
      r == NormalizeUrl(doc.select(ImageSelector).value.lazySrc)
  {
    if doc.select(ImageSelector).Some? then
      var e := doc.select(ImageSelector).value;
      var src := if e.src != [] then e.src else if e.dataSrc != [] then e.dataSrc else e.lazySrc;
      NormalizeUrlIdempotent(src);
      NormalizeUrl(src)
    else []
  }

  const DescriptionSelector: string := ".woocommerce-product-details__short-description p"

  function Description(doc: Doc): (r: string)
    ensures r == [] || (!IsSpace(r[0]) && !IsSpace(r[|r| - 1]))
  {
    if doc.select(DescriptionSelector).Some? then Trim(doc.select(DescriptionSelector).value.text) else []
  }

  // ----- benefits -----

  /** `/^[🔴🟢🟡⭐️✨💊🌿]+\s*\/` */
  predicate IsEmojiBullet(c: char)
  {
    c == '🔴' || c == '🟢' || c == '🟡' || c == '⭐' || c == '\U{FE0F}' || c == '✨' || c == '💊' || c == '🌿'
  }

  /** `r` is what is left of `s` once `/^[🔴🟢🟡⭐️✨💊🌿]+\s*\/` is
      removed: a non-empty run of emoji bullets ending at `j`, then the
      whitespace run after it, both as long as they can be. */
  predicate EmojiBulletPrefix(s: string, j: nat, r: string)
  {
    var k := |s| - |r|;
    0 < j <= k <= |s| && r == s[k..] &&
    (forall i :: 0 <= i < j ==> IsEmojiBullet(s[i])) && (j < |s| ==> !IsEmojiBullet(s[j])) &&
    (forall i :: j <= i < k ==> IsSpace(s[i])) && (k < |s| ==> !IsSpace(s[k]))
  }

  /** Removes a leading run of emoji bullets and the whitespace after it;
      text that does not start with one is left alone. */
  function StripEmojiRun(s: string): (r: string)
    ensures |r| <= |s| && r == s[|s| - |r|..]
    ensures s == [] || !IsEmojiBullet(s[0]) ==> r == s
    // otherwise exactly the matched prefix is removed
    ensures s != [] && IsEmojiBullet(s[0]) ==> exists j :: EmojiBulletPrefix(s, j, r)
    ensures s != [] && IsEmojiBullet(s[0]) ==> r == [] || !IsSpace(r[0])
  {
    var j := RunEnd(s, 0, IsEmojiBullet);
    if j == 0 then s
    else
      var k := RunEnd(s, j, IsSpace);
      assert EmojiBulletPrefix(s, j, s[k..]);
      s[k..]
  }

  const BenefitKeywords: seq<string> := ["主要成分", "功效"]
  const UsageKeywords: seq<string> := ["建议用量", "用法", "服用方法"]

  lemma TrimmedEnds(s: string)
    ensures Trim(s) == [] || IsTrimmedLine(Trim(s))
  {
  }

  /** Only `h2`, `h3` and `h4` are anchors here; `strong` is not. */
  function SectionWith(keywords: seq<string>): Heading -> bool
  {
    (h: Heading) => IsSectionHeading(h.tag) && ContainsAny(h.text, keywords)
  }

  /** `split('\n')[0].trim()` */
  function FirstLine(t: string): (r: string)
    ensures '\n' !in r
  {
    TrimKeepsOut(BeforeFirst(t, '\n'), '\n');
    Trim(BeforeFirst(t, '\n'))
  }

  /** The emoji run removed from the first line, trimmed again. */
  function WithoutEmoji(line: string): (r: string)
    requires '\n' !in line
    ensures '\n' !in r
    ensures r == [] || IsTrimmedLine(r)
  {
    var stripped := StripEmojiRun(line);
    SuffixKeepsOut(line, stripped, '\n');
    TrimKeepsOut(stripped, '\n');
    TrimmedEnds(stripped);
    Trim(stripped)
  }

  /** A list item longer than five characters once trimmed contributes its
      first line without the leading emoji, if anything is left. */
  function KeepBenefit(text: string): (r: Option<string>)
    ensures r.Some? ==> IsTrimmedLine(r.value) && '\n' !in r.value
    ensures |Trim(text)| <= 5 ==> r.None?
    ensures r.Some? <==> |Trim(text)| > 5 && WithoutEmoji(FirstLine(Trim(text))) != []
    ensures r.Some? ==> r.value == WithoutEmoji(FirstLine(Trim(text)))
  {
    var t := Trim(text);
    if t != [] && |t| > 5 then
      var cleaned := WithoutEmoji(FirstLine(t));
      if cleaned != [] then Some(cleaned) else None
    else None
  }

  function NoParagraph(text: string): Option<string>
  {
    None
  }

  const BenefitScan: ScanRule := ScanRule(10, KeepBenefit, NoParagraph)

  function Benefits(doc: Doc): seq<string>
  {
    var a := FirstIndex(doc.headings, SectionWith(BenefitKeywords));
    if a < |doc.headings| then Scan(BenefitScan, doc.headings[a].siblings, BenefitScan.limit) else []
  }

  // ----- usage -----

  const FrequencyWords: seq<string> := ["每次", "每天", "每日"]

  /** `text.trim()`, kept when it is not blank. */
  function KeepTrimmed(text: string): (r: Option<string>)
    ensures r.Some? <==> Trim(text) != []
    ensures r.Some? ==> r.value == Trim(text) && IsTrimmedLine(r.value)
  {
    var t := Trim(text);
    TrimmedEnds(text);
    if t != [] then Some(t) else None
  }

  /** A paragraph is kept, trimmed, when it names a frequency. */
  function KeepUsageParagraph(text: string): (r: Option<string>)
    ensures r.Some? <==> ContainsAny(Trim(text), FrequencyWords)
    ensures r.Some? ==> r.value == Trim(text)
  {
    var t := Trim(text);
    if ContainsAny(t, FrequencyWords) then Some(t) else None
  }

  const UsageScan: ScanRule := ScanRule(5, KeepTrimmed, KeepUsageParagraph)

  function Usage(doc: Doc): seq<string>
  {
    var a := FirstIndex(doc.headings, SectionWith(UsageKeywords));
    if a < |doc.headings| then Scan(UsageScan, doc.headings[a].siblings, UsageScan.limit) else []
  }

  // ----- the record -----

  function TrimmedLine(): string -> bool
  {
    (s: string) => IsTrimmedLine(s)
  }

  predicate BenefitLine(s: string)
  {
    IsTrimmedLine(s) && '\n' !in s
  }


  function IsBenefitLine(): string -> bool
  {
    (s: string) => BenefitLine(s)
  }

  /** Every benefit is one non-blank trimmed line. */
  lemma BenefitsAreLines(doc: Doc)
    ensures forall i :: 0 <= i < |Benefits(doc)| ==> BenefitLine(Benefits(doc)[i])
  {
    var a := FirstIndex(doc.headings, SectionWith(BenefitKeywords));
    if a < |doc.headings| {
      ScanKeeps(BenefitScan, doc.headings[a].siblings, BenefitScan.limit, IsBenefitLine());
    }
  }

  /** A kept paragraph names a frequency, so it is not blank. */
  lemma UsageParagraphsTrimmed()
    ensures forall t :: KeepUsageParagraph(t).Some? ==>
      IsTrimmedLine(KeepUsageParagraph(t).value) && ContainsAny(KeepUsageParagraph(t).value, FrequencyWords)
  {
    assert !ContainsAny([], FrequencyWords) by {
      forall k | 0 <= k < |FrequencyWords| ensures !Contains([], FrequencyWords[k]) {
        assert FrequencyWords[k] != [];
      }
    }
  }

  /** Every usage entry is non-blank and trimmed. */
  lemma UsageAreLines(doc: Doc)
    ensures forall i :: 0 <= i < |Usage(doc)| ==> IsTrimmedLine(Usage(doc)[i])
  {
    var u := FirstIndex(doc.headings, SectionWith(UsageKeywords));
    if u < |doc.headings| {
      UsageParagraphsTrimmed();
      ScanKeeps(UsageScan, doc.headings[u].siblings, UsageScan.limit, TrimmedLine());
    }
  }

  /** `parseProductData(html, pageUrl)` */
  function Parsed(doc: Doc, pageUrl: string): ProductRecord
  {
    var title := Title(doc);
    ProductRecord(if title != [] then title else DefaultName, Subtitle(doc, title), Price(doc), Specs(doc),
                  Description(doc), Image(doc), Take(Benefits(doc), MaxBenefits), Take(Usage(doc), MaxUsage), pageUrl)
  }

  /** The record keeps at most five benefits and three usage entries,
      always has a name, and every entry is one trimmed line. */
  lemma ParsedShape(doc: Doc, pageUrl: string)
    ensures var data := Parsed(doc, pageUrl);
      data.name != [] && |data.benefits| <= MaxBenefits && |data.usage| <= MaxUsage &&
      // the first five benefits and the first three usage entries the walks yield
      data.benefits <= Benefits(doc) && |data.benefits| == Min(MaxBenefits, |Benefits(doc)|) &&
      data.usage <= Usage(doc) && |data.usage| == Min(MaxUsage, |Usage(doc)|) &&
      (forall i :: 0 <= i < |data.benefits| ==> BenefitLine(data.benefits[i])) &&
      (forall i :: 0 <= i < |data.usage| ==> IsTrimmedLine(data.usage[i]))
  {
    BenefitsAreLines(doc);
    UsageAreLines(doc);
    var data := Parsed(doc, pageUrl);
    assert data.benefits <= Benefits(doc) && data.usage <= Usage(doc);
  }

  /** The parser as the source writes it: fields assigned one after the
      other, the two sibling walks pushing into their lists. */
  method ParseProductData(doc: Doc, pageUrl: string) returns (data: ProductRecord)
    ensures data == Parsed(doc, pageUrl)
    ensures data.name != [] && |data.benefits| <= MaxBenefits && |data.usage| <= MaxUsage
    ensures data.benefits <= Benefits(doc) && |data.benefits| == Min(MaxBenefits, |Benefits(doc)|)
    ensures data.usage <= Usage(doc) && |data.usage| == Min(MaxUsage, |Usage(doc)|)
    ensures forall i :: 0 <= i < |data.benefits| ==> BenefitLine(data.benefits[i])
    ensures forall i :: 0 <= i < |data.usage| ==> IsTrimmedLine(data.usage[i])
  {
    var title := Title(doc);
    var subtitle := Subtitle(doc, title);
    var price := Price(doc);
    var specs := Specs(doc);
    var image := Image(doc);
    var description := Description(doc);

    var benefits := [];
    var benefitSection := FirstIndex(doc.headings, SectionWith(BenefitKeywords));
    if benefitSection < |doc.headings| {
      benefits := ScanSiblings(BenefitScan, doc.headings[benefitSection].siblings);
    }

    var usage := [];
    var usageSection := FirstIndex(doc.headings, SectionWith(UsageKeywords));
    if usageSection < |doc.headings| {
      usage := ScanSiblings(UsageScan, doc.headings[usageSection].siblings);
    }

    assert benefits == Benefits(doc) && usage == Usage(doc);
    data := ProductRecord(if title != [] then title else DefaultName, subtitle, price, specs, description, image,
                          Take(benefits, MaxBenefits), Take(usage, MaxUsage), pageUrl);
    ParsedShape(doc, pageUrl);
  }
}
