# Product poster generator — a verified model

The poster generator turns a product page of an online shop into a
1080 × 1440 poster. The user pastes a URL, the page is fetched and parsed
into a product record (name, subtitle, price, specs, description, photo,
benefits, usage), the user may override the name and subtitle, and a
renderer lays the record out top to bottom on a canvas. A QR code of the
page URL goes in the footer. Two variants exist:

- `poster-generator/poster.js`, the enhanced variant. Each field is taken
  from a chain of selectors, and benefits have a fallback tier.
- `poster/poster.js`, the original variant. It uses one selector per field
  and does all of its extraction inline in `parseProductData`.

Both variants share the renderer, `wrapText`, `drawImageContain`, the
`Utils` helpers and the button handlers; apart from comments that code is
identical in the two files.

The model is split by the program's own objects:

| module | models |
|---|---|
| `Strings` | the JavaScript string primitives used: the `\s` class, `trim()`, `split`, `includes` |
| `Utils` | `Utils.cleanText` and `Utils.normalizeUrl` |
| `Patterns` | the regular expressions of the extractors, as leftmost-match searches |
| `Page` | the parsed document as the extractors see it, and the heading-anchored sibling walk |
| `EnhancedParser` | `Parser` of the enhanced variant |
| `OriginalParser` | `Parser.parseProductData` of the original variant |
| `Product` | the product record, its defaults and bounds |
| `Canvas` | drawing commands and the text-measuring function |
| `TextWrap` | `PosterRenderer.wrapText` |
| `ImageFit` | `PosterRenderer.drawImageContain` |
| `Renderer` | `PosterRenderer.render` and the `draw*` methods |
| `Handlers` | `EventHandlers.handleGenerate` and the file name of `handleDownload` |

Code that works step by step is written as methods with loops. This covers:

- the character loop of `wrapText`;
- the counted `while` walks over the siblings of an anchor heading;
- the row `forEach` loops that reassign `currentY`;
- the field-by-field assignments of `parseProductData`;
- `render` itself.

Each of these methods is proved equal to a specification function:
`render`, for instance, to `Poster`, the commands of all sections in order,
and to `Layout`, the cursor after each section. The properties the source
promises are proved about those functions as lemmas. Pure code is written
as functions, with contracts that state what they promise.

A few behaviours of the code that the model keeps:

- `normalizeUrl` resolves relative addresses against the fixed origin
  `https://canadiannaturals.ca`; the page URL is not used.
- An `og:title` is used as it is, without removing a site-name suffix.
- The `<title>` fallback cuts at the first `|` and then at the first `-`,
  so a hyphenated product name loses everything after its hyphen.
- `extractImage` receives the page URL but does not use it.

## Model

| member | source | states |
|---|---|---|
| Strings.Trim | poster/poster.js:148 | `trim()` returns the slice left after dropping leading and trailing whitespace; everything dropped is whitespace, and the result neither starts nor ends with whitespace |
| Strings.BeforeFirst | poster/poster.js:155 | `split(c)[0]` is the longest prefix without `c`, and is followed by `c` when shorter than the input |
| Strings.Split | poster/poster.js:155 | `split('\n')` parts contain no separator, the first part is `BeforeFirst`, and joining the parts with the separator gives back the input |
| Utils.CleanText | poster-generator/poster.js:91-93 | `cleanText` output is the words of the input (its maximal runs of non-whitespace) in order, each separated from the next by exactly one space; so it is single-spaced with no whitespace at either end, keeps every non-whitespace character in order, and is empty exactly when the input is blank |
| Utils.Collapse | poster-generator/poster.js:92 | `replace(/\s+/g, ' ')` turns each maximal whitespace run into one space: the result is empty exactly when the input is, and starts with whitespace exactly when the input does |
| Utils.WordsAreWords | poster-generator/poster.js:91-93 | every word of a string is non-empty and holds no whitespace |
| Utils.CollapseWords | poster-generator/poster.js:92 | after `replace(/\s+/g, ' ')` a string is its words joined by single spaces, with one space in front when it started with whitespace and one at the end when whitespace followed its last word |
| Utils.CleanTextWords | poster-generator/poster.js:91-93 | trimming the collapsed string leaves exactly the words joined by single spaces |
| Utils.CollapseSingleSpaced | poster-generator/poster.js:92 | after `replace(/\s+/g, ' ')` every whitespace character is a plain space followed by no other whitespace |
| Utils.CollapseNonSpace | poster-generator/poster.js:92 | `replace(/\s+/g, ' ')` keeps exactly the non-whitespace characters, in order |
| Utils.CleanTextFixpoint | poster/poster.js:92-94 | a clean string is left unchanged by `cleanText` |
| Utils.CleanTextIdempotent | poster/poster.js:92-94 | `cleanText(cleanText(s)) == cleanText(s)` |
| Utils.CleanTextChars | poster-generator/poster.js:91-93 | `cleanText` introduces no character other than the space |
| Utils.NormalizeUrl | poster-generator/poster.js:82-89 | the five cases: empty stays empty, an `http(s)://` URL (any case) is unchanged, `//x` gets `https:`, `/x` gets the base origin, a string without `://` gets the base and `/`; only a prefix is ever added, and every non-empty result is an http(s) URL unless the input already named another scheme |
| Utils.NormalizeUrlIdempotent | poster/poster.js:83-90 | normalising twice is normalising once |
| TextWrap.WrapFromConcat | poster-generator/poster.js:756-778 | no character is lost or duplicated: the lines still to come concatenate to the unfinished line followed by the unread text |
| TextWrap.WrapFromNonEmpty | poster-generator/poster.js:756-778 | no emitted line is empty |
| TextWrap.WrapFromFits | poster-generator/poster.js:756-778 | every emitted line fits the width or is a single character |
| TextWrap.WrapFromCount | poster-generator/poster.js:756-778 | there are never more lines than characters, and non-empty text gives at least one line |
| TextWrap.WrapFromHead | poster-generator/poster.js:756-778 | the unfinished line is the start of the next line emitted |
| TextWrap.WrapFromBreaks | poster/poster.js:592-597 | a line is closed only when adding the next character would make it wider than the limit: each emitted line followed by the first character of the next line overflows |
| TextWrap.WrapFrom | poster/poster.js:588-602 | the definition: from an unfinished line and the unread text, each character is appended unless the line is non-empty and the result would be wider than the limit, in which case the line is emitted and the character starts the next; a non-empty last line is emitted at the end |
| TextWrap.Wrap | poster/poster.js:583-605 | the definition: `wrapText` starts with an empty line and the whole text |
| TextWrap.WrapProperties | poster/poster.js:583-605 | the lines of `wrapText` concatenate to the input, are non-empty, each fits or is one character, empty text gives no lines, and the wrap is greedy: every line but the last was closed because the first character of the next line would have made it wider than the limit |
| TextWrap.WrapText | poster/poster.js:583-605 | the character loop returns exactly the specified lines, with the properties above, greediness included |
| ImageFit.ContainFit | poster/poster.js:620-630 | for a positive image size the drawn size fits the box, fills it in one direction, keeps the aspect ratio, and has equal margins on opposite sides |
| ImageFit.ContainExample | poster-generator/poster.js:791-801 | a 300 × 450 image in a 500 × 500 box is drawn 1000/3 × 500 with the side margins split evenly |
| Product.Take | poster/poster.js:267-268 | `slice(0, n)` returns the first min(n, length) elements: a prefix of exactly that length, the whole list when it is short enough |
| Patterns.RunEnd | poster-generator/poster.js:262 | a greedy run such as `[\d,]+` or `\d*` ends at the first character outside its class |
| Patterns.PriceAt | poster-generator/poster.js:262 | a match of `\$[\d,]+\.?\d*` starts exactly where a `$` is followed by a digit or comma; the match is `$`, digits and commas, then at most one `.` followed only by digits, and it cannot be extended |
| Patterns.FindPrice | poster/poster.js:166 | the search finds the leftmost position where a price match starts, and none before it |
| Patterns.MatchPrice | poster/poster.js:166-167 | `match(...)` succeeds exactly when some position starts a price, and the match is `$` followed by a digit or a comma |
| Patterns.FindPieces | poster-generator/poster.js:285-287 | a unit pattern's search finds its leftmost match and none before it |
| Patterns.MatchPieces | poster-generator/poster.js:286 | a unit pattern matches exactly when its search finds a start |
| Patterns.PiecesShape | poster-generator/poster.js:277-281 | a unit match starts with a digit and ends with the unit's last character |
| Patterns.BackOff | poster/poster.js:175 | when `\s*` must give characters back, the engine settles on the longest run after which the rest of the pattern can start |
| Patterns.GreedyLabelAt | poster-generator/poster.js:282 | the group of `规格[：:]\s*([^\n]+)` is non-empty and holds no newline |
| Patterns.LazyLabelAt | poster/poster.js:175 | the group of `规格[：:]\s*(.+?)(?:\n\|$)` is non-empty and holds no line terminator |
| Patterns.FindLabel | poster/poster.js:175-176 | the leftmost label match yields a non-empty single-line group in either form |
| Patterns.LabelExample | poster/poster.js:175-176 | `规格：60粒\n产地` yields `60粒` in both forms |
| Page.FirstIndex | poster-generator/poster.js:201-206 | a first-match loop returns the first candidate that qualifies, and none before it qualifies |
| Page.ScanLookahead | poster-generator/poster.js:384 | the walk after an anchor examines only the first `limit` siblings (10 for benefits, 5 for usage) |
| Page.ScanStops | poster-generator/poster.js:385-396 | the walk stops at the first list or `h2`–`h4`; it yields the paragraphs kept before that point and, for a list, the items kept from it |
| Page.ScanRunsOut | poster/poster.js:239-256 | with no list or section heading within reach, only the paragraphs within reach contribute |
| Page.ScanKeeps | poster-generator/poster.js:384-398 | every entry the walk yields satisfies any property that everything the item and paragraph filters keep satisfies |
| Page.FilterMapKeeps | poster-generator/poster.js:404-410 | the same for a `forEach` over list items |
| Page.KeepItems | poster-generator/poster.js:386-392 | the `forEach` over a list's items pushes exactly what the filter keeps, in order |
| Page.VisitSibling | poster/poster.js:240-256 | one loop body: at a list or a section heading it finishes the walk; otherwise the output so far plus the rest of the walk is unchanged |
| Page.ScanSiblings | poster/poster.js:236-257 | the counted `while` loop pushes exactly what the specified walk yields |
| Page.Scan | poster-generator/poster.js:384-398 | the definition of the walk: within the remaining budget, a list ends it with the items the filter keeps, an `h2`–`h4` ends it with nothing, a paragraph contributes what the paragraph filter keeps, anything else nothing |
| EnhancedParser.StripSiteName | poster-generator/poster.js:215 | the `<title>` text is cut before the first `\|` and then before the first `-`, so it holds neither, and what is left is a prefix |
| EnhancedParser.ExtractTitle | poster-generator/poster.js:190-220 | the first selector whose element has non-blank text wins, cleaned and non-empty; then `og:title`, cleaned; then the stripped `<title>`, which holds neither `\|` nor `-`; else empty; the result is always clean |
| EnhancedParser.ExtractSubtitle | poster-generator/poster.js:223-244 | the first candidate whose cleaned text has a Latin letter, differs from the title and is shorter than 100 wins; empty exactly when none qualifies |
| EnhancedParser.ExtractPrice | poster-generator/poster.js:247-268 | empty exactly when no candidate holds a price; otherwise the leftmost price match in the first candidate that has one, which starts with `$` and a digit or comma |
| EnhancedParser.ExtractSpecs | poster-generator/poster.js:271-291 | the first unit pattern with a match in the body wins, and its match is never blank; otherwise the cleaned capture group of the leftmost `规格:` label match (a non-empty group with no newline), or empty when there is none |
| EnhancedParser.ImageSource | poster-generator/poster.js:307-312 | a meta tag offers its `content`; an image offers `src`, `data-src`, `data-lazy-src`, the first that is not empty |
| EnhancedParser.ExtractImage | poster-generator/poster.js:294-339 | the first candidate whose address is not an icon, logo or placeholder wins, normalised; otherwise the first image wider than 100 that is not a logo or icon; the result is already normalised |
| EnhancedParser.ExtractDescription | poster-generator/poster.js:342-362 | the first candidate whose cleaned text is longer than 20 wins; empty exactly when none is |
| EnhancedParser.FirstLine | poster-generator/poster.js:419-421 | after the bullet run is stripped, the first line holds no newline and does not start with a bullet character |
| EnhancedParser.CleanBenefitText | poster-generator/poster.js:417-427 | no newline, no leading bullet, digit, `.`, `-`, whitespace or listed emoji, at most 83 characters; a first line over 80 is cut at 80 and ends in `...`, a shorter one is kept whole |
| EnhancedParser.BenefitsAreLines | poster-generator/poster.js:365-414 | each benefit is a single line longer than 3 and at most 83; the fallback over every list item is used exactly when the anchored tier found nothing; the result is the first min(5, n) entries of the tier used, n being that tier's length |
| EnhancedParser.BenefitTier | poster-generator/poster.js:365-410 | the definition: the anchored walk, or the fallback over every list item when that walk found nothing |
| EnhancedParser.KeepFallbackBenefit | poster-generator/poster.js:405-410 | a fallback item is kept exactly when its cleaned text is longer than five and shorter than 100, and is kept cleaned |
| EnhancedParser.KeepBenefit | poster-generator/poster.js:387-392 | an anchored item is kept exactly when its cleaned text is longer than three, and is kept cleaned |
| EnhancedParser.Benefits | poster-generator/poster.js:365-414 | the definition: the anchored walk after the first heading naming a benefit, or every list item the fallback filter keeps when that walk found nothing, cut to five |
| EnhancedParser.ExtractBenefits | poster-generator/poster.js:365-414 | the anchored walk, then the fallback only if it found nothing, then the first min(5, n) of the tier used, pushed as the source does |
| EnhancedParser.UsageAreLines | poster-generator/poster.js:430-472 | the first min(3, n) entries of the usage walk are kept, each clean and non-empty, and either longer than 5 or naming `每`, `次` or `天` |
| EnhancedParser.UsageWalk | poster-generator/poster.js:430-468 | the definition: the walk of up to five siblings after the first heading naming usage |
| EnhancedParser.KeepUsageParagraph | poster-generator/poster.js:458-462 | a paragraph is kept exactly when its cleaned text is not blank and contains `每`, `次` or `天`, and is kept cleaned |
| EnhancedParser.KeepUsageItem | poster-generator/poster.js:450-455 | a usage item is kept exactly when its cleaned text is longer than five, and is kept cleaned |
| EnhancedParser.Usage | poster-generator/poster.js:430-472 | the definition: the walk after the first heading naming usage, cut to three |
| EnhancedParser.ExtractUsage | poster-generator/poster.js:430-472 | the usage walk as written returns the specified list: the first min(3, n) entries of the walk, with the properties above |
| EnhancedParser.ParseProductData | poster-generator/poster.js:139-187 | the record of the extractors, in order, with the name defaulting to `产品名称`; the benefits are the first min(5, n) of the tier used and the usage the first min(3, n) of the walk, all well formed |
| EnhancedParser.Parsed | poster-generator/poster.js:139-187 | the definition: the extractors' results in the record, the name defaulting to `产品名称`, the subtitle compared with the extracted title |
| OriginalParser.Title | poster/poster.js:145-149 | the definition: the trimmed text of the first `h1`, or empty when there is none; its contract states the result is trimmed and empty without the element |
| OriginalParser.TrimmedLines | poster/poster.js:155 | `map(l => l.trim()).filter(l => l)`: exactly the parts whose trim is not blank, trimmed, in order (the item filter `FilterMap` with `KeepTrimmed`), each a non-blank trimmed single line |
| OriginalParser.ParentLines | poster/poster.js:153-155 | the parent's text yields non-blank trimmed single lines |
| OriginalParser.PickSubtitle | poster/poster.js:156-158 | with more than one line, the first line with a Latin letter that is not the title (that line itself), empty exactly when there is none; with one line or none, empty |
| OriginalParser.Subtitle | poster/poster.js:152-159 | the subtitle is empty or a trimmed single line that has a Latin letter and differs from the title; empty without an `h1` |
| OriginalParser.Price | poster/poster.js:162-168 | the leftmost price match of the trimmed price element, which starts with `$` and a digit or comma; empty when the element is missing or holds no price |
| OriginalParser.Specs | poster/poster.js:171-177 | the definition: the trimmed group of the lazy `规格` label pattern; its contract states the result holds no line terminator, is trimmed, and is empty without the element |
| OriginalParser.Image | poster/poster.js:180-185 | `src` when not empty, else `data-src` when not empty, else `data-lazy-src`, normalised (an already normalised address); empty without the element |
| OriginalParser.Description | poster/poster.js:188-192 | the definition: the trimmed paragraph text, or empty; its contract states the result is trimmed |
| OriginalParser.StripEmojiRun | poster/poster.js:215 | when the text starts with an emoji bullet, exactly the longest emoji run and the longest whitespace run after it are removed, so what is left is empty or does not start with whitespace; text that does not start with one is unchanged |
| OriginalParser.FirstLine | poster/poster.js:211-213 | `split('\n')[0].trim()` holds no newline |
| OriginalParser.WithoutEmoji | poster/poster.js:215 | the line without its emoji run, trimmed again, is empty or a trimmed single line |
| OriginalParser.KeepBenefit | poster/poster.js:208-216 | an item is kept exactly when its trimmed text is longer than five and its trimmed first line without the emoji run is not blank; what is kept is that line, a non-blank trimmed single line |
| OriginalParser.BenefitsAreLines | poster/poster.js:195-227 | every benefit the walk after the `主要成分` / `功效` heading yields is a non-blank trimmed single line |
| OriginalParser.Benefits | poster/poster.js:195-227 | the definition: the walk of up to ten siblings after the first `主要成分` / `功效` heading |
| OriginalParser.UsageParagraphsTrimmed | poster/poster.js:247-251 | a kept paragraph is non-blank, trimmed, and contains `每次`, `每天` or `每日` |
| OriginalParser.KeepTrimmed | poster/poster.js:242-245 | a usage item (and a parent line) is kept exactly when its trim is not blank, and is kept trimmed |
| OriginalParser.KeepUsageParagraph | poster/poster.js:247-251 | a paragraph is kept exactly when its trimmed text contains `每次`, `每天` or `每日`, and is kept trimmed |
| OriginalParser.UsageAreLines | poster/poster.js:230-258 | every usage entry is non-blank and trimmed |
| OriginalParser.Usage | poster/poster.js:230-258 | the definition: the walk of up to five siblings after the first usage heading |
| OriginalParser.ParsedShape | poster/poster.js:260-270 | the record always has a name; the benefits are the first min(5, n) of the benefits walk and the usage the first min(3, n) of the usage walk, all trimmed lines |
| OriginalParser.ParseProductData | poster/poster.js:141-271 | the field-by-field parser with its two `while` walks returns the specified record, keeping the first min(5, n) benefits and min(3, n) usage entries |
| OriginalParser.Parsed | poster/poster.js:260-270 | the definition: the record of the field extractors, the name defaulting to `产品名称`, at most five benefits and three usage entries |
| Renderer.Header | poster/poster.js:331-354 | the header draws the brand name, then a horizontal rule 75 below the cursor, both between the cursor and 100 below it, and advances exactly 100 |
| Renderer.ProductImage | poster/poster.js:356-379 | the photo stays inside its 500-high box, and the section advances 540 |
| Renderer.PriceLine | poster/poster.js:413-421 | price and specs are joined by `  \|  ` only when both are present; either alone is shown as it is |
| Renderer.TitleBlock | poster/poster.js:381-429 | every wrapped title line is drawn centred, 56 apart; the block advances lines × 56 + 20, plus 40 with a subtitle and 50 with a price or specs |
| Renderer.Description | poster/poster.js:431-448 | at most three wrapped lines, 36 apart, are drawn, and the cursor advances min(n, 3) × 36 + 40 |
| Renderer.Row | poster/poster.js:469-489 | a row draws the bullet first when the style has one, then exactly the first min(n, 2) wrapped lines, one line height apart from the cursor down, and advances min(n, 2) × line height + gap |
| Renderer.RowsFrozen | poster/poster.js:466-467 | past the safe bottom every remaining row is skipped and the cursor stays |
| Renderer.Rows | poster/poster.js:466-490 | the definition: rows are drawn one after another from the cursor each leaves, and an item whose row would start below the safe bottom is skipped |
| Renderer.RowsCursor | poster/poster.js:450-530 | the row cursor never moves up, and ends at most one full row below the safe bottom |
| Renderer.RowsCommands | poster/poster.js:450-530 | rows draw only text and bullets, at most three commands per item, none more than a line below the safe bottom |
| Renderer.RowsAppend | poster/poster.js:466-490 | the rows of `a + b` are the rows of `a` then the rows of `b` from where `a` left the cursor |
| Renderer.DrawRows | poster/poster.js:466-490 | the `forEach` that reassigns `currentY` draws the specified rows, and the cursor stays within the bounds above |
| Renderer.BenefitsSection | poster/poster.js:450-493 | the benefits heading comes first and the section advances at least 80 |
| Renderer.UsageSection | poster/poster.js:495-530 | the usage heading comes first and the section advances at least 50 |
| Renderer.DrawBenefits | poster/poster.js:450-493 | `drawBenefits` draws the specified section |
| Renderer.DrawUsage | poster/poster.js:495-530 | `drawUsage` draws the specified section |
| Renderer.Footer | poster/poster.js:532-580 | the QR code encodes the URL at fixed coordinates in the padded bottom-right corner with 40 reserved under it; its frame and every text stay above the bottom padding |
| Renderer.PhotoPart | poster/poster.js:295-305 | the photo section advances 540 when there is an address and the image loaded, and 40 otherwise |
| Renderer.DescriptionPart | poster/poster.js:311-313 | an empty description draws nothing and leaves the cursor |
| Renderer.BenefitsPart | poster/poster.js:316-318 | an empty benefits list draws nothing and leaves the cursor |
| Renderer.UsagePart | poster/poster.js:321-323 | an empty usage list draws nothing and leaves the cursor |
| Renderer.Poster | poster/poster.js:285-326 | the canvas is cleared first, then the sections are drawn top to bottom, each from the cursor the one before left; the footer is drawn last and its QR code encodes the product URL |
| Renderer.Layout | poster/poster.js:289-323 | the cursor after each section: header +100, image +540 or +40, the title block, an empty description +0, empty lists +0; it only moves down |
| Renderer.Render | poster/poster.js:276-329 | `render` draws exactly `Poster` and passes the cursor through exactly `Layout` |
| Handlers.PrepareUrl | poster-generator/poster.js:807-814 | a blank field is refused; otherwise the trimmed input is normalised to a non-empty http(s) URL or a URL that already names a scheme |
| Handlers.ApplyOverrides | poster/poster.js:659-664 | a non-blank trimmed override replaces the name or subtitle, and every other field is unchanged |
| Handlers.BlankOverridesKeep | poster-generator/poster.js:826-831 | blank overrides leave the record as it was |
| Handlers.OverridesIdempotent | poster-generator/poster.js:826-831 | applying the same overrides twice is applying them once |
| Handlers.DownloadName | poster/poster.js:695-697 | the name is the first 20 characters of the product name followed by `_海报.png`, or `产品海报.png` when there is no poster |
| Handlers.ParseProductData | poster-generator/poster.js:824 | the variant's parser returns `ParseWith` of that variant, a named record carrying the page URL |
| Handlers.ParseWith | poster-generator/poster.js:824 | the definition: the record `parseProductData` of the chosen variant returns |
| Handlers.QrPayload | poster/poster.js:539-563 | the definition: what the QR code drawn third from the end of a poster encodes |
| Handlers.Photo | poster/poster.js:295-297 | `load(image)` when the record names an address, no photo otherwise; of positive size when loaded |
| Handlers.ParseWithUrl | poster/poster.js:269 | the record of either variant, with or without overrides, carries the page URL |
| Handlers.DrawPoster | poster-generator/poster.js:836 | the commands drawn are exactly `Renderer.Poster` of the record and its loaded photo, so the canvas is first filled white and the QR code encodes the record's URL |
| Handlers.HandleGenerate | poster-generator/poster.js:806-846 | a blank URL field is refused before anything is fetched; a failed fetch reports the normalised URL; otherwise the parsed record with its overrides is the outcome and the poster is exactly `Renderer.Poster` of that record and its photo, its QR code encoding the record's URL; no poster is drawn without a record |

## Left out

- Strings are sequences of Unicode code points. JavaScript strings are
  UTF-16 code units, so for text with characters outside the Basic
  Multilingual Plane the model differs in four places:
  - the length tests (`length > 5`, `length < 100`, `slice(0, 20)`, the
    80-character cut);
  - `wrapText`'s `split('')`;
  - the non-`u` emoji classes, which the source matches one surrogate half
    at a time. The model treats each listed emoji as one character.
- Fetching the page (`Network.fetchHtml` and the worker relay),
  `Utils.loadImage` and `Utils.waitForFonts` are I/O. They are parameters:
  `fetch`, `load` and the `photo` argument of `Renderer.Render`. A failed
  image load is a `None` photo.
- `DOMParser` and CSS selector matching are given as data: what
  `querySelector` returns for each selector string, and the lists
  `querySelectorAll` returns. `Element.src` is the value of the `src`
  property, which the browser has already resolved to an absolute address
  (the empty string when the attribute is absent); that resolution is not
  modelled. `dataset.lazySrc` and `getAttribute('data-lazy-src')` read the
  same attribute.
- Canvas state is not modelled. This covers fonts, styles,
  `save`/`restore`, path construction and clipping. Text width is an
  uninterpreted measure function of the font and the text.
- QR code generation, blob creation and the download itself are left
  out. Only the QR payload and position and the download file name are
  modelled.
- Left out as UI plumbing: status messages, button enabling, `init`,
  `handleClear`, the globals `currentData` and `downloadUrl`, and console
  logging.
- ImageFit.ContainFit: uses exact real arithmetic, not IEEE doubles, and
  requires a positive image size. For an image of width or height zero
  the source divides by zero and gets `Infinity` or `NaN`. `drawImage`
  then silently draws nothing, while the cursor still advances 540. That
  case is not modelled. Renderer.ProductImage, Renderer.PhotoPart,
  Renderer.Poster, Renderer.Layout, Renderer.Render, Handlers.Photo,
  Handlers.DrawPoster and Handlers.HandleGenerate inherit the positive-size requirement.
- Handlers.HandleGenerate: receives the variant's `parseProductData` as
  the function `parse`. The imperative form is
  `Handlers.ParseProductData`, whose result is `ParseWith` of the variant.
  The try/catch reporting of unexpected exceptions is not modelled.
- Utils.CleanText: the falsy inputs `null` and `undefined` reach it only as
  the empty string.
- EnhancedParser.ExtractSpecs: regular expressions are modelled only in
  the shapes the extractors use, as leftmost greedy searches. There is no
  general regex engine.
