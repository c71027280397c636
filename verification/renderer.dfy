/** `PosterRenderer`: lays the poster out top to bottom, threading the
    vertical cursor `currentY` through header, photo, title, description,
    benefits and usage, and puts the QR footer at fixed coordinates. The
    two variants of the program share this code unchanged. */
module Renderer {
  import opened Optional
  import opened Canvas
  import opened TextWrap
  import opened ImageFit
  import opened Product

  const Width: int := 1080
  const Height: int := 1440
  const Padding: int := 60
  const ImageHeight: int := 500
  const SectionGap: int := 40
  const QrSize: int := 160

  const Background: string := "#ffffff"
  const Primary: string := "#1a1a1a"
  const Secondary: string := "#666666"
  const Accent: string := "#c8102e"
  const Gold: string := "#d4af37"
  const LightBg: string := "#f8f9fa"
  const Border: string := "#e5e5e5"

  const BrandName: string := "加国甄选"
  const Website: string := "canadiannaturals.ca"
  const Tagline: string := "扫码查看详情"
  const BenefitsHeading: string := "产品特点"
  const UsageHeading: string := "使用方法"
  /** What goes between price and specs when both are present. */
  const PriceSeparator: string := "  |  "

  const BrandFont: string := "bold 56px \"Ma Shan Zheng\", \"Noto Sans SC\""
  const TitleFont: string := "bold 46px \"Noto Sans SC\""
  const SubtitleFont: string := "24px \"Noto Sans SC\""
  const PriceFont: string := "bold 32px \"Noto Sans SC\""
  const DescriptionFont: string := "24px \"Noto Sans SC\""
  const HeadingFont: string := "bold 36px \"Noto Sans SC\""
  const BenefitFont: string := "26px \"Noto Sans SC\""
  const UsageFont: string := "24px \"Noto Sans SC\""
  const TaglineFont: string := "20px \"Noto Sans SC\""
  const WebsiteFont: string := "22px \"Noto Sans SC\""

  /** The commands one part of the poster draws and the cursor after it. */
  datatype Section = Section(cmds: seq<DrawCmd>, cursor: int)

  /** One text command per line, `lineHeight` apart, starting at `y`. */
  function LineTexts(lines: seq<string>, x: int, y: int, lineHeight: int, font: string, color: string, align: Align): seq<DrawCmd>
  {
    seq(|lines|, i requires 0 <= i < |lines| => Text(lines[i], x, y + i * lineHeight, font, color, align))
  }

  /** `drawHeader`: brand name and a rule under it. */
  function Header(y: int): (r: Section)
    ensures r.cursor == y + 100
    ensures |r.cmds| == 2 && r.cmds[0].Text? && r.cmds[0].text == BrandName
    ensures r.cmds[1].Line? && r.cmds[1].y1 == r.cmds[1].y2 == y + 75
    ensures forall i :: 0 <= i < |r.cmds| ==> CmdTop(r.cmds[i]) > y && CmdTop(r.cmds[i]) < r.cursor
  {
    Section([Text(BrandName, Width / 2, y + 45, BrandFont, Gold, Center),
             Line(Padding + 200, y + 75, Width - Padding - 200, y + 75, Border, 2)],
            y + 100)
  }

  /** The vertical coordinate a command is anchored at (the baseline of
      text, the top of a box, the centre of a dot). */
  function CmdTop(c: DrawCmd): int
  {
    match c
    case FillRect(_, y, _, _, _) => y
    case Text(_, _, y, _, _, _) => y
    case Line(_, y1, _, _, _, _) => y1
    case RoundRect(_, y, _, _, _, _, _) => y
    case Dot(_, cy, _, _) => cy
    case Photo(_, py, _, _) => py.Floor
    case QrCode(_, _, y, _) => y
  }

  /** `drawProductImage`: a light rounded box the width of the padded
      canvas with the photo fitted inside it. */
  function ProductImage(img: Dims, y: int): (r: Section)
    requires img.width > 0.0 && img.height > 0.0
    ensures r.cursor == y + ImageHeight + SectionGap
    ensures |r.cmds| == 2 && r.cmds[1].Photo?
    // the photo stays inside the box
    ensures var p := r.cmds[1];
      Padding as real <= p.px && p.px + p.pw <= (Width - Padding) as real &&
      y as real <= p.py && p.py + p.ph <= (y + ImageHeight) as real
  {
    var box := ContainFit(img, Padding as real, y as real, (Width - 2 * Padding) as real, ImageHeight as real);
    Section([RoundRect(Padding, y, Width - 2 * Padding, ImageHeight, 16, LightBg, ""),
             Photo(box.x, box.y, box.w, box.h)],
            y + ImageHeight + SectionGap)
  }

  /** The price line of `drawTitle`: price, specs, or both joined by the
      separator. */
  function PriceLine(price: string, specs: string): (r: string)
    ensures price == [] ==> r == specs
    ensures specs == [] ==> r == price
    ensures price != [] && specs != [] ==> r == price + PriceSeparator + specs
    ensures r == [] <==> price == [] && specs == []
  {
    var withPrice := if price != [] then price else [];
    if specs != [] then withPrice + (if price != [] then PriceSeparator else []) + specs else withPrice
  }

  /** `drawTitle`: the wrapped name, 56 apart, then the subtitle and the
      price line when there are any. */
  function TitleBlock(measure: Measure, data: ProductRecord, y: int): (r: Section)
    ensures var n := |Wrap(measure, TitleFont, data.name, (Width - 2 * Padding) as real)|;
      r.cursor == y + n * 56 + 20
                  + (if data.subtitle != [] then 40 else 0)
                  + (if data.price != [] || data.specs != [] then 50 else 0)
    ensures r.cursor >= y + 20
    // every title line is drawn, centred
    ensures |Wrap(measure, TitleFont, data.name, (Width - 2 * Padding) as real)| <= |r.cmds|
    ensures r.cmds[..|Wrap(measure, TitleFont, data.name, (Width - 2 * Padding) as real)|]
         == LineTexts(Wrap(measure, TitleFont, data.name, (Width - 2 * Padding) as real), Width / 2, y, 56, TitleFont, Primary, Center)
  {
    var lines := Wrap(measure, TitleFont, data.name, (Width - 2 * Padding) as real);
    var afterTitle := y + |lines| * 56 + 20;
    var subtitle := if data.subtitle != [] then [Text(data.subtitle, Width / 2, afterTitle, SubtitleFont, Secondary, Center)] else [];
    var afterSubtitle := afterTitle + (if data.subtitle != [] then 40 else 0);
    var priceText := PriceLine(data.price, data.specs);
    var price := if priceText != [] then [Text(priceText, Width / 2, afterSubtitle, PriceFont, Accent, Center)] else [];
    var cmds := LineTexts(lines, Width / 2, y, 56, TitleFont, Primary, Center) + subtitle + price;
    assert cmds[..|lines|] == LineTexts(lines, Width / 2, y, 56, TitleFont, Primary, Center);
    Section(cmds, afterSubtitle + (if priceText != [] then 50 else 0))
  }

  /** `drawDescription`: at most three wrapped lines, 36 apart, in a
      column 100 narrower than the padded canvas. */
  function Description(measure: Measure, text: string, y: int): (r: Section)
    ensures var lines := Wrap(measure, DescriptionFont, text, (Width - 2 * Padding - 100) as real);
      r.cursor == y + Min(|lines|, 3) * 36 + 40 &&
      |r.cmds| == Min(|lines|, 3) &&
      forall i :: 0 <= i < |r.cmds| ==> r.cmds[i] == Text(lines[i], Width / 2, y + i * 36, DescriptionFont, Secondary, Center)
  {
    var lines := Wrap(measure, DescriptionFont, text, (Width - 2 * Padding - 100) as real);
    var shown := Take(lines, 3);
    Section(LineTexts(shown, Width / 2, y, 36, DescriptionFont, Secondary, Center), y + |shown| * 36 + 40)
  }

  /** How a benefit or usage row is drawn. */
  datatype RowStyle = RowStyle(font: string, color: string, textX: int, lineHeight: nat, gap: nat, safeBottom: int, bullet: bool)

  /** `drawBenefits` rows: bulleted, 38 apart, skipped below `h - 300`. */
  const BenefitRows: RowStyle := RowStyle(BenefitFont, Primary, Padding + 50, 38, 15, Height - 300, true)
  /** `drawUsage` rows: plain, 34 apart, skipped below `h - 250`. */
  const UsageRows: RowStyle := RowStyle(UsageFont, Secondary, Padding + 20, 34, 10, Height - 250, false)
  /** Both row kinds wrap at the padded width less 80. */
  const RowWidth: int := Width - 2 * Padding - 80

  function RowLines(measure: Measure, style: RowStyle, item: string): seq<string>
  {
    Wrap(measure, style.font, item, RowWidth as real)
  }

  /** One row at cursor `y`: an optional bullet and its first two lines. */
  function Row(measure: Measure, style: RowStyle, item: string, y: int): (r: Section)
    ensures var n := |RowLines(measure, style, item)|;
      r.cursor == y + Min(n, 2) * style.lineHeight + style.gap
    ensures |r.cmds| <= 3
    // the bullet first, when the style has one, then the first two lines
    ensures var lines := RowLines(measure, style, item);
      var b := if style.bullet then 1 else 0;
      |r.cmds| == b + Min(|lines|, 2) &&
      (style.bullet ==> r.cmds[0] == Dot(Padding + 20, y - 6, 6, Accent)) &&
      forall i :: 0 <= i < Min(|lines|, 2) ==>
        r.cmds[b + i] == Text(lines[i], style.textX, y + i * style.lineHeight, style.font, style.color, Left)
    ensures forall i :: 0 <= i < |r.cmds| ==> (r.cmds[i].Text? || r.cmds[i].Dot?) && y - 6 <= CmdTop(r.cmds[i]) <= y + style.lineHeight
  {
    var shown := Take(RowLines(measure, style, item), 2);
    var dot := if style.bullet then [Dot(Padding + 20, y - 6, 6, Accent)] else [];
    RowCmds(style, shown, y, dot);
    Section(dot + LineTexts(shown, style.textX, y, style.lineHeight, style.font, style.color, Left),
            y + |shown| * style.lineHeight + style.gap)
  }

  /** The commands of a row showing `shown`: the bullet, then the lines one
      line height apart, all within the row's band. */
  lemma RowCmds(style: RowStyle, shown: seq<string>, y: int, dot: seq<DrawCmd>)
    requires |shown| <= 2
    requires dot == if style.bullet then [Dot(Padding + 20, y - 6, 6, Accent)] else []
    ensures var cmds := dot + LineTexts(shown, style.textX, y, style.lineHeight, style.font, style.color, Left);
      var b := if style.bullet then 1 else 0;
      |cmds| == b + |shown| &&
      (style.bullet ==> cmds[0] == Dot(Padding + 20, y - 6, 6, Accent)) &&
      (forall i :: 0 <= i < |shown| ==>
        cmds[b + i] == Text(shown[i], style.textX, y + i * style.lineHeight, style.font, style.color, Left)) &&
      forall i :: 0 <= i < |cmds| ==> (cmds[i].Text? || cmds[i].Dot?) && y - 6 <= CmdTop(cmds[i]) <= y + style.lineHeight
  {
    var texts := LineTexts(shown, style.textX, y, style.lineHeight, style.font, style.color, Left);
    var cmds := dot + texts;
    forall i | 0 <= i < |cmds|
      ensures (cmds[i].Text? || cmds[i].Dot?) && y - 6 <= CmdTop(cmds[i]) <= y + style.lineHeight
    {
      if i >= |dot| {
        var k := i - |dot|;
        assert cmds[i] == texts[k];
        assert k == 0 || k == 1;
      }
    }
  }

  /** The rows of `items` from cursor `y` on: a row whose cursor is already
      below the safe bottom is skipped and leaves the cursor where it is. */
  function Rows(measure: Measure, style: RowStyle, items: seq<string>, y: int): (r: Section)
    decreases |items|
  {
    if items == [] then Section([], y)
    else if y > style.safeBottom then Rows(measure, style, items[1..], y)
    else
      var row := Row(measure, style, items[0], y);
      var rest := Rows(measure, style, items[1..], row.cursor);
      Section(row.cmds + rest.cmds, rest.cursor)
  }

  /** Once the cursor has passed the safe bottom, every remaining row is
      skipped and the cursor no longer moves. */
  lemma {:induction false} RowsFrozen(measure: Measure, style: RowStyle, items: seq<string>, y: int)
    requires y > style.safeBottom
    ensures Rows(measure, style, items, y) == Section([], y)
    decreases |items|
  {
    if items != [] {
      RowsFrozen(measure, style, items[1..], y);
    }
  }

  /** The cursor never moves up, and never ends further down than one
      full row below the safe bottom (unless it started there). */
  lemma {:induction false} RowsCursor(measure: Measure, style: RowStyle, items: seq<string>, y: int)
    ensures y <= Rows(measure, style, items, y).cursor
    ensures Rows(measure, style, items, y).cursor <= Max(y, style.safeBottom + 2 * style.lineHeight + style.gap)
    decreases |items|
  {
    if items != [] {
      if y > style.safeBottom {
        RowsCursor(measure, style, items[1..], y);
      } else {
        var row := Row(measure, style, items[0], y);
        RowAdvance(measure, style, items[0], y);
        RowsCursor(measure, style, items[1..], row.cursor);
      }
    }
  }

  /** A row moves the cursor down by at least nothing and at most two
      lines and the gap. */
  lemma RowAdvance(measure: Measure, style: RowStyle, item: string, y: int)
    ensures y <= Row(measure, style, item, y).cursor <= y + 2 * style.lineHeight + style.gap
  {
    var n := Min(|RowLines(measure, style, item)|, 2);
    assert 0 <= n <= 2;
    assert n * style.lineHeight <= 2 * style.lineHeight;
  }

  /** Rows draw only text and bullets, at most three commands per item, and
      no baseline lies more than one line below the safe bottom. */
  lemma {:induction false} RowsCommands(measure: Measure, style: RowStyle, items: seq<string>, y: int)
    ensures var r := Rows(measure, style, items, y);
      |r.cmds| <= 3 * |items| &&
      forall i :: 0 <= i < |r.cmds| ==> (r.cmds[i].Text? || r.cmds[i].Dot?) && CmdTop(r.cmds[i]) <= style.safeBottom + style.lineHeight
    decreases |items|
  {
    if items != [] {
      if y > style.safeBottom {
        RowsCommands(measure, style, items[1..], y);
      } else {
        var row := Row(measure, style, items[0], y);
        RowsCommands(measure, style, items[1..], row.cursor);
      }
    }
  }

  /** Appending items appends rows: the rows of `a + b` are the rows of
      `a` followed by the rows of `b` from where `a` left the cursor. */
  lemma {:induction false} RowsAppend(measure: Measure, style: RowStyle, a: seq<string>, b: seq<string>, y: int)
    ensures var ra := Rows(measure, style, a, y);
      Rows(measure, style, a + b, y) == Section(ra.cmds + Rows(measure, style, b, ra.cursor).cmds, Rows(measure, style, b, ra.cursor).cursor)
    decreases |a|
  {
    if a == [] {
      assert a + b == b;
    } else {
      assert (a + b)[1..] == a[1..] + b;
      if y > style.safeBottom {
        RowsAppend(measure, style, a[1..], b, y);
      } else {
        var row := Row(measure, style, a[0], y);
        RowsAppend(measure, style, a[1..], b, row.cursor);
      }
    }
  }

  function Max(a: int, b: int): int
  {
    if a >= b then a else b
  }

  /** The `forEach` over the rows, reassigning `currentY` as it goes. */
  method DrawRows(measure: Measure, style: RowStyle, items: seq<string>, y: int) returns (cmds: seq<DrawCmd>, cursor: int)
    ensures Section(cmds, cursor) == Rows(measure, style, items, y)
    ensures y <= cursor <= Max(y, style.safeBottom + 2 * style.lineHeight + style.gap)
  {
    cmds := [];
    cursor := y;
    for i := 0 to |items|
      invariant Rows(measure, style, items, y) == Section(cmds + Rows(measure, style, items[i..], cursor).cmds, Rows(measure, style, items[i..], cursor).cursor)
    {
      assert items[i..][1..] == items[i + 1..];
      if cursor <= style.safeBottom {
        var row := Row(measure, style, items[i], cursor);
        cmds := cmds + row.cmds;
        cursor := row.cursor;
      }
    }
    RowsCursor(measure, style, items, y);
  }

  /** `drawBenefits` as a value: the heading, the rows 50 below it, and a
      30 gap after the last row. */
  function BenefitsSection(measure: Measure, items: seq<string>, y: int): (r: Section)
    ensures r.cursor >= y + 80
    ensures |r.cmds| >= 1 && r.cmds[0] == Text(BenefitsHeading, Padding, y, HeadingFont, Primary, Left)
  {
    var rows := Rows(measure, BenefitRows, items, y + 50);
    RowsCursor(measure, BenefitRows, items, y + 50);
    Section([Text(BenefitsHeading, Padding, y, HeadingFont, Primary, Left)] + rows.cmds, rows.cursor + 30)
  }

  /** `drawUsage` as a value: the heading and the rows 50 below it. */
  function UsageSection(measure: Measure, items: seq<string>, y: int): (r: Section)
    ensures r.cursor >= y + 50
    ensures |r.cmds| >= 1 && r.cmds[0] == Text(UsageHeading, Padding, y, HeadingFont, Primary, Left)
  {
    var rows := Rows(measure, UsageRows, items, y + 50);
    RowsCursor(measure, UsageRows, items, y + 50);
    Section([Text(UsageHeading, Padding, y, HeadingFont, Primary, Left)] + rows.cmds, rows.cursor)
  }

  method DrawBenefits(measure: Measure, items: seq<string>, y: int) returns (cmds: seq<DrawCmd>, cursor: int)
    ensures Section(cmds, cursor) == BenefitsSection(measure, items, y)
  {
    cmds := [Text(BenefitsHeading, Padding, y, HeadingFont, Primary, Left)];
    var rows, rowsEnd := DrawRows(measure, BenefitRows, items, y + 50);
    cmds := cmds + rows;
    cursor := rowsEnd + 30;
  }

  method DrawUsage(measure: Measure, items: seq<string>, y: int) returns (cmds: seq<DrawCmd>, cursor: int)
    ensures Section(cmds, cursor) == UsageSection(measure, items, y)
  {
    cmds := [Text(UsageHeading, Padding, y, HeadingFont, Primary, Left)];
    var rows, rowsEnd := DrawRows(measure, UsageRows, items, y + 50);
    cmds := cmds + rows;
    cursor := rowsEnd;
  }

  /** `drawFooter`: the QR code of the product URL in a white rounded frame
      in the bottom right corner, the tagline under it and the website in
      the bottom left, wherever the cursor is. */
  function Footer(url: string): (r: seq<DrawCmd>)
    ensures |r| == 4 && r[1].QrCode? && r[1].payload == url
    // the QR code and its frame sit inside the padded canvas, clear of the 40 reserved under them
    ensures r[1].x + r[1].size == Width - Padding && r[1].y + r[1].size + 40 == Height - Padding
    ensures r[0].RoundRect? && r[0].x + r[0].w <= Width && r[0].y + r[0].h <= Height - Padding
    // every text baseline sits above the bottom padding
    ensures forall i :: 0 <= i < |r| ==> r[i].Text? ==> r[i].y <= Height - Padding
  {
    var qrX := Width - Padding - QrSize;
    var qrY := Height - Padding - QrSize - 40;
    [RoundRect(qrX - 10, qrY - 10, QrSize + 20, QrSize + 20, 12, "#ffffff", Border),
     QrCode(url, qrX, qrY, QrSize),
     Text(Tagline, qrX + QrSize / 2, qrY + QrSize + 32, TaglineFont, Secondary, Center),
     Text(Website, Padding, Height - Padding - 15, WebsiteFont, Gold, Left)]
  }

  /** The photo section: the fitted image when there is an address and it
      loaded, otherwise a 40-pixel gap. */
  function PhotoPart(data: ProductRecord, photo: Option<Dims>, y: int): (r: Section)
    requires photo.Some? ==> photo.value.width > 0.0 && photo.value.height > 0.0
    ensures r.cursor == y + (if data.image != [] && photo.Some? then ImageHeight + SectionGap else 40)
  {
    if data.image != [] && photo.Some? then ProductImage(photo.value, y) else Section([], y + 40)
  }

  /** A section that is drawn only when its content is non-empty. */
  function DescriptionPart(measure: Measure, text: string, y: int): (r: Section)
    ensures text == [] ==> r == Section([], y)
  {
    if text != [] then Description(measure, text, y) else Section([], y)
  }

  function BenefitsPart(measure: Measure, items: seq<string>, y: int): (r: Section)
    ensures items == [] ==> r == Section([], y)
  {
    if |items| > 0 then BenefitsSection(measure, items, y) else Section([], y)
  }

  function UsagePart(measure: Measure, items: seq<string>, y: int): (r: Section)
    ensures items == [] ==> r == Section([], y)
  {
    if |items| > 0 then UsageSection(measure, items, y) else Section([], y)
  }

  /** Everything `render` draws, in order: the background, the sections
      from top to bottom, each starting where the one before left the
      cursor, and the footer. */
  function Poster(measure: Measure, data: ProductRecord, photo: Option<Dims>): (r: seq<DrawCmd>)
    requires photo.Some? ==> photo.value.width > 0.0 && photo.value.height > 0.0
    // the canvas is cleared first and the footer drawn last
    ensures |r| >= 5 && r[0] == FillRect(0, 0, Width, Height, Background)
    ensures r[|r| - 4..] == Footer(data.url)
    // the QR code encodes the product URL
    ensures r[|r| - 3] == QrCode(data.url, Width - Padding - QrSize, Height - Padding - QrSize - 40, QrSize)
  {
    var h := Header(Padding);
    var i := PhotoPart(data, photo, h.cursor);
    var t := TitleBlock(measure, data, i.cursor);
    var d := DescriptionPart(measure, data.description, t.cursor);
    var b := BenefitsPart(measure, data.benefits, d.cursor);
    var u := UsagePart(measure, data.usage, b.cursor);
    [FillRect(0, 0, Width, Height, Background)] + h.cmds + i.cmds + t.cmds + d.cmds + b.cmds + u.cmds + Footer(data.url)
  }

  /** The cursor after each section of `render`. */
  datatype Trace = Trace(header: int, image: int, title: int, description: int, benefits: int, usage: int)

  /** Where `render` leaves the cursor after each section. */
  function Layout(measure: Measure, data: ProductRecord, photo: Option<Dims>): (r: Trace)
    requires photo.Some? ==> photo.value.width > 0.0 && photo.value.height > 0.0
    ensures r.header == Padding + 100
    // the photo section advances 540 when drawn and 40 when missing or not loaded
    ensures r.image == r.header + (if data.image != [] && photo.Some? then ImageHeight + SectionGap else 40)
    ensures TitleBlock(measure, data, r.image).cursor == r.title
    // an empty description adds nothing
    ensures data.description == [] ==> r.description == r.title
    ensures data.description != [] ==> r.description == Description(measure, data.description, r.title).cursor
    ensures r.benefits == (if data.benefits == [] then r.description else BenefitsSection(measure, data.benefits, r.description).cursor)
    ensures r.usage == (if data.usage == [] then r.benefits else UsageSection(measure, data.usage, r.benefits).cursor)
    // the cursor only moves down
    ensures Padding < r.header < r.image < r.title <= r.description <= r.benefits <= r.usage
  {
    var h := Header(Padding);
    var i := PhotoPart(data, photo, h.cursor);
    var t := TitleBlock(measure, data, i.cursor);
    var d := DescriptionPart(measure, data.description, t.cursor);
    var b := BenefitsPart(measure, data.benefits, d.cursor);
    var u := UsagePart(measure, data.usage, b.cursor);
    Trace(h.cursor, i.cursor, t.cursor, d.cursor, b.cursor, u.cursor)
  }

  /** `Poster` and `Layout` assembled from the sections. */
  lemma PosterSections(measure: Measure, data: ProductRecord, photo: Option<Dims>,
                       h: Section, i: Section, t: Section, d: Section, b: Section, u: Section)
    requires photo.Some? ==> photo.value.width > 0.0 && photo.value.height > 0.0
    requires h == Header(Padding) && i == PhotoPart(data, photo, h.cursor)
    requires t == TitleBlock(measure, data, i.cursor) && d == DescriptionPart(measure, data.description, t.cursor)
    requires b == BenefitsPart(measure, data.benefits, d.cursor) && u == UsagePart(measure, data.usage, b.cursor)
    ensures Poster(measure, data, photo)
      == [FillRect(0, 0, Width, Height, Background)] + h.cmds + i.cmds + t.cmds + d.cmds + b.cmds + u.cmds + Footer(data.url)
    ensures Layout(measure, data, photo) == Trace(h.cursor, i.cursor, t.cursor, d.cursor, b.cursor, u.cursor)
  {
  }

  /** `render`: clears the canvas and draws the sections in order;
      `photo` is the loaded product image, `None` when loading failed. */
  method Render(measure: Measure, data: ProductRecord, photo: Option<Dims>) returns (cmds: seq<DrawCmd>, trace: Trace)
    requires photo.Some? ==> photo.value.width > 0.0 && photo.value.height > 0.0
    // the commands are those of the layout, section after section
    ensures cmds == Poster(measure, data, photo)
    // the cursor passes through the positions of the layout
    ensures trace == Layout(measure, data, photo)
  {
    cmds := [FillRect(0, 0, Width, Height, Background)];
    var currentY := Padding;
    var header := Header(currentY);
    cmds := cmds + header.cmds;
    currentY := header.cursor;
    trace := Trace(currentY, 0, 0, 0, 0, 0);

    var image := Section([], currentY + 40);
    if data.image != [] && photo.Some? {
      image := ProductImage(photo.value, currentY);
    }
    cmds := cmds + image.cmds;
    currentY := image.cursor;
    trace := trace.(image := currentY);

    var title := TitleBlock(measure, data, currentY);
    cmds := cmds + title.cmds;
    currentY := title.cursor;
    trace := trace.(title := currentY);

    var description := Section([], currentY);
    if data.description != [] {
      description := Description(measure, data.description, currentY);
    }
    cmds := cmds + description.cmds;
    currentY := description.cursor;
    trace := trace.(description := currentY);

    var benefits := Section([], currentY);
    if |data.benefits| > 0 {
      var drawn, cursor := DrawBenefits(measure, data.benefits, currentY);
      benefits := Section(drawn, cursor);
    }
    cmds := cmds + benefits.cmds;
    currentY := benefits.cursor;
    trace := trace.(benefits := currentY);

    var usage := Section([], currentY);
    if |data.usage| > 0 {
      var drawn, cursor := DrawUsage(measure, data.usage, currentY);
      usage := Section(drawn, cursor);
    }
    cmds := cmds + usage.cmds;
    currentY := usage.cursor;
    trace := trace.(usage := currentY);

    PosterSections(measure, data, photo, header, image, title, description, benefits, usage);
    cmds := cmds + Footer(data.url);
  }
}
