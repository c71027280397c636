/** The parsed product page as the extractors see it. `DOMParser` and CSS
    selector matching are not modelled: what `querySelector` returns for
    each selector and what `querySelectorAll` lists are given as data. */
module Page {
  import opened Optional
  import opened Strings

  /** An element: its upper-case `tagName`, its `textContent`, the
      attributes the extractors read (an attribute that is absent reads as
      the empty string), the text of the `li` elements inside it, and the
      text of its parent element. `src` is the value of the element's `src`
      property: the address the browser resolved the attribute to, or the
      empty string when the attribute is absent. */
  datatype Element = Element(
    tag: string,
    text: string,
    content: string,
    src: string,
    dataSrc: string,
    lazySrc: string,
    alt: string,
    width: int,
    items: seq<string>,
    parentText: string)

  /** A heading (`h2`, `h3`, `h4` or `strong`) and the elements that follow
      it as `nextElementSibling`, in order. */
  datatype Heading = Heading(tag: string, text: string, siblings: seq<Element>)

  datatype Doc = Doc(
    /** `doc.querySelector(selector)` */
    select: string -> Option<Element>,
    /** `doc.querySelectorAll('h2, h3, h4, strong')`, in document order */
    headings: seq<Heading>,
    /** the text of each element of `doc.querySelectorAll('ul li, ol li')` */
    listItems: seq<string>,
    /** `doc.querySelectorAll('img')` */
    images: seq<Element>,
    /** `doc.body.textContent` */
    bodyText: string)

  predicate IsList(tag: string)
  {
    tag == "UL" || tag == "OL"
  }

  /** `tagName.match(/^H[2-4]$/)` */
  predicate IsSectionHeading(tag: string)
  {
    tag == "H2" || tag == "H3" || tag == "H4"
  }

  /** The index of the first element satisfying `p` (`Array.find`,
      `findIndex`, or a `for … of` loop that returns on the first hit), or
      `|xs|` when there is none. */
  function FirstIndex<T>(xs: seq<T>, p: T -> bool): (i: nat)
    ensures i <= |xs|
    ensures i < |xs| ==> p(xs[i])
    ensures forall j :: 0 <= j < i ==> !p(xs[j])
  {
    if xs == [] then 0
    else if p(xs[0]) then 0
    else 1 + FirstIndex(xs[1..], p)
  }

  /** The value of `o` as a list: one element when present, none when absent. */
  function Emit(o: Option<string>): seq<string>
  {
    if o.Some? then [o.value] else []
  }

  /** `items.forEach(item => { … if (…) out.push(…) })`. */
  function FilterMap(xs: seq<string>, f: string -> Option<string>): (r: seq<string>)
    ensures |r| <= |xs|
  {
    if xs == [] then []
    else FilterMap(xs[..|xs| - 1], f) + Emit(f(xs[|xs| - 1]))
  }

  /** What a sibling scan keeps: `limit` siblings at most, `item` applied
      to each `li` of the first list met, `para` to each `P` met before it. */
  datatype ScanRule = ScanRule(limit: nat, item: string -> Option<string>, para: string -> Option<string>)

  predicate StopsScan(e: Element)
  {
    IsList(e.tag) || IsSectionHeading(e.tag)
  }

  /** The `while (current && count < limit)` walk over the siblings after an
      anchor heading, with `budget` steps left: a list contributes its items
      and ends the walk, an `h2`–`h4` ends it, a paragraph may contribute
      itself, anything else is passed over. */
  function Scan(rule: ScanRule, sibs: seq<Element>, budget: nat): seq<string>
    decreases |sibs|
  {
    if sibs == [] || budget == 0 then []
    else if IsList(sibs[0].tag) then FilterMap(sibs[0].items, rule.item)
    else if IsSectionHeading(sibs[0].tag) then []
    else (if sibs[0].tag == "P" then Emit(rule.para(sibs[0].text)) else []) + Scan(rule, sibs[1..], budget - 1)
  }

  /** What the paragraphs in `sibs` contribute. */
  function Paragraphs(rule: ScanRule, sibs: seq<Element>): seq<string>
  {
    if sibs == [] then []
    else (if sibs[0].tag == "P" then Emit(rule.para(sibs[0].text)) else []) + Paragraphs(rule, sibs[1..])
  }

  lemma ConcatAssoc(a: seq<string>, b: seq<string>, c: seq<string>)
    ensures (a + b) + c == a + (b + c)
  {
  }

  /** Bounded look-ahead: only the first `budget` siblings are examined. */
  lemma {:induction false} ScanLookahead(rule: ScanRule, sibs: seq<Element>, budget: nat)
    ensures Scan(rule, sibs, budget) == Scan(rule, if |sibs| <= budget then sibs else sibs[..budget], budget)
    decreases |sibs|
  {
    if sibs != [] && budget > 0 && |sibs| > budget && !StopsScan(sibs[0]) {
      assert sibs[..budget][1..] == sibs[1..][..budget - 1];
      ScanLookahead(rule, sibs[1..], budget - 1);
    }
  }

  /** The walk stops at the first list or section heading within reach:
      the paragraphs before it and, for a list, its items. */
  lemma {:induction false} ScanStops(rule: ScanRule, sibs: seq<Element>, budget: nat, j: nat)
    requires j < |sibs| && j < budget && StopsScan(sibs[j])
    requires forall k :: 0 <= k < j ==> !StopsScan(sibs[k])
    ensures Scan(rule, sibs, budget) == Paragraphs(rule, sibs[..j]) + (if IsList(sibs[j].tag) then FilterMap(sibs[j].items, rule.item) else [])
    decreases j
  {
    if j == 0 {
      assert sibs[..0] == [];
    } else {
      var last := if IsList(sibs[j].tag) then FilterMap(sibs[j].items, rule.item) else [];
      var head := if sibs[0].tag == "P" then Emit(rule.para(sibs[0].text)) else [];
      var rest := Paragraphs(rule, sibs[1..][..j - 1]);
      assert !StopsScan(sibs[0]);
      ParagraphStep(rule, sibs, budget, j);
      ScanStops(rule, sibs[1..], budget - 1, j - 1);
      ConcatAssoc(head, rest, last);
    }
  }

  /** The first sibling's share of both sides of `ScanStops`. */
  lemma ParagraphStep(rule: ScanRule, sibs: seq<Element>, budget: nat, j: nat)
    requires 0 < j < |sibs| && j <= budget && !StopsScan(sibs[0])
    ensures var head := if sibs[0].tag == "P" then Emit(rule.para(sibs[0].text)) else [];
      Scan(rule, sibs, budget) == head + Scan(rule, sibs[1..], budget - 1) &&
      Paragraphs(rule, sibs[..j]) == head + Paragraphs(rule, sibs[1..][..j - 1])
  {
    assert sibs[..j][1..] == sibs[1..][..j - 1];
  }

  /** With no list or section heading within reach, only paragraphs count. */
  lemma {:induction false} ScanRunsOut(rule: ScanRule, sibs: seq<Element>, budget: nat)
    requires forall k :: 0 <= k < |sibs| && k < budget ==> !StopsScan(sibs[k])
    ensures Scan(rule, sibs, budget) == Paragraphs(rule, if |sibs| <= budget then sibs else sibs[..budget])
    decreases |sibs|
  {
    if sibs != [] && budget > 0 {
      ScanRunsOut(rule, sibs[1..], budget - 1);
      if |sibs| > budget {
        assert sibs[..budget][1..] == sibs[1..][..budget - 1];
      }
    }
  }

  /** Every entry a rule emits satisfies `P` when everything `item` and
      `para` produce does. */
  lemma {:induction false} FilterMapKeeps(xs: seq<string>, f: string -> Option<string>, P: string -> bool)
    requires forall t :: f(t).Some? ==> P(f(t).value)
    ensures forall i :: 0 <= i < |FilterMap(xs, f)| ==> P(FilterMap(xs, f)[i])
  {
    if xs != [] {
      FilterMapKeeps(xs[..|xs| - 1], f, P);
    }
  }

  /** `FilterMap` read from the front: the first element's contribution,
      then the rest's. */
  lemma {:induction false} FilterMapCons(x: string, xs: seq<string>, f: string -> Option<string>)
    ensures FilterMap([x] + xs, f) == Emit(f(x)) + FilterMap(xs, f)
    decreases |xs|
  {
    if xs == [] {
      assert ([x] + xs)[..0] == [];
    } else {
      var init := xs[..|xs| - 1];
      assert ([x] + xs)[..|xs|] == [x] + init;
      assert ([x] + xs)[|xs|] == xs[|xs| - 1];
      FilterMapCons(x, init, f);
      ConcatAssoc(Emit(f(x)), FilterMap(init, f), Emit(f(xs[|xs| - 1])));
    }
  }

  lemma {:induction false} ScanKeeps(rule: ScanRule, sibs: seq<Element>, budget: nat, P: string -> bool)
    requires forall t :: rule.item(t).Some? ==> P(rule.item(t).value)
    requires forall t :: rule.para(t).Some? ==> P(rule.para(t).value)
    ensures forall i :: 0 <= i < |Scan(rule, sibs, budget)| ==> P(Scan(rule, sibs, budget)[i])
    decreases |sibs|
  {
    if sibs != [] && budget > 0 {
      if IsList(sibs[0].tag) {
        FilterMapKeeps(sibs[0].items, rule.item, P);
      } else if !IsSectionHeading(sibs[0].tag) {
        ScanKeeps(rule, sibs[1..], budget - 1, P);
      }
    }
  }

  /** The inner loop over a list's items, pushing what `f` keeps. */
  method KeepItems(items: seq<string>, f: string -> Option<string>) returns (out: seq<string>)
    ensures out == FilterMap(items, f)
  {
    out := [];
    for k := 0 to |items|
      invariant out == FilterMap(items[..k], f)
    {
      assert items[..k + 1][..k] == items[..k];
      var kept := f(items[k]);
      if kept.Some? {
        out := out + [kept.value];
      }
    }
    assert items[..|items|] == items;
  }

  /** One step of the walk past a sibling that does not stop it, with
      `before` already collected. */
  lemma ScanStep(rule: ScanRule, sibs: seq<Element>, count: nat, before: seq<string>, emitted: seq<string>)
    requires count < |sibs| && count < rule.limit && !StopsScan(sibs[count])
    requires emitted == if sibs[count].tag == "P" then Emit(rule.para(sibs[count].text)) else []
    ensures (before + emitted) + Scan(rule, sibs[count + 1..], rule.limit - count - 1) ==
      before + Scan(rule, sibs[count..], rule.limit - count)
  {
    assert sibs[count..][1..] == sibs[count + 1..];
    ConcatAssoc(before, emitted, Scan(rule, sibs[count + 1..], rule.limit - count - 1));
  }

  /** The step at a list or section heading, which ends the walk. */
  lemma ScanHalts(rule: ScanRule, sibs: seq<Element>, count: nat)
    requires count < |sibs| && count < rule.limit && StopsScan(sibs[count])
    ensures Scan(rule, sibs[count..], rule.limit - count) ==
      if IsList(sibs[count].tag) then FilterMap(sibs[count].items, rule.item) else []
  {
    assert sibs[count..][0] == sibs[count];
  }

  /** One pass of the walk's loop body over `sibs[count]`: `done` when the
      walk breaks there. */
  method VisitSibling(rule: ScanRule, sibs: seq<Element>, count: nat, out: seq<string>) returns (next: seq<string>, done: bool)
    requires count < |sibs| && count < rule.limit
    ensures done ==> next == out + Scan(rule, sibs[count..], rule.limit - count)
    ensures !done ==> next + Scan(rule, sibs[count + 1..], rule.limit - count - 1) == out + Scan(rule, sibs[count..], rule.limit - count)
  {
    var current := sibs[count];
    next, done := out, false;
    if IsList(current.tag) {
      ScanHalts(rule, sibs, count);
      var items := KeepItems(current.items, rule.item);
      next, done := out + items, true;
    } else if current.tag == "P" {
      var kept := rule.para(current.text);
      if kept.Some? {
        next := out + [kept.value];
      }
      assert next == out + Emit(kept);
      ScanStep(rule, sibs, count, out, Emit(kept));
    } else if IsSectionHeading(current.tag) {
      ScanHalts(rule, sibs, count);
      done := true;
    } else {
      ScanStep(rule, sibs, count, out, []);
    }
  }

  /** The sibling walk as the source writes it: a counted `while` loop
      that pushes into the output and breaks at a list or a heading. */
  method ScanSiblings(rule: ScanRule, sibs: seq<Element>) returns (out: seq<string>)
    ensures out == Scan(rule, sibs, rule.limit)
  {
    out := [];
    var count := 0;
    while count < |sibs| && count < rule.limit
      invariant count <= |sibs| && count <= rule.limit
      invariant out + Scan(rule, sibs[count..], rule.limit - count) == Scan(rule, sibs, rule.limit)
    {
      var done;
      out, done := VisitSibling(rule, sibs, count, out);
      if done {
        break;
      }
      count := count + 1;
    }
  }
}
