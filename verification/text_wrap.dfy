/** `PosterRenderer.wrapText`: greedy, character-by-character line breaking. */
module TextWrap {
  import opened Canvas

  /** The lines joined back together. */
  function Concat(lines: seq<string>): string
  {
    if lines == [] then [] else lines[0] + Concat(lines[1..])
  }

  /** A line the wrapper may emit: it fits, or it is a single character
      that does not fit on any line. */
  predicate FitsOrSingle(measure: Measure, font: string, maxWidth: real, line: string)
  {
    measure(font, line) <= maxWidth || |line| == 1
  }

  /** The lines still to come when the loop of `wrapText` has `rest` left to
      read and holds `current` as its unfinished line. */
  function WrapFrom(measure: Measure, font: string, maxWidth: real, current: string, rest: string): seq<string>
    decreases |rest|
  {
    if rest == [] then (if current == [] then [] else [current])
    else
      var test := current + [rest[0]];
      if measure(font, test) > maxWidth && current != [] then
        [current] + WrapFrom(measure, font, maxWidth, [rest[0]], rest[1..])
      else
        WrapFrom(measure, font, maxWidth, test, rest[1..])
  }

  /** The lines `wrapText(ctx, text, maxWidth)` returns. */
  function Wrap(measure: Measure, font: string, text: string, maxWidth: real): seq<string>
  {
    WrapFrom(measure, font, maxWidth, [], text)
  }

  /** No character is lost or duplicated. */
  lemma {:induction false} WrapFromConcat(measure: Measure, font: string, maxWidth: real, current: string, rest: string)
    ensures Concat(WrapFrom(measure, font, maxWidth, current, rest)) == current + rest
    decreases |rest|
  {
    if rest == [] {
      assert current + rest == current;
      if current != [] {
        assert Concat([current]) == current + Concat([]);
      }
    } else {
      var test := current + [rest[0]];
      assert rest == [rest[0]] + rest[1..];
      if measure(font, test) > maxWidth && current != [] {
        var tail := WrapFrom(measure, font, maxWidth, [rest[0]], rest[1..]);
        WrapFromConcat(measure, font, maxWidth, [rest[0]], rest[1..]);
        assert ([current] + tail)[1..] == tail;
      } else {
        WrapFromConcat(measure, font, maxWidth, test, rest[1..]);
      }
    }
  }

  /** Every line emitted is non-empty. */
  lemma {:induction false} WrapFromNonEmpty(measure: Measure, font: string, maxWidth: real, current: string, rest: string)
    ensures forall i :: 0 <= i < |WrapFrom(measure, font, maxWidth, current, rest)| ==> WrapFrom(measure, font, maxWidth, current, rest)[i] != []
    decreases |rest|
  {
    if rest != [] {
      var test := current + [rest[0]];
      if measure(font, test) > maxWidth && current != [] {
        WrapFromNonEmpty(measure, font, maxWidth, [rest[0]], rest[1..]);
      } else {
        WrapFromNonEmpty(measure, font, maxWidth, test, rest[1..]);
      }
    }
  }

  /** Every line emitted fits, or is a single character, provided the
      unfinished line does. */
  lemma {:induction false} WrapFromFits(measure: Measure, font: string, maxWidth: real, current: string, rest: string)
    requires current == [] || FitsOrSingle(measure, font, maxWidth, current)
    ensures forall i :: 0 <= i < |WrapFrom(measure, font, maxWidth, current, rest)| ==> FitsOrSingle(measure, font, maxWidth, WrapFrom(measure, font, maxWidth, current, rest)[i])
    decreases |rest|
  {
    if rest != [] {
      var test := current + [rest[0]];
      if measure(font, test) > maxWidth && current != [] {
        WrapFromFits(measure, font, maxWidth, [rest[0]], rest[1..]);
      } else {
        WrapFromFits(measure, font, maxWidth, test, rest[1..]);
      }
    }
  }

  /** There are never more lines than characters, and a non-empty text
      gives at least one line. */
  lemma {:induction false} WrapFromCount(measure: Measure, font: string, maxWidth: real, current: string, rest: string)
    ensures |WrapFrom(measure, font, maxWidth, current, rest)| <= |rest| + (if current == [] then 0 else 1)
    ensures current + rest != [] ==> |WrapFrom(measure, font, maxWidth, current, rest)| >= 1
    decreases |rest|
  {
    if rest != [] {
      var test := current + [rest[0]];
      if measure(font, test) > maxWidth && current != [] {
        WrapFromCount(measure, font, maxWidth, [rest[0]], rest[1..]);
      } else {
        WrapFromCount(measure, font, maxWidth, test, rest[1..]);
      }
    }
  }

  /** `line` was closed because the first character of `next` would have
      made it wider than `maxWidth`. */
  predicate Overflows(measure: Measure, font: string, maxWidth: real, line: string, next: string)
  {
    next != [] && measure(font, line + [next[0]]) > maxWidth
  }

  /** Each line of `ls` but the last was closed because the first character
      of the line after it would have overflowed it. */
  ghost predicate Greedy(measure: Measure, font: string, maxWidth: real, ls: seq<string>)
  {
    forall i, j :: 0 <= i < j < |ls| && j == i + 1 ==> Overflows(measure, font, maxWidth, ls[i], ls[j])
  }

  /** A line the wrapper holds unfinished is the start of the next line it
      emits. */
  lemma {:induction false} WrapFromHead(measure: Measure, font: string, maxWidth: real, current: string, rest: string)
    requires current != []
    ensures var ls := WrapFrom(measure, font, maxWidth, current, rest);
      |ls| >= 1 && ls[0] != [] && ls[0][0] == current[0]
    decreases |rest|
  {
    if rest != [] {
      var test := current + [rest[0]];
      if !(measure(font, test) > maxWidth && current != []) {
        WrapFromHead(measure, font, maxWidth, test, rest[1..]);
      }
    }
  }

  /** The wrapping is greedy: a line is closed only when the first
      character of the next line would have made it wider than `maxWidth`. */
  lemma {:induction false} WrapFromBreaks(measure: Measure, font: string, maxWidth: real, current: string, rest: string)
    ensures Greedy(measure, font, maxWidth, WrapFrom(measure, font, maxWidth, current, rest))
    decreases |rest|
  {
    if rest != [] {
      var test := current + [rest[0]];
      if measure(font, test) > maxWidth && current != [] {
        var tail := WrapFrom(measure, font, maxWidth, [rest[0]], rest[1..]);
        WrapFromHead(measure, font, maxWidth, [rest[0]], rest[1..]);
        WrapFromBreaks(measure, font, maxWidth, [rest[0]], rest[1..]);
        var ls := [current] + tail;
        assert ls == WrapFrom(measure, font, maxWidth, current, rest);
        forall i, j | 0 <= i < j < |ls| && j == i + 1
          ensures Overflows(measure, font, maxWidth, ls[i], ls[j])
        {
          if i > 0 {
            assert ls[i] == tail[i - 1] && ls[j] == tail[j - 1];
          }
        }
      } else {
        WrapFromBreaks(measure, font, maxWidth, test, rest[1..]);
      }
    }
  }

  /** The properties of `Wrap` the renderer relies on. */
  lemma WrapProperties(measure: Measure, font: string, text: string, maxWidth: real)
    ensures Concat(Wrap(measure, font, text, maxWidth)) == text
    ensures forall i :: 0 <= i < |Wrap(measure, font, text, maxWidth)| ==> Wrap(measure, font, text, maxWidth)[i] != []
    ensures forall i :: 0 <= i < |Wrap(measure, font, text, maxWidth)| ==> FitsOrSingle(measure, font, maxWidth, Wrap(measure, font, text, maxWidth)[i])
    ensures |Wrap(measure, font, text, maxWidth)| <= |text|
    ensures text == [] <==> Wrap(measure, font, text, maxWidth) == []
    // greedy: each line was closed because the next character overflowed it
    ensures Greedy(measure, font, maxWidth, Wrap(measure, font, text, maxWidth))
  {
    WrapFromBreaks(measure, font, maxWidth, [], text);
    WrapFromConcat(measure, font, maxWidth, [], text);
    WrapFromNonEmpty(measure, font, maxWidth, [], text);
    WrapFromFits(measure, font, maxWidth, [], text);
    WrapFromCount(measure, font, maxWidth, [], text);
    assert [] + text == text;
  }

  /** `wrapText`: reads `text` one character at a time, closing the current
      line when the next character would make it wider than `maxWidth`. */
  method WrapText(measure: Measure, font: string, text: string, maxWidth: real) returns (lines: seq<string>)
    ensures lines == Wrap(measure, font, text, maxWidth)
    ensures Concat(lines) == text
    ensures forall i :: 0 <= i < |lines| ==> lines[i] != []
    ensures forall i :: 0 <= i < |lines| ==> FitsOrSingle(measure, font, maxWidth, lines[i])
    ensures text == [] <==> lines == []
    ensures Greedy(measure, font, maxWidth, lines)
  {
    lines := [];
    var current := "";
    for i := 0 to |text|
      invariant lines + WrapFrom(measure, font, maxWidth, current, text[i..]) == Wrap(measure, font, text, maxWidth)
    {
      assert text[i..] == [text[i]] + text[i + 1..];
      var testLine := current + [text[i]];
      if measure(font, testLine) > maxWidth && current != [] {
        lines := lines + [current];
        current := [text[i]];
      } else {
        current := testLine;
      }
    }
    if current != [] {
      lines := lines + [current];
    }
    WrapProperties(measure, font, text, maxWidth);
  }
}
