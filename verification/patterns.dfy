/** The regular expressions the extractors apply, each written out as the
    leftmost-match search a JavaScript regex engine performs. */
module Patterns {
  import opened Optional
  import opened Strings

  /** The end of the run of characters satisfying `p` that starts at `i`. */
  function RunEnd(s: string, i: nat, p: char -> bool): (j: nat)
    requires i <= |s|
    ensures i <= j <= |s|
    ensures forall k :: i <= k < j ==> p(s[k])
    ensures j < |s| ==> !p(s[j])
    decreases |s| - i
  {
    if i == |s| || !p(s[i]) then i else RunEnd(s, i + 1, p)
  }

  predicate IsDigitOrComma(c: char)
  {
    IsDigit(c) || c == ','
  }

  // ----- /\$[\d,]+\.?\d*/ -----

  /** Whether a match of `\$[\d,]+\.?\d*` starts at `i`: a `$` followed
      by a digit or a comma (see `PriceAt`). */
  predicate PriceStarts(s: string, i: nat)
  {
    i + 1 < |s| && s[i] == '$' && IsDigitOrComma(s[i + 1])
  }

  /** Where the greedy match starting at `i` ends: the run of digits and
      commas, then an optional `.` and the run of digits after it. */
  function PriceEnd(s: string, i: nat): (e: nat)
    requires PriceStarts(s, i)
    ensures i + 2 <= e <= |s|
    ensures forall k :: i < k < e ==> IsDigitOrComma(s[k]) || s[k] == '.'
    ensures forall k, l :: i < k < l < e && s[k] == '.' ==> IsDigit(s[l])
    ensures e < |s| ==> !IsDigit(s[e]) && ('.' in s[i..e] || (s[e] != '.' && s[e] != ','))
  {
    var intEnd := RunEnd(s, i + 1, IsDigitOrComma);
    var fracStart := if intEnd < |s| && s[intEnd] == '.' then intEnd + 1 else intEnd;
    var fracEnd := RunEnd(s, fracStart, IsDigit);
    assert forall k :: i < k < intEnd ==> s[k] != '.';
    assert fracStart > intEnd ==> s[i..fracEnd][intEnd - i] == '.';
    fracEnd
  }

  /** The match of `\$[\d,]+\.?\d*` starting at `i`, if any. Each part is
      greedy and no later part can use a character an earlier one gave
      back, so the greedy reading is the match. */
  function PriceAt(s: string, i: nat): (r: Option<string>)
    requires i <= |s|
    ensures r.None? <==> !PriceStarts(s, i)
    ensures r.Some? ==> var m := r.value;
      2 <= |m| && i + |m| <= |s| && m == s[i..i + |m|] && m[0] == '$' && IsDigitOrComma(m[1])
    // the match is `$`, digits and commas, then at most one `.` followed only by digits
    ensures r.Some? ==> var m := r.value;
      (forall k :: 1 <= k < |m| ==> IsDigitOrComma(m[k]) || m[k] == '.') &&
      (forall k, l :: 1 <= k < l < |m| && m[k] == '.' ==> IsDigit(m[l]))
    // greedy: the match could not be extended
    ensures r.Some? ==> var e := i + |r.value|;
      e < |s| ==> !IsDigit(s[e]) && ('.' in r.value || (s[e] != '.' && s[e] != ','))
  {
    if PriceStarts(s, i) then
      var e := PriceEnd(s, i);
      PriceShape(s, i, e);
      Some(s[i..e])
    else None
  }

  /** The facts `PriceEnd` states about `s`, read on the match itself. */
  lemma PriceShape(s: string, i: nat, e: nat)
    requires PriceStarts(s, i) && e == PriceEnd(s, i)
    ensures var m := s[i..e];
      m[0] == '$' && IsDigitOrComma(m[1]) &&
      (forall k :: 1 <= k < |m| ==> IsDigitOrComma(m[k]) || m[k] == '.') &&
      (forall k, l :: 1 <= k < l < |m| && m[k] == '.' ==> IsDigit(m[l]))
  {
    var m := s[i..e];
    forall k | 1 <= k < |m| ensures IsDigitOrComma(m[k]) || m[k] == '.' {
      assert m[k] == s[i + k];
    }
    forall k, l | 1 <= k < l < |m| && m[k] == '.' ensures IsDigit(m[l]) {
      assert m[k] == s[i + k] && m[l] == s[i + l];
    }
  }

  /** Where the leftmost match of `\$[\d,]+\.?\d*` at or after `from`
      starts: every earlier position has no match (`PriceAt` is `None`
      exactly where `PriceStarts` fails). */
  function FindPrice(s: string, from: nat): (r: Option<nat>)
    requires from <= |s|
    ensures r.None? ==> forall i :: from <= i <= |s| ==> !PriceStarts(s, i)
    ensures r.Some? ==> from <= r.value <= |s| && PriceStarts(s, r.value)
    ensures r.Some? ==> forall j :: from <= j < r.value ==> !PriceStarts(s, j)
    decreases |s| - from
  {
    if PriceStarts(s, from) then Some(from)
    else if from == |s| then None
    else FindPrice(s, from + 1)
  }

  /** `s.match(/\$[\d,]+\.?\d*\/)[0]`: a price as the poster shows it,
      `$` then a digit or comma. */
  function MatchPrice(s: string): (r: Option<string>)
    ensures r.Some? <==> FindPrice(s, 0).Some?
    ensures r.Some? ==> |r.value| >= 2 && r.value[0] == '$' && IsDigitOrComma(r.value[1])
  {
    var i := FindPrice(s, 0);
    if i.Some? then PriceAt(s, i.value) else None
  }

  // ----- the unit patterns of extractSpecs -----

  /** A piece of a unit pattern: `\d+`, `\s*`, one literal character, or
      the class `[\/|]`. */
  datatype Piece = Digits | Spaces | Lit(c: char) | SlashOrBar

  /** `/(\d+\s*粒\s*[\/|]\s*瓶)/`, `/(\d+\s*粒)/`, `/(\d+\s*颗)/`,
      `/(\d+\s*mg)/`, `/(\d+\s*g)/`, in the order they are tried. */
  const UnitPatterns: seq<seq<Piece>> := [
    [Digits, Spaces, Lit('粒'), Spaces, SlashOrBar, Spaces, Lit('瓶')],
    [Digits, Spaces, Lit('粒')],
    [Digits, Spaces, Lit('颗')],
    [Digits, Spaces, Lit('m'), Lit('g')],
    [Digits, Spaces, Lit('g')]]

  /** Where the pieces, read greedily from `i`, end. In these patterns a
      run is always followed by a literal it cannot contain, so giving
      characters back never helps and the greedy reading is the regex's. */
  function PiecesEnd(s: string, i: nat, pieces: seq<Piece>): (r: Option<nat>)
    requires i <= |s|
    ensures r.Some? ==> i <= r.value <= |s|
    decreases pieces
  {
    if pieces == [] then Some(i)
    else match pieces[0]
      case Digits =>
        var j := RunEnd(s, i, IsDigit);
        if j == i then None else PiecesEnd(s, j, pieces[1..])
      case Spaces => PiecesEnd(s, RunEnd(s, i, IsSpace), pieces[1..])
      case Lit(c) => if i < |s| && s[i] == c then PiecesEnd(s, i + 1, pieces[1..]) else None
      case SlashOrBar => if i < |s| && (s[i] == '/' || s[i] == '|') then PiecesEnd(s, i + 1, pieces[1..]) else None
  }

  /** Where the leftmost match of a unit pattern at or after `from`
      starts. */
  function FindPieces(s: string, from: nat, pieces: seq<Piece>): (r: Option<nat>)
    requires from <= |s|
    ensures r.None? ==> forall i :: from <= i <= |s| ==> PiecesEnd(s, i, pieces).None?
    ensures r.Some? ==> from <= r.value <= |s| && PiecesEnd(s, r.value, pieces).Some?
    ensures r.Some? ==> forall j :: from <= j < r.value ==> PiecesEnd(s, j, pieces).None?
    decreases |s| - from
  {
    if PiecesEnd(s, from, pieces).Some? then Some(from)
    else if from == |s| then None
    else FindPieces(s, from + 1, pieces)
  }

  /** `s.match(pattern)[0]` for a unit pattern. */
  function MatchPieces(s: string, pieces: seq<Piece>): (r: Option<string>)
    ensures r.Some? <==> FindPieces(s, 0, pieces).Some?
  {
    var i := FindPieces(s, 0, pieces);
    if i.Some? then Some(s[i.value..PiecesEnd(s, i.value, pieces).value]) else None
  }

  /** A unit match starts with a digit and ends with the unit's last
      character. */
  lemma {:induction false} PiecesShape(s: string, i: nat, pieces: seq<Piece>)
    requires i <= |s| && pieces != [] && pieces[0] == Digits && pieces[|pieces| - 1].Lit?
    requires PiecesEnd(s, i, pieces).Some?
    ensures var e := PiecesEnd(s, i, pieces).value;
      i < e && IsDigit(s[i]) && s[e - 1] == pieces[|pieces| - 1].c
  {
    var j := RunEnd(s, i, IsDigit);
    PiecesEndsWithLit(s, j, pieces[1..]);
  }

  lemma {:induction false} PiecesEndsWithLit(s: string, i: nat, pieces: seq<Piece>)
    requires i <= |s| && pieces != [] && pieces[|pieces| - 1].Lit?
    requires PiecesEnd(s, i, pieces).Some?
    ensures var e := PiecesEnd(s, i, pieces).value; i < e && s[e - 1] == pieces[|pieces| - 1].c
    decreases pieces
  {
    if |pieces| > 1 {
      var rest := pieces[1..];
      assert rest[|rest| - 1] == pieces[|pieces| - 1];
      match pieces[0]
      case Digits => PiecesEndsWithLit(s, RunEnd(s, i, IsDigit), rest);
      case Spaces => PiecesEndsWithLit(s, RunEnd(s, i, IsSpace), rest);
      case Lit(c) => PiecesEndsWithLit(s, i + 1, rest);
      case SlashOrBar => PiecesEndsWithLit(s, i + 1, rest);
    }
  }

  // ----- 规格: labels -----

  /** `规格` followed by a full-width or ASCII colon at `i`. */
  predicate LabelAt(s: string, i: nat)
  {
    i + 3 <= |s| && s[i] == '规' && s[i + 1] == '格' && (s[i + 2] == '：' || s[i + 2] == ':')
  }

  /** After `\s*` has taken the whitespace from `k` to `m`, the engine gives
      it back one character at a time until the rest of the pattern
      matches at `m`: the first such `m`, counting down from the greedy end. */
  function BackOff(k: nat, m: nat, ok: nat -> bool): (r: Option<nat>)
    requires k <= m
    ensures r.Some? ==> k <= r.value <= m && ok(r.value)
    ensures r.Some? ==> forall j :: r.value < j <= m ==> !ok(j)
    ensures r.None? ==> forall j :: k <= j <= m ==> !ok(j)
    decreases m - k
  {
    if ok(m) then Some(m)
    else if m == k then None
    else BackOff(k, m - 1, ok)
  }

  predicate NotNewline(c: char)
  {
    c != '\n'
  }

  predicate NotLineTerminator(c: char)
  {
    !IsLineTerminator(c)
  }

  /** `([^\n]+)` can start at `m`. */
  predicate RestOfLineFits(s: string, m: nat)
  {
    m < |s| && s[m] != '\n'
  }

  /** `(.+?)(?:\n|$)` can start at `m`: `.` stops at any line terminator,
      and the lazy group must end at a `\n` or at the end of the text. */
  predicate LazyLineFits(s: string, m: nat)
  {
    m < |s| && !IsLineTerminator(s[m]) &&
    var j := RunEnd(s, m, NotLineTerminator); j == |s| || s[j] == '\n'
  }

  /** The group of `/规格[：:]\s*([^\n]+)/` for a label at `i`. */
  function GreedyLabelAt(s: string, i: nat): (r: Option<string>)
    requires LabelAt(s, i)
    ensures r.Some? ==> r.value != [] && '\n' !in r.value
  {
    var k := i + 3;
    var m := BackOff(k, RunEnd(s, k, IsSpace), (j: nat) => RestOfLineFits(s, j));
    if m.Some? then
      var e := RunEnd(s, m.value, NotNewline);
      assert forall c :: c in s[m.value..e] ==> c != '\n';
      Some(s[m.value..e])
    else None
  }

  /** The group of `/规格[：:]\s*(.+?)(?:\n|$)/` for a label at `i`. */
  function LazyLabelAt(s: string, i: nat): (r: Option<string>)
    requires LabelAt(s, i)
    ensures r.Some? ==> r.value != [] && forall c :: c in r.value ==> !IsLineTerminator(c)
  {
    var k := i + 3;
    var m := BackOff(k, RunEnd(s, k, IsSpace), (j: nat) => LazyLineFits(s, j));
    if m.Some? then
      var e := RunEnd(s, m.value, NotLineTerminator);
      Some(s[m.value..e])
    else None
  }

  /** The group of the leftmost label match at or after `from`; `lazy`
      selects the second form. */
  function FindLabel(s: string, from: nat, lazy: bool): (r: Option<string>)
    requires from <= |s|
    ensures r.Some? ==> r.value != [] && '\n' !in r.value
    ensures r.Some? && lazy ==> forall c :: c in r.value ==> !IsLineTerminator(c)
    decreases |s| - from
  {
    var here := if !LabelAt(s, from) then None else if lazy then LazyLabelAt(s, from) else GreedyLabelAt(s, from);
    if here.Some? then here
    else if from == |s| then None
    else FindLabel(s, from + 1, lazy)
  }

  /** A label with text on the same line always yields that text, up to the
      end of the line, in both forms. */
  lemma LabelExample()
    ensures FindLabel("规格：60粒\n产地", 0, false) == Some("60粒")
    ensures FindLabel("规格：60粒\n产地", 0, true) == Some("60粒")
  {
    var s := "规格：60粒\n产地";
    assert LabelAt(s, 0);
    assert RunEnd(s, 3, IsSpace) == 3;
    assert RunEnd(s, 3, NotNewline) == 6;
    assert RunEnd(s, 3, NotLineTerminator) == 6;
    assert RestOfLineFits(s, 3);
    assert GreedyLabelAt(s, 0) == Some(s[3..6]);
    assert s[3..6] == "60粒";
  }
}
