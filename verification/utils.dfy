/** The pure helpers of the `Utils` object: `cleanText` and `normalizeUrl`. */
module Utils {
  import opened Strings

  // ---------------------------------------------------------------------
  // cleanText: (text || '').replace(/\s+/g, ' ').trim()
  // ---------------------------------------------------------------------

  /** The characters of `s` that are not whitespace, in order. */
  function NonSpace(s: string): string
  {
    if s == [] then [] else (if IsSpace(s[0]) then [] else [s[0]]) + NonSpace(s[1..])
  }

  /** Every whitespace character is a plain space and is not followed by
      another whitespace character. */
  predicate SingleSpaced(s: string)
  {
    forall i :: 0 <= i < |s| && IsSpace(s[i]) ==> s[i] == ' ' && (i + 1 < |s| ==> !IsSpace(s[i + 1]))
  }

  /** The shape `cleanText` produces: single-spaced, nothing at either end. */
  predicate IsClean(s: string)
  {
    SingleSpaced(s) && (s == [] || (!IsSpace(s[0]) && !IsSpace(s[|s| - 1])))
  }

  lemma {:induction false} NonSpaceAppend(a: string, b: string)
    ensures NonSpace(a + b) == NonSpace(a) + NonSpace(b)
    decreases |a|
  {
    if a == [] {
      assert a + b == b;
    } else {
      assert (a + b)[0] == a[0];
      assert (a + b)[1..] == a[1..] + b;
      NonSpaceAppend(a[1..], b);
    }
  }

  lemma {:induction false} NonSpaceOfSpaces(s: string)
    requires forall i :: 0 <= i < |s| ==> IsSpace(s[i])
    ensures NonSpace(s) == []
    decreases |s|
  {
    if s != [] {
      assert forall i :: 0 <= i < |s[1..]| ==> s[1..][i] == s[i + 1];
      NonSpaceOfSpaces(s[1..]);
    }
  }

  /** A character survives in `NonSpace` exactly when it is in `s` and is
      not whitespace. */
  lemma {:induction false} NonSpaceMembers(s: string, c: char)
    ensures c in NonSpace(s) <==> c in s && !IsSpace(c)
    decreases |s|
  {
    if s != [] {
      NonSpaceMembers(s[1..], c);
      assert s == [s[0]] + s[1..];
    }
  }

  /** `s.replace(/\s+/g, ' ')`: every maximal run of whitespace becomes one
      space. */
  function Collapse(s: string): (r: string)
    ensures r == [] <==> s == []
    ensures r != [] ==> (IsSpace(r[0]) <==> IsSpace(s[0]))
    decreases |s|
  {
    if s == [] then []
    else if IsSpace(s[0]) then [' '] + Collapse(TrimStart(s))
    else [s[0]] + Collapse(s[1..])
  }

  lemma ConsSingleSpaced(c: char, t: string)
    requires SingleSpaced(t)
    requires IsSpace(c) ==> c == ' ' && (t == [] || !IsSpace(t[0]))
    ensures SingleSpaced([c] + t)
  {
    var s := [c] + t;
    forall i | 0 <= i < |s| && IsSpace(s[i])
      ensures s[i] == ' ' && (i + 1 < |s| ==> !IsSpace(s[i + 1]))
    {
      if i > 0 {
        assert s[i] == t[i - 1];
        if i + 1 < |s| { assert s[i + 1] == t[i]; }
      }
    }
  }

  /** After collapsing, whitespace occurs only as single plain spaces. */
  lemma {:induction false} CollapseSingleSpaced(s: string)
    ensures SingleSpaced(Collapse(s))
    decreases |s|
  {
    if s != [] {
      if IsSpace(s[0]) {
        CollapseSingleSpaced(TrimStart(s));
        ConsSingleSpaced(' ', Collapse(TrimStart(s)));
      } else {
        CollapseSingleSpaced(s[1..]);
        ConsSingleSpaced(s[0], Collapse(s[1..]));
      }
    }
  }

  /** Collapsing keeps every non-whitespace character, in order. */
  lemma {:induction false} CollapseNonSpace(s: string)
    ensures NonSpace(Collapse(s)) == NonSpace(s)
    decreases |s|
  {
    if s != [] {
      if IsSpace(s[0]) {
        var rest := TrimStart(s);
        assert s == s[..Lead(s)] + rest;
        NonSpaceAppend(s[..Lead(s)], rest);
        NonSpaceOfSpaces(s[..Lead(s)]);
        CollapseNonSpace(rest);
        NonSpaceAppend([' '], Collapse(rest));
      } else {
        CollapseNonSpace(s[1..]);
        NonSpaceAppend([s[0]], Collapse(s[1..]));
        assert s == [s[0]] + s[1..];
        NonSpaceAppend([s[0]], s[1..]);
      }
    }
  }

  /** A word: a non-empty run of characters none of which is whitespace. */
  predicate IsWord(w: string)
  {
    w != [] && forall k :: 0 <= k < |w| ==> !IsSpace(w[k])
  }

  /** The leading run of non-whitespace characters of `s`. */
  function LeadWord(s: string): (w: string)
    ensures |w| <= |s| && w == s[..|w|]
    ensures forall k :: 0 <= k < |w| ==> !IsSpace(w[k])
    ensures |w| < |s| ==> IsSpace(s[|w|])
    decreases |s|
  {
    if s == [] || IsSpace(s[0]) then [] else [s[0]] + LeadWord(s[1..])
  }

  /** The maximal runs of non-whitespace characters of `s`, in order: what
      `s.trim().split(/\s+/)` gives for a string that is not all whitespace. */
  function Words(s: string): seq<string>
    decreases |s|
  {
    if s == [] then []
    else if IsSpace(s[0]) then Words(s[1..])
    else
      var w := LeadWord(s);
      assert w[0] == s[0];
      [w] + Words(s[|w|..])
  }

  /** Every element of `Words(s)` is a word. */
  lemma {:induction false} WordsAreWords(s: string)
    ensures forall i :: 0 <= i < |Words(s)| ==> IsWord(Words(s)[i])
    decreases |s|
  {
    if s != [] {
      if IsSpace(s[0]) {
        WordsAreWords(s[1..]);
      } else {
        var w := LeadWord(s);
        assert w[0] == s[0];
        WordsAreWords(s[|w|..]);
        assert Words(s) == [w] + Words(s[|w|..]);
      }
    }
  }

  /** A word passes through `Collapse` unchanged. */
  lemma {:induction false} CollapseWord(w: string, x: string)
    requires forall k :: 0 <= k < |w| ==> !IsSpace(w[k])
    ensures Collapse(w + x) == w + Collapse(x)
    decreases |w|
  {
    if w == [] {
      assert w + x == x;
    } else {
      var wx := w + x;
      assert wx[0] == w[0] && !IsSpace(wx[0]);
      assert wx[1..] == w[1..] + x;
      assert Collapse(wx) == [w[0]] + Collapse(w[1..] + x);
      CollapseWord(w[1..], x);
      assert [w[0]] + (w[1..] + Collapse(x)) == ([w[0]] + w[1..]) + Collapse(x);
      assert w == [w[0]] + w[1..];
    }
  }

  /** Leading whitespace does not change the words. */
  lemma {:induction false} WordsTrimStart(s: string)
    ensures Words(TrimStart(s)) == Words(s)
    decreases |s|
  {
    if s != [] && IsSpace(s[0]) {
      WordsTrimStart(s[1..]);
    }
  }

  /** A string ending in a non-whitespace character has a word. */
  lemma {:induction false} WordsLast(s: string)
    requires s != [] && !IsSpace(s[|s| - 1])
    ensures Words(s) != []
    decreases |s|
  {
    if IsSpace(s[0]) {
      assert s[1..][|s| - 2] == s[|s| - 1];
      WordsLast(s[1..]);
    }
  }

  /** Words joined by single spaces neither start nor end with whitespace. */
  lemma {:induction false} JoinWordsEnds(ws: seq<string>)
    requires ws != [] && forall i :: 0 <= i < |ws| ==> IsWord(ws[i])
    ensures var j := JoinWith(ws, ' '); j != [] && !IsSpace(j[0]) && !IsSpace(j[|j| - 1])
    decreases |ws|
  {
    assert IsWord(ws[0]);
    if |ws| > 1 {
      assert IsWord(ws[1..][0]);
      JoinWordsEnds(ws[1..]);
    } else {
      assert IsWord(ws[|ws| - 1]);
    }
  }

  /** The space `Collapse` puts in front of `s`. */
  function LeadSpace(s: string): string
  {
    if s != [] && IsSpace(s[0]) then " " else ""
  }

  /** The space `Collapse` leaves after the last word of `s`. */
  function TrailSpace(s: string): string
  {
    if Words(s) != [] && IsSpace(s[|s| - 1]) then " " else ""
  }

  lemma TrailSpaceSame(s: string, t: string)
    requires s != [] && t != [] && s[|s| - 1] == t[|t| - 1]
    requires Words(s) != [] && Words(t) != []
    ensures TrailSpace(s) == TrailSpace(t)
  {
  }

  /** `Collapse` on a string that starts with whitespace. */
  lemma CollapseSpaceHead(s: string)
    requires s != [] && IsSpace(s[0])
    ensures Collapse(s) == " " + Collapse(TrimStart(s))
  {
  }

  lemma TrailSpaceTrimStart(s: string)
    requires Words(TrimStart(s)) == Words(s)
    ensures TrailSpace(TrimStart(s)) == TrailSpace(s)
  {
    var t := TrimStart(s);
    if Words(s) != [] {
      assert t != [] && t[|t| - 1] == s[|s| - 1];
    }
  }

  lemma CollapseWordsSpaceStep(s: string, t: string)
    requires s != [] && IsSpace(s[0]) && t == TrimStart(s)
    requires Collapse(t) == LeadSpace(t) + JoinWith(Words(t), ' ') + TrailSpace(t)
    ensures Collapse(s) == LeadSpace(s) + JoinWith(Words(s), ' ') + TrailSpace(s)
  {
    WordsTrimStart(s);
    TrailSpaceTrimStart(s);
    CollapseSpaceHead(s);
    assert LeadSpace(t) == "" && LeadSpace(s) == " ";
    Prepend(Collapse(s), Collapse(t), JoinWith(Words(s), ' '), TrailSpace(s));
  }

  lemma Prepend(c: string, ct: string, j: string, t: string)
    requires c == " " + ct && ct == "" + j + t
    ensures c == " " + j + t
  {
  }

  /** `Collapse` and `Words` on a string that starts with a word. */
  lemma WordHead(s: string)
    requires s != [] && !IsSpace(s[0])
    ensures var w := LeadWord(s);
      |w| >= 1 && Collapse(s) == w + Collapse(s[|w|..]) && Words(s) == [w] + Words(s[|w|..])
  {
    var w := LeadWord(s);
    assert w[0] == s[0];
    assert s == w + s[|w|..];
    CollapseWord(w, s[|w|..]);
  }

  lemma JoinCons(w: string, ws: seq<string>)
    ensures JoinWith([w] + ws, ' ') == if ws == [] then w else w + " " + JoinWith(ws, ' ')
  {
    if ws != [] {
      assert ([w] + ws)[1..] == ws;
    }
  }

  /** The spaces around the rest of a string after its first word. */
  lemma WordSpaces(s: string, w: string, rest: string)
    requires s != [] && !IsSpace(s[0]) && w == LeadWord(s) && rest == s[|w|..] && Words(s) == [w] + Words(rest)
    ensures LeadSpace(s) == ""
    ensures LeadSpace(rest) == (if rest == [] then "" else " ")
    ensures TrailSpace(s) == (if rest == [] then "" else if Words(rest) == [] then " " else TrailSpace(rest))
  {
    if rest == [] {
      assert s[|s| - 1] == w[|w| - 1];
    } else {
      assert rest[|rest| - 1] == s[|s| - 1];
      if Words(rest) == [] && !IsSpace(rest[|rest| - 1]) {
        WordsLast(rest);
      }
    }
  }

  lemma CollapseWordsWordStep(s: string, w: string, rest: string)
    requires s != [] && !IsSpace(s[0]) && w == LeadWord(s) && rest == s[|w|..]
    requires Collapse(rest) == LeadSpace(rest) + JoinWith(Words(rest), ' ') + TrailSpace(rest)
    ensures Collapse(s) == LeadSpace(s) + JoinWith(Words(s), ' ') + TrailSpace(s)
  {
    WordHead(s);
    JoinCons(w, Words(rest));
    WordSpaces(s, w, rest);
    var js := JoinWith(Words(s), ' ');
    var jr := JoinWith(Words(rest), ' ');
    Reassoc(w, LeadSpace(rest), jr, TrailSpace(rest), js, TrailSpace(s));
  }

  lemma Reassoc(w: string, l: string, j: string, t: string, js: string, ts: string)
    requires js + ts == w + l + j + t
    ensures w + (l + j + t) == "" + js + ts
  {
    assert w + (l + j + t) == w + l + j + t;
  }

  /** `Collapse` turns `s` into its words joined by single spaces, with one
      space in front when `s` starts with whitespace and one at the end when
      `s` ends with whitespace after a word. */
  lemma {:induction false} CollapseWords(s: string)
    ensures Collapse(s) == LeadSpace(s) + JoinWith(Words(s), ' ') + TrailSpace(s)
    decreases |s|
  {
    if s != [] {
      if IsSpace(s[0]) {
        var t := TrimStart(s);
        assert |t| < |s|;
        CollapseWords(t);
        CollapseWordsSpaceStep(s, t);
      } else {
        var w := LeadWord(s);
        CollapseWords(s[|w|..]);
        CollapseWordsWordStep(s, w, s[|w|..]);
      }
    }
  }

  lemma TrimStartFramed(a: string, x: string)
    requires a == [] || a == " "
    requires x == [] || !IsSpace(x[0])
    ensures TrimStart(a + x) == x
  {
    if a == [] {
      assert a + x == x;
    } else {
      assert (a + x)[1..] == x;
    }
  }

  lemma TrimEndFramed(u: string, b: string)
    requires b == [] || b == " "
    requires u == [] || !IsSpace(u[|u| - 1])
    ensures TrimEnd(u + b) == u
  {
    if b == [] {
      assert u + b == u;
    } else {
      assert (u + b)[..|u + b| - 1] == u;
    }
  }

  /** `trim()` of a core with at most one space on either side is the core. */
  lemma TrimFramed(a: string, u: string, b: string)
    requires a == [] || a == " "
    requires b == [] || b == " "
    requires u == [] ==> b == []
    requires u != [] ==> !IsSpace(u[0]) && !IsSpace(u[|u| - 1])
    ensures Trim(a + u + b) == u
  {
    assert a + u + b == a + (u + b);
    if u != [] {
      assert (u + b)[0] == u[0];
    }
    TrimStartFramed(a, u + b);
    TrimEndFramed(u, b);
  }

  /** `cleanText(s)` is the words of `s` joined by single spaces. */
  lemma CleanTextWords(s: string)
    ensures Trim(Collapse(s)) == JoinWith(Words(s), ' ')
  {
    CollapseWords(s);
    var ws := Words(s);
    if ws != [] {
      WordsAreWords(s);
      JoinWordsEnds(ws);
    }
    TrimFramed(LeadSpace(s), JoinWith(ws, ' '), TrailSpace(s));
  }

  /** `Utils.cleanText`. The falsy inputs of the source (`null`,
      `undefined`) reach it only as the empty string here. */
  function CleanText(s: string): (r: string)
    ensures IsClean(r)
    ensures NonSpace(r) == NonSpace(s)
    ensures r == [] <==> NonSpace(s) == []
    // the words of `s`, in order, each separated from the next by one space
    ensures r == JoinWith(Words(s), ' ')
  {
    CleanTextWords(s);
    CollapseSingleSpaced(s);
    CollapseNonSpace(s);
    TrimCollapsed(Collapse(s));
    Trim(Collapse(s))
  }

  lemma SliceSingleSpaced(c: string, lo: nat, hi: nat)
    requires SingleSpaced(c) && lo <= hi <= |c|
    ensures SingleSpaced(c[lo..hi])
  {
    var r := c[lo..hi];
    forall i | 0 <= i < |r| && IsSpace(r[i])
      ensures r[i] == ' ' && (i + 1 < |r| ==> !IsSpace(r[i + 1]))
    {
      assert r[i] == c[lo + i];
      if i + 1 < |r| { assert r[i + 1] == c[lo + i + 1]; }
    }
  }

  lemma {:induction false} TrimStartNonSpace(s: string)
    ensures NonSpace(TrimStart(s)) == NonSpace(s)
    decreases |s|
  {
    if s != [] && IsSpace(s[0]) {
      TrimStartNonSpace(s[1..]);
    }
  }

  lemma {:induction false} TrimEndNonSpace(s: string)
    ensures NonSpace(TrimEnd(s)) == NonSpace(s)
    decreases |s|
  {
    if s != [] && IsSpace(s[|s| - 1]) {
      var init := s[..|s| - 1];
      TrimEndNonSpace(init);
      assert s == init + [s[|s| - 1]];
      NonSpaceAppend(init, [s[|s| - 1]]);
    }
  }

  /** `trim()` drops only whitespace. */
  lemma TrimNonSpace(c: string)
    ensures NonSpace(Trim(c)) == NonSpace(c)
  {
    TrimStartNonSpace(c);
    TrimEndNonSpace(TrimStart(c));
  }

  lemma TrimSingleSpaced(c: string)
    requires SingleSpaced(c)
    ensures SingleSpaced(Trim(c))
  {
    var r := Trim(c);
    SliceSingleSpaced(c, Lead(c), Lead(c) + |r|);
  }

  /** Trimming a single-spaced string keeps it single-spaced and drops only
      whitespace. */
  lemma TrimCollapsed(c: string)
    requires SingleSpaced(c)
    ensures IsClean(Trim(c))
    ensures NonSpace(Trim(c)) == NonSpace(c)
    ensures Trim(c) == [] <==> NonSpace(c) == []
  {
    var r := Trim(c);
    TrimSingleSpaced(c);
    TrimNonSpace(c);
    if r != [] {
      NonSpaceHead(r);
    }
  }

  lemma NonSpaceHead(r: string)
    requires r != [] && !IsSpace(r[0])
    ensures NonSpace(r) != []
  {
    assert NonSpace(r) == [r[0]] + NonSpace(r[1..]);
  }

  lemma SingleSpacedTail(s: string)
    requires s != [] && SingleSpaced(s)
    ensures SingleSpaced(s[1..])
  {
    var t := s[1..];
    forall i | 0 <= i < |t| && IsSpace(t[i])
      ensures t[i] == ' ' && (i + 1 < |t| ==> !IsSpace(t[i + 1]))
    {
      assert t[i] == s[i + 1];
      if i + 1 < |t| { assert t[i + 1] == s[i + 2]; }
    }
  }

  /** In a single-spaced string a leading space is the whole run. */
  lemma TrimStartSingle(s: string)
    requires s != [] && SingleSpaced(s) && IsSpace(s[0])
    ensures TrimStart(s) == s[1..]
  {
    if |s| > 1 {
      assert !IsSpace(s[1]);
      assert TrimStart(s[1..]) == s[1..];
    } else {
      assert TrimStart(s[1..]) == [];
    }
  }

  lemma {:induction false} CollapseFixpoint(s: string)
    requires SingleSpaced(s)
    ensures Collapse(s) == s
    decreases |s|
  {
    if s != [] {
      SingleSpacedTail(s);
      CollapseFixpoint(s[1..]);
      if IsSpace(s[0]) {
        TrimStartSingle(s);
        assert s[0] == ' ';
        assert Collapse(s) == [' '] + Collapse(s[1..]);
      } else {
        assert Collapse(s) == [s[0]] + Collapse(s[1..]);
      }
      assert s == [s[0]] + s[1..];
    }
  }

  /** A clean string is left unchanged by `cleanText`. */
  lemma CleanTextFixpoint(s: string)
    requires IsClean(s)
    ensures CleanText(s) == s
  {
    CollapseFixpoint(s);
    assert TrimStart(s) == s;
    assert TrimEnd(s) == s;
  }

  /** `cleanText` is idempotent. */
  lemma CleanTextIdempotent(s: string)
    ensures CleanText(CleanText(s)) == CleanText(s)
  {
    CleanTextFixpoint(CleanText(s));
  }

  /** `cleanText` introduces no character except the space. */
  lemma CleanTextChars(s: string, c: char)
    requires c in CleanText(s) && c != ' '
    ensures c in s
  {
    var r := CleanText(s);
    var i :| 0 <= i < |r| && r[i] == c;
    assert !IsSpace(c);
    NonSpaceMembers(r, c);
    NonSpaceMembers(s, c);
  }

  // ---------------------------------------------------------------------
  // normalizeUrl
  // ---------------------------------------------------------------------

  /** `CONFIG.site.baseUrl`, the fixed origin relative URLs are resolved
      against. */
  const BaseUrl: string := "https://canadiannaturals.ca"

  /** ASCII lower-casing, the case folding of a non-Unicode `/i` pattern
      for the letters of `http`. */
  function Lower(c: char): char
  {
    if 'A' <= c <= 'Z' then (c as int + 32) as char else c
  }

  /** `/^https?:\/\//i.test(u)` */
  predicate HasHttpScheme(u: string)
  {
    |u| >= 7 && Lower(u[0]) == 'h' && Lower(u[1]) == 't' && Lower(u[2]) == 't' && Lower(u[3]) == 'p'
    && (u[4..7] == "://" || (|u| >= 8 && Lower(u[4]) == 's' && u[5..8] == "://"))
  }

  /** `Utils.normalizeUrl` */
  function NormalizeUrl(u: string): (r: string)
    // only a prefix is ever put in front of the input
    ensures r == u || r == "https:" + u || r == BaseUrl + u || r == BaseUrl + "/" + u
    // the result is empty exactly for empty input, and is otherwise an
    // http(s) URL or an input that already named another scheme
    ensures r == [] <==> u == []
    ensures u != [] ==> HasHttpScheme(r) || (r == u && Contains(u, "://"))
    // the five cases of the source
    ensures HasHttpScheme(u) ==> r == u
    ensures StartsWith(u, "//") ==> r == "https:" + u
    ensures StartsWith(u, "/") && !StartsWith(u, "//") ==> r == BaseUrl + u
    ensures u != [] && !StartsWith(u, "/") && !HasHttpScheme(u) && !Contains(u, "://") ==> r == BaseUrl + "/" + u
    ensures !StartsWith(u, "/") && !HasHttpScheme(u) && Contains(u, "://") ==> r == u
  {
    if u == [] then []
    else if HasHttpScheme(u) then u
    else if StartsWith(u, "//") then
      SchemeRelativeIsHttp(u);
      "https:" + u
    else if StartsWith(u, "/") then
      BaseIsHttp(u);
      BaseUrl + u
    else if !Contains(u, "://") then
      BaseIsHttp("/" + u);
      assert BaseUrl + "/" + u == BaseUrl + ("/" + u);
      BaseUrl + "/" + u
    else u
  }

  lemma BaseIsHttp(tail: string)
    ensures HasHttpScheme(BaseUrl + tail)
  {
    var s := BaseUrl + tail;
    assert s[..8] == "https://";
  }

  lemma SchemeRelativeIsHttp(u: string)
    requires StartsWith(u, "//")
    ensures HasHttpScheme("https:" + u)
  {
    var s := "https:" + u;
    assert s[..6] == "https:";
    assert s[6] == u[0] == '/' && s[7] == u[1] == '/';
    assert s[5..8] == "://";
  }

  /** Normalising an already normalised URL changes nothing. */
  lemma NormalizeUrlIdempotent(u: string)
    ensures NormalizeUrl(NormalizeUrl(u)) == NormalizeUrl(u)
  {
    var r := NormalizeUrl(u);
    if r != [] && !HasHttpScheme(r) {
      assert r == u && Contains(u, "://");
      assert !StartsWith(u, "/");
    }
  }
}
