/**
 * The whitespace half of `render`: runs of two or more whitespace characters become one
 * space, then both ends are trimmed.
 */
module Whitespace {
  import opened Prelude
  import Templates

  /** The characters `\s` and `trim` agree on. */
  predicate IsWs(c: char) {
    || '\t' <= c <= '\r' || c == ' ' || c == '\U{00A0}' || c == '\U{1680}'
    || '\U{2000}' <= c <= '\U{200A}' || c == '\U{2028}' || c == '\U{2029}'
    || c == '\U{202F}' || c == '\U{205F}' || c == '\U{3000}' || c == '\U{FEFF}'
  }

  function WsRun(s: string): (n: nat)
    ensures n <= |s| && (forall i :: 0 <= i < n ==> IsWs(s[i])) && (n < |s| ==> !IsWs(s[n]))
  {
    if s == [] || !IsWs(s[0]) then 0 else 1 + WsRun(s[1..])
  }

  /** `.replace(/\s{2,}/g, ' ')`: a lone whitespace character stays what it is. */
  function Collapse(s: string): string
    decreases |s|
  {
    if s == [] then []
    else if !IsWs(s[0]) then [s[0]] + Collapse(s[1..])
    else (if WsRun(s) >= 2 then " " else [s[0]]) + Collapse(s[WsRun(s)..])
  }

  function TrimStart(s: string): string {
    if s != [] && IsWs(s[0]) then TrimStart(s[1..]) else s
  }

  function TrimEnd(s: string): string {
    if s != [] && IsWs(s[|s| - 1]) then TrimEnd(s[..|s| - 1]) else s
  }

  function Normalise(s: string): string {
    TrimEnd(TrimStart(Collapse(s)))
  }

  /** `render` of the service, `renderTemplate` of the worker. */
  function Render(template: string, context: Templates.Context): string {
    Normalise(Templates.Substitute(Templates.Scan(template), context))
  }

  // ----- what normal text is -----

  ghost predicate NoAdjacentWs(s: string) {
    forall i :: 0 <= i < |s| - 1 ==> !IsWs(s[i]) || !IsWs(s[i + 1])
  }

  ghost predicate IsNormal(s: string) {
    NoAdjacentWs(s) && (s != [] ==> !IsWs(s[0]) && !IsWs(s[|s| - 1]))
  }

  lemma {:induction false} CollapseHasNoAdjacentWs(s: string)
    ensures NoAdjacentWs(Collapse(s))
    ensures s != [] ==> Collapse(s) != [] && (IsWs(Collapse(s)[0]) <==> IsWs(s[0]))
    decreases |s|
  {
    if s != [] {
      if !IsWs(s[0]) {
        CollapseHasNoAdjacentWs(s[1..]);
      } else {
        CollapseHasNoAdjacentWs(s[WsRun(s)..]);
      }
    }
  }

  lemma {:induction false} TrimStartIsSuffix(s: string) returns (k: nat)
    ensures k <= |s| && TrimStart(s) == s[k..] && (forall i :: 0 <= i < k ==> IsWs(s[i]))
    ensures TrimStart(s) != [] ==> !IsWs(TrimStart(s)[0])
  {
    if s != [] && IsWs(s[0]) {
      var j := TrimStartIsSuffix(s[1..]);
      k := j + 1;
    } else {
      k := 0;
    }
  }

  lemma {:induction false} TrimEndIsPrefix(s: string) returns (k: nat)
    ensures k <= |s| && TrimEnd(s) == s[..k] && (forall i :: k <= i < |s| ==> IsWs(s[i]))
    ensures k > 0 ==> !IsWs(s[k - 1])
  {
    if s != [] && IsWs(s[|s| - 1]) {
      k := TrimEndIsPrefix(s[..|s| - 1]);
    } else {
      k := |s|;
    }
  }

  /** No two adjacent whitespace characters, none at either end. */
  lemma NormaliseIsNormal(s: string)
    ensures IsNormal(Normalise(s))
  {
    CollapseHasNoAdjacentWs(s);
    var j := TrimStartIsSuffix(Collapse(s));
    var k := TrimEndIsPrefix(TrimStart(Collapse(s)));
  }

  lemma {:induction false} CollapseFixesNoAdjacent(s: string)
    requires NoAdjacentWs(s)
    ensures Collapse(s) == s
    decreases |s|
  {
    if s != [] {
      CollapseFixesNoAdjacent(s[1..]);
      if IsWs(s[0]) { assert WsRun(s) == 1 + WsRun(s[1..]); }
    }
  }

  /** Normal text is exactly what normalising leaves alone; so normalising twice is normalising once. */
  lemma NormalIffFixed(s: string)
    ensures IsNormal(s) <==> Normalise(s) == s
  {
    if IsNormal(s) {
      CollapseFixesNoAdjacent(s);
    } else {
      NormaliseIsNormal(s);
    }
  }

  lemma NormaliseIdempotent(s: string)
    ensures Normalise(Normalise(s)) == Normalise(s)
  {
    NormaliseIsNormal(s);
    NormalIffFixed(Normalise(s));
  }

  // ----- what is kept: the words, in order -----

  function InkRun(s: string): (n: nat)
    ensures n <= |s| && (forall i :: 0 <= i < n ==> !IsWs(s[i])) && (n < |s| ==> IsWs(s[n]))
  {
    if s == [] || IsWs(s[0]) then 0 else 1 + InkRun(s[1..])
  }

  /** The maximal pieces without whitespace. */
  function Words(s: string): seq<string>
    decreases |s|
  {
    if s == [] then []
    else if IsWs(s[0]) then Words(s[1..])
    else [s[..InkRun(s)]] + Words(s[InkRun(s)..])
  }

  lemma {:induction false} WordsSkipWs(s: string, n: nat)
    requires n <= |s| && forall i :: 0 <= i < n ==> IsWs(s[i])
    ensures Words(s) == Words(s[n..])
    decreases n
  {
    if n > 0 {
      WordsSkipWs(s[1..], n - 1);
      assert s[1..][n - 1..] == s[n..];
    } else {
      assert s[0..] == s;
    }
  }

  lemma {:induction false} InkRunIs(s: string, n: nat)
    requires n <= |s| && (forall i :: 0 <= i < n ==> !IsWs(s[i])) && (n < |s| ==> IsWs(s[n]))
    ensures InkRun(s) == n
  {
    if n > 0 { InkRunIs(s[1..], n - 1); }
  }

  lemma {:induction false} CollapseKeepsWord(s: string, n: nat)
    requires n <= |s| && forall i :: 0 <= i < n ==> !IsWs(s[i])
    ensures Collapse(s) == s[..n] + Collapse(s[n..])
    decreases n
  {
    if n > 0 {
      CollapseKeepsWord(s[1..], n - 1);
      assert s[1..][n - 1..] == s[n..];
      assert [s[0]] + s[1..][..n - 1] == s[..n];
    } else {
      assert s[..0] == [] && s[0..] == s;
    }
  }

  lemma {:induction false} CollapseKeepsWords(s: string)
    ensures Words(Collapse(s)) == Words(s)
    decreases |s|
  {
    if s != [] {
      if IsWs(s[0]) {
        var n := WsRun(s);
        CollapseKeepsWords(s[n..]);
        WordsSkipWs(s, n);
        assert Collapse(s)[1..] == Collapse(s[n..]);
        WordsSkipWs(Collapse(s), 1);
      } else {
        var n := InkRun(s);
        CollapseKeepsWord(s, n);
        CollapseKeepsWords(s[n..]);
        CollapseHasNoAdjacentWs(s[n..]);
        InkRunIs(Collapse(s), n);
        assert Collapse(s)[n..] == Collapse(s[n..]);
        assert Collapse(s)[..n] == s[..n];
      }
    }
  }

  lemma {:induction false} WordsDropTrailingWs(s: string, k: nat)
    requires k <= |s| && forall i :: k <= i < |s| ==> IsWs(s[i])
    ensures Words(s) == Words(s[..k])
    decreases |s|
  {
    if k == 0 {
      WordsSkipWs(s, |s|);
      assert s[|s|..] == [] && s[..0] == [];
    } else if IsWs(s[0]) {
      WordsDropTrailingWs(s[1..], k - 1);
      assert s[1..][..k - 1] == s[..k][1..];
    } else {
      var n := InkRun(s);
      assert n <= k by { assert k < |s| ==> IsWs(s[k]); }
      InkRunIs(s[..k], n);
      WordsDropTrailingWs(s[n..], k - n);
      assert s[n..][..k - n] == s[..k][n..];
      assert s[..k][..n] == s[..n];
    }
  }

  /** Every word of the text survives, in order and unsplit; only whitespace changes. */
  lemma NormaliseKeepsWords(s: string)
    ensures Words(Normalise(s)) == Words(s)
  {
    CollapseKeepsWords(s);
    var c := Collapse(s);
    var j := TrimStartIsSuffix(c);
    WordsSkipWs(c, j);
    var k := TrimEndIsPrefix(TrimStart(c));
    WordsDropTrailingWs(TrimStart(c), k);
  }

  // ----- what becomes of the gaps -----

  /** The whitespace between one word and the next; what stands at either end is no gap. */
  function Gaps(s: string): seq<string>
    decreases |s|
  {
    if s == [] then []
    else if IsWs(s[0]) then Gaps(s[1..])
    else
      var rest := s[InkRun(s)..];
      if Words(rest) == [] then [] else [rest[..WsRun(rest)]] + Gaps(rest[WsRun(rest)..])
  }

  /** The words with a gap after each but the last. */
  function Weave(words: seq<string>, gaps: seq<string>): string {
    if words == [] then []
    else if |words| == 1 || gaps == [] then words[0]
    else words[0] + gaps[0] + Weave(words[1..], gaps[1..])
  }

  /** A single whitespace character stays as it is; two or more become a space. */
  function Narrowed(gaps: seq<string>): (narrow: seq<string>)
    ensures |narrow| == |gaps|
    ensures forall i :: 0 <= i < |gaps| ==> narrow[i] == if |gaps[i]| == 1 then gaps[i] else " "
  {
    seq(|gaps|, i requires 0 <= i < |gaps| => if |gaps[i]| == 1 then gaps[i] else " ")
  }

  lemma {:induction false} GapsSkipWs(s: string, n: nat)
    requires n <= |s| && forall i :: 0 <= i < n ==> IsWs(s[i])
    ensures Gaps(s) == Gaps(s[n..])
    decreases n
  {
    if n > 0 {
      GapsSkipWs(s[1..], n - 1);
      assert s[1..][n - 1..] == s[n..];
    } else {
      assert s[0..] == s;
    }
  }

  lemma {:induction false} TrimEndConcat(a: string, b: string)
    requires TrimEnd(b) != []
    ensures TrimEnd(a + b) == a + TrimEnd(b)
    decreases |b|
  {
    assert b != [] && (a + b)[|a + b| - 1] == b[|b| - 1];
    if IsWs(b[|b| - 1]) {
      TrimEndConcat(a, b[..|b| - 1]);
      assert (a + b)[..|a + b| - 1] == a + b[..|b| - 1];
    }
  }

  lemma {:induction false} TrimEndOfWs(a: string, b: string)
    requires (forall i :: 0 <= i < |b| ==> IsWs(b[i])) && (a != [] ==> !IsWs(a[|a| - 1]))
    ensures TrimEnd(a + b) == a
    decreases |b|
  {
    if b == [] {
      assert a + b == a;
    } else {
      assert (a + b)[..|a + b| - 1] == a + b[..|b| - 1];
      TrimEndOfWs(a, b[..|b| - 1]);
    }
  }

  lemma {:induction false} NoWordsMeansWs(s: string)
    ensures Words(s) == [] <==> forall i :: 0 <= i < |s| ==> IsWs(s[i])
    decreases |s|
  {
    if s != [] && IsWs(s[0]) {
      NoWordsMeansWs(s[1..]);
      assert forall i :: 1 <= i < |s| ==> s[i] == s[1..][i - 1];
    }
  }

  /** A word at the front: what each of the functions makes of it. */
  lemma WordStep(s: string)
    requires s != [] && !IsWs(s[0])
    ensures var word, rest := s[..InkRun(s)], s[InkRun(s)..];
      && word != [] && !IsWs(word[|word| - 1]) && (rest != [] ==> IsWs(rest[0])) && |rest| < |s|
      && Collapse(s) == word + Collapse(rest) && Words(s) == [word] + Words(rest)
      && Gaps(s) == if Words(rest) == [] then [] else [rest[..WsRun(rest)]] + Gaps(rest[WsRun(rest)..])
  {
    CollapseKeepsWord(s, InkRun(s));
  }

  /** Whitespace with a word behind it. */
  lemma GapStep(rest: string)
    requires Words(rest) != [] && (rest != [] ==> IsWs(rest[0]))
    ensures 0 < WsRun(rest) < |rest| && !IsWs(rest[WsRun(rest)])
    ensures Words(rest[WsRun(rest)..]) == Words(rest)
    ensures Collapse(rest) == (if WsRun(rest) == 1 then rest[..1] else " ") + Collapse(rest[WsRun(rest)..])
  {
    NoWordsMeansWs(rest);
    WordsSkipWs(rest, WsRun(rest));
  }

  /** From a word on: the words woven with their narrowed gaps, whatever stands at the end. */
  lemma {:induction false} TrimmedIsWoven(s: string)
    requires s != [] && !IsWs(s[0])
    ensures TrimEnd(Collapse(s)) == Weave(Words(s), Narrowed(Gaps(s))) != []
    decreases |s|
  {
    hide Collapse, Words, Gaps, TrimEnd, InkRun, WsRun, IsWs;
    WordStep(s);
    var word, rest := s[..InkRun(s)], s[InkRun(s)..];
    NoWordsMeansWs(rest);
    if Words(rest) == [] {
      AllWsCollapses(rest);
      TrimEndOfWs(word, Collapse(rest));
    } else {
      GapStep(rest);
      var gap, more := rest[..WsRun(rest)], rest[WsRun(rest)..];
      var narrow := if |gap| == 1 then gap else " ";
      TrimmedIsWoven(more);
      TrimEndConcat(word + narrow, Collapse(more));
      assert word + (narrow + Collapse(more)) == word + narrow + Collapse(more);
      WeaveStep(word, gap, Words(more), Gaps(more));
    }
  }

  lemma WeaveStep(word: string, gap: string, words: seq<string>, gaps: seq<string>)
    requires words != []
    ensures Weave([word] + words, Narrowed([gap] + gaps))
            == word + (if |gap| == 1 then gap else " ") + Weave(words, Narrowed(gaps))
  {
    assert Narrowed([gap] + gaps)[1..] == Narrowed(gaps);
    assert ([word] + words)[1..] == words;
  }

  lemma AllWsCollapses(s: string)
    requires forall i :: 0 <= i < |s| ==> IsWs(s[i])
    ensures forall i :: 0 <= i < |Collapse(s)| ==> IsWs(Collapse(s)[i])
  {
    if s != [] { assert WsRun(s) == |s|; }
  }

  /**
   * Normalising, in full: the words of the text in order, between them a lone whitespace character as
   * it was and a space for every longer run, and nothing at the ends.
   */
  lemma NormaliseIsWoven(s: string)
    ensures Normalise(s) == Weave(Words(s), Narrowed(Gaps(s)))
  {
    var m := WsRun(s);
    var more := s[m..];
    WordsSkipWs(s, m);
    GapsSkipWs(s, m);
    LeadingWs(s);
    if more != [] {
      TrimmedIsWoven(more);
      CollapseHasNoAdjacentWs(more);
    }
  }

  lemma LeadingWs(s: string)
    ensures TrimStart(Collapse(s)) == TrimStart(Collapse(s[WsRun(s)..]))
  {
    if s != [] && IsWs(s[0]) {
      var more := s[WsRun(s)..];
      assert Collapse(s)[1..] == Collapse(more);
    } else {
      assert s[0..] == s;
    }
  }

  const WHITESPACE: set<char> := {
    '\U{0009}', '\U{000A}', '\U{000B}', '\U{000C}', '\U{000D}', '\U{0020}', '\U{00A0}', '\U{1680}', '\U{2000}',
    '\U{2001}', '\U{2002}', '\U{2003}', '\U{2004}', '\U{2005}', '\U{2006}', '\U{2007}', '\U{2008}', '\U{2009}',
    '\U{200A}', '\U{2028}', '\U{2029}', '\U{202F}', '\U{205F}', '\U{3000}', '\U{FEFF}'}

  /** The characters that count as whitespace, one by one. */
  lemma WhitespaceIs(c: char)
    ensures IsWs(c) <==> c in WHITESPACE
  {
  }

  /** The whole rendering: normal text whose words are those of the substituted template. */
  lemma RenderedText(template: string, context: Templates.Context)
    ensures IsNormal(Render(template, context))
    ensures Normalise(Render(template, context)) == Render(template, context)
    ensures Words(Render(template, context)) == Words(Templates.Substitute(Templates.Scan(template), context))
    ensures var text := Templates.Substitute(Templates.Scan(template), context);
            Render(template, context) == Weave(Words(text), Narrowed(Gaps(text)))
  {
    var text := Templates.Substitute(Templates.Scan(template), context);
    NormaliseIsNormal(text);
    NormaliseIdempotent(text);
    NormaliseKeepsWords(text);
    NormaliseIsWoven(text);
  }
}
