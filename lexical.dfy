/** The lexical comparison both agreement scorers use:
    `text.toLowerCase().split(/\s+/)` and word sets compared by size. */
module Lexical {
  import opened Text

  /** Drops a leading run of `\s` characters. */
  function SkipSpaces(s: string): (r: string)
    ensures |r| <= |s| && r == s[|s| - |r|..]
    ensures r == [] || !IsSpace(r[0])
    ensures s != [] && IsSpace(s[0]) ==> |r| < |s|
    decreases |s|
  {
    if s != [] && IsSpace(s[0]) then SkipSpaces(s[1..]) else s
  }

  /** `s.split(/\s+/)` continued from a token `cur` already begun: every
      maximal run of `\s` ends one token, so a leading or trailing run yields an
      empty first or last token, and the result is never empty. */
  function SplitFrom(s: string, cur: string): (r: seq<string>)
    requires forall k :: 0 <= k < |cur| ==> !IsSpace(cur[k])
    ensures |r| >= 1
    ensures forall t, k :: t in r && 0 <= k < |t| ==> !IsSpace(t[k])
    decreases |s|
  {
    if s == [] then [cur]
    else if IsSpace(s[0]) then [cur] + SplitFrom(SkipSpaces(s), "")
    else SplitFrom(s[1..], cur + [s[0]])
  }

  /** JavaScript's `s.split(/\s+/)`. */
  function Split(s: string): (r: seq<string>)
    ensures |r| >= 1
    ensures forall t, k :: t in r && 0 <= k < |t| ==> !IsSpace(t[k])
  {
    SplitFrom(s, "")
  }

  /** `s` with every `\s` character removed. */
  function RemoveSpaces(s: string): string
    decreases |s|
  {
    if s == [] then [] else (if IsSpace(s[0]) then [] else [s[0]]) + RemoveSpaces(s[1..])
  }

  function Concat(parts: seq<string>): string
    decreases |parts|
  {
    if parts == [] then [] else parts[0] + Concat(parts[1..])
  }

  lemma {:induction false} RemoveSpacesSkip(s: string)
    ensures RemoveSpaces(SkipSpaces(s)) == RemoveSpaces(s)
    decreases |s|
  {
    if s != [] && IsSpace(s[0]) {
      RemoveSpacesSkip(s[1..]);
    }
  }

  lemma {:induction false} SplitFromKeepsText(s: string, cur: string)
    requires forall k :: 0 <= k < |cur| ==> !IsSpace(cur[k])
    ensures Concat(SplitFrom(s, cur)) == cur + RemoveSpaces(s)
    decreases |s|
  {
    if s == [] {
      assert Concat([cur]) == cur + Concat([]);
    } else if IsSpace(s[0]) {
      var rest := SplitFrom(SkipSpaces(s), "");
      assert SplitFrom(s, cur) == [cur] + rest;
      SplitFromKeepsText(SkipSpaces(s), "");
      RemoveSpacesSkip(s);
      ConcatCons(cur, rest);
      assert "" + RemoveSpaces(SkipSpaces(s)) == RemoveSpaces(s);
    } else {
      var next := cur + [s[0]];
      assert SplitFrom(s, cur) == SplitFrom(s[1..], next);
      SplitFromKeepsText(s[1..], next);
      assert RemoveSpaces(s) == [s[0]] + RemoveSpaces(s[1..]);
      assert next + RemoveSpaces(s[1..]) == cur + ([s[0]] + RemoveSpaces(s[1..]));
    }
  }

  lemma ConcatCons(head: string, rest: seq<string>)
    ensures Concat([head] + rest) == head + Concat(rest)
  {
    assert ([head] + rest)[1..] == rest;
  }

  /** Splitting loses exactly the whitespace: the tokens, read one after the
      other, spell the text without its `\s` characters. */
  lemma SplitKeepsText(s: string)
    ensures Concat(Split(s)) == RemoveSpaces(s)
  {
    SplitFromKeepsText(s, "");
  }

  /** `s` with every maximal run of `\s` characters replaced by one space. */
  function Collapse(s: string): string
    decreases |s|
  {
    if s == [] then []
    else if IsSpace(s[0]) then " " + Collapse(SkipSpaces(s))
    else [s[0]] + Collapse(s[1..])
  }

  lemma {:induction false} SplitFromCollapses(s: string, cur: string)
    requires forall k :: 0 <= k < |cur| ==> !IsSpace(cur[k])
    ensures Join(SplitFrom(s, cur), " ") == cur + Collapse(s)
    decreases |s|
  {
    if s == [] {
    } else if IsSpace(s[0]) {
      var rest := SplitFrom(SkipSpaces(s), "");
      assert SplitFrom(s, cur) == [cur] + rest;
      SplitFromCollapses(SkipSpaces(s), "");
      assert ([cur] + rest)[1..] == rest;
      assert Join([cur] + rest, " ") == cur + " " + Join(rest, " ");
    } else {
      var next := cur + [s[0]];
      SplitFromCollapses(s[1..], next);
      assert next + Collapse(s[1..]) == cur + ([s[0]] + Collapse(s[1..]));
    }
  }

  /** The tokens are where the whitespace runs are: joined with one space
      they give the text with each `\s` run collapsed to a single space. As
      no token holds whitespace, this fixes every token, including the empty
      first or last one a leading or trailing run produces. */
  lemma SplitCollapses(s: string)
    ensures Join(Split(s), " ") == Collapse(s)
  {
    SplitFromCollapses(s, "");
  }

  /** The empty edge tokens of JavaScript's `split`: a text that starts
      (ends) with whitespace has an empty first (last) token. */
  lemma SplitEdges(s: string)
    ensures s != [] && IsSpace(s[0]) ==> Split(s)[0] == ""
    ensures s != [] && IsSpace(s[|s| - 1]) ==> Split(s)[|Split(s)| - 1] == ""
  {
    if s != [] && IsSpace(s[|s| - 1]) {
      SplitFromEndsEmpty(s, "");
    }
  }

  lemma {:induction false} SplitFromEndsEmpty(s: string, cur: string)
    requires forall k :: 0 <= k < |cur| ==> !IsSpace(cur[k])
    requires s != [] && IsSpace(s[|s| - 1])
    ensures var r := SplitFrom(s, cur); r[|r| - 1] == ""
    decreases |s|
  {
    if IsSpace(s[0]) {
      var t := SkipSpaces(s);
      if t != [] {
        assert t[|t| - 1] == s[|s| - 1];
        SplitFromEndsEmpty(t, "");
      }
    } else {
      SplitFromEndsEmpty(s[1..], cur + [s[0]]);
    }
  }

  /** `new Set(tokens)`. */
  function WordSet(tokens: seq<string>): set<string> {
    set t | t in tokens
  }

  /** `text.toLowerCase().split(/\s+/)`. */
  function Tokenize(text: string): (r: seq<string>)
    ensures |r| >= 1
  {
    Split(LowerAscii(text))
  }

  /** `new Set(tokenize(text))`. */
  function TokenSet(text: string): (r: set<string>)
    ensures r != {}
  {
    var tokens := Tokenize(text);
    assert tokens[0] in WordSet(tokens);
    WordSet(tokens)
  }

  /** The word set depends on the text only up to ASCII case. */
  lemma TokenSetIgnoresCase(a: string, b: string)
    requires LowerAscii(a) == LowerAscii(b)
    ensures TokenSet(a) == TokenSet(b)
  {
  }

  /** The Jaccard ratio |A ∩ B| / |A ∪ B| of two word sets. */
  function Jaccard(a: set<string>, b: set<string>): real
    requires a + b != {}
  {
    (|a * b| as real) / (|a + b| as real)
  }

  lemma {:induction false} SubsetCardinality(a: set<string>, b: set<string>)
    requires a <= b
    ensures |a| <= |b|
    decreases |a|
  {
    if a != {} {
      var x :| x in a;
      SubsetCardinality(a - {x}, b - {x});
    }
  }

  /** The ratio is a fraction: 0 for disjoint sets, 1 for equal sets. */
  lemma JaccardBounds(a: set<string>, b: set<string>)
    requires a + b != {}
    ensures 0.0 <= Jaccard(a, b) <= 1.0
    ensures a * b == {} ==> Jaccard(a, b) == 0.0
    ensures a == b ==> Jaccard(a, b) == 1.0
  {
    SubsetCardinality(a * b, a + b);
    var x: real := |a * b| as real;
    var y: real := |a + b| as real;
    assert y > 0.0 by {
      var e :| e in a + b;
      assert {e} <= a + b;
      SubsetCardinality({e}, a + b);
    }
    assert x / y <= 1.0 by {
      assert x <= y;
    }
    if a == b {
      assert a * b == a + b;
    }
  }

  lemma JaccardSymmetric(a: set<string>, b: set<string>)
    requires a + b != {}
    ensures Jaccard(a, b) == Jaccard(b, a)
  {
    assert a * b == b * a && a + b == b + a;
  }
}
