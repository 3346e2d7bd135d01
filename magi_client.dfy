/** analyzers/magi-client.js: `extractRecommendation`, which reads an
    investment action and a confidence out of one AI's answer. Each regular
    expression it runs is modelled by the search it performs on the text. */
module MagiClient {
  import opened Wrappers
  import opened Text

  datatype Action = BUY | HOLD | SELL

  datatype Recommendation = Recommendation(action: Action, confidence: int, reason: string)

  /** A search for any of `words` under the `i` flag. The flag folds ASCII
      letters only (the Japanese words are unaffected), so the text is
      lowered and the words are given in lower case. */
  predicate AnyOf(text: string, words: seq<string>) {
    exists k :: 0 <= k < |words| && Contains(LowerAscii(text), words[k])
  }

  /** `a.*b`: `a`, then `b` later on the same line (`.` stops at a line
      terminator). */
  predicate OnOneLine(text: string, a: string, b: string) {
    exists i: nat, j: nat | i <= j <= |text| ::
      && OccursAt(text, a, i) && i + |a| <= j && OccursAt(text, b, j)
      && forall k :: i + |a| <= k < j ==> !IsLineTerminator(text[k])
  }

  /** `/買い|BUY|購入|投資推奨.*買い/i`; the last alternative can only match
      where `買い` already does. */
  predicate IsBuy(text: string) {
    AnyOf(text, ["買い", "buy", "購入"])
  }

  /** `/売り|SELL|売却|投資推奨.*売り/i`. */
  predicate IsSell(text: string) {
    AnyOf(text, ["売り", "sell", "売却"])
  }

  /** `/保有|HOLD|維持|投資推奨.*保有/i`. */
  predicate IsHold(text: string) {
    AnyOf(text, ["保有", "hold", "維持"])
  }

  /** `/強く.*推奨|強力|明確に.*買い|非常に/i`. */
  predicate IsStrong(text: string) {
    OnOneLine(text, "強く", "推奨") || AnyOf(text, ["強力", "非常に"]) || OnOneLine(text, "明確に", "買い")
  }

  /** `/慎重に|リスクあり|不確実|様子を見る/i`. */
  predicate IsWeak(text: string) {
    AnyOf(text, ["慎重に", "リスクあり", "不確実", "様子を見る"])
  }

  /** The end of the run of characters satisfying `p` that starts at `i`. */
  function RunEnd(text: string, i: nat, p: char -> bool): (j: nat)
    requires i <= |text|
    ensures i <= j <= |text|
    ensures forall k :: i <= k < j ==> p(text[k])
    ensures j == |text| || !p(text[j])
    decreases |text| - i
  {
    if i < |text| && p(text[i]) then RunEnd(text, i + 1, p) else i
  }

  /** The number `/確信度[：:]\s*(\d+)\s*%/` captures when a match starts at
      `i`, read by `parseInt`. Since `\s`, `\d` and `%` share no character,
      each run is taken whole and no backtracking changes the outcome. */
  function ConfidenceAt(text: string, i: nat): (r: Option<nat>)
    requires i <= |text|
    ensures r.Some? ==> OccursAt(text, "確信度", i)
  {
    if OccursAt(text, "確信度", i) && i + 3 < |text| && (text[i + 3] == '：' || text[i + 3] == ':') then
      FigureAt(text, RunEnd(text, i + 4, IsSpace))
    else None
  }

  /** `(\d+)\s*%` from `a`: the value of the digits when at least one digit
      is followed, after optional spaces, by `%`. */
  function FigureAt(text: string, a: nat): Option<nat>
    requires a <= |text|
  {
    var b := RunEnd(text, a, IsDigit);
    var c := RunEnd(text, b, IsSpace);
    if a < b && c < |text| && text[c] == '%' then Some(DigitsValue(text[a..b])) else None
  }

  /** The leftmost position at or after `i` where the expression matches. */
  function FirstMatch(text: string, i: nat): (r: Option<nat>)
    requires i <= |text|
    ensures r.Some? ==> i <= r.value < |text| && ConfidenceAt(text, r.value).Some?
    ensures r.Some? ==> forall k :: i <= k < r.value ==> ConfidenceAt(text, k).None?
    ensures r.None? ==> forall k :: i <= k < |text| ==> ConfidenceAt(text, k).None?
    decreases |text| - i
  {
    if i == |text| then None
    else if ConfidenceAt(text, i).Some? then Some(i)
    else FirstMatch(text, i + 1)
  }

  /** `text.match(/確信度[：:]\s*(\d+)\s*%/i)` and `parseInt` of its group. */
  function ExplicitConfidence(text: string): Option<nat> {
    match FirstMatch(text, 0)
    case Some(j) => ConfidenceAt(text, j)
    case None => None
  }

  /** A figure is read only from a text that mentions `確信度`, and every
      text with a match yields one. */
  lemma ExplicitNeedsKeyword(text: string)
    ensures ExplicitConfidence(text).Some? ==> Contains(text, "確信度")
    ensures ExplicitConfidence(text).None? <==> forall k :: 0 <= k < |text| ==> ConfidenceAt(text, k).None?
  {
    var m := FirstMatch(text, 0);
    if m.Some? {
      assert OccursAt(text, "確信度", m.value);
      ContainsAt(text, "確信度", m.value);
    }
  }

  /** The action and confidence the keyword tests settle on; buy words are
      tested first, then sell words, then hold words. */
  function KeywordAction(text: string): (a: Action)
    ensures a == BUY <==> IsBuy(text)
    ensures a == SELL <==> !IsBuy(text) && IsSell(text)
    ensures a == HOLD <==> !IsBuy(text) && !IsSell(text)
  {
    if IsBuy(text) then BUY else if IsSell(text) then SELL else HOLD
  }

  function KeywordConfidence(text: string): (c: int)
    ensures IsBuy(text) || IsSell(text) ==> c == 70
    ensures !IsBuy(text) && !IsSell(text) && IsHold(text) ==> c == 60
    ensures !IsBuy(text) && !IsSell(text) && !IsHold(text) ==> c == 50
  {
    if IsBuy(text) || IsSell(text) then 70 else if IsHold(text) then 60 else 50
  }

  /** The confidence after the phrase adjustments: a strong phrase raises it
      by 15 up to 90, then a weak phrase lowers it by 10 down to 40. */
  function Adjusted(c: int, strong: bool, weak: bool): int {
    var raised := if strong then Min(90, c + 15) else c;
    if weak then Max(40, raised - 10) else raised
  }

  /** The recommendation `extractRecommendation(text)` returns. */
  function Expected(text: string): Recommendation {
    var base := ExplicitConfidence(text).GetOr(KeywordConfidence(text));
    Recommendation(KeywordAction(text), Adjusted(base, IsStrong(text), IsWeak(text)), "")
  }

  function Min(a: int, b: int): int { if a <= b then a else b }
  function Max(a: int, b: int): int { if a >= b then a else b }

  /** `extractRecommendation(text)`: the defaults, then each test in turn
      overwriting `action` and `confidence`. */
  method ExtractRecommendation(text: string) returns (r: Recommendation)
    ensures r == Expected(text)
  {
    var buy, sell, hold := IsBuy(text), IsSell(text), IsHold(text);
    r := Recommendation(HOLD, 50, "");
    if buy {
      r := r.(action := BUY, confidence := 70);
    } else if sell {
      r := r.(action := SELL, confidence := 70);
    } else if hold {
      r := r.(action := HOLD, confidence := 60);
    }
    assert r.action == KeywordAction(text) && r.confidence == KeywordConfidence(text);
    var explicit := ExplicitConfidence(text);
    if explicit.Some? {
      r := r.(confidence := explicit.value);
    }
    ghost var base := r.confidence;
    var strong, weak := IsStrong(text), IsWeak(text);
    if strong {
      r := r.(confidence := Min(90, r.confidence + 15));
    }
    if weak {
      r := r.(confidence := Max(40, r.confidence - 10));
    }
    assert r.confidence == Adjusted(base, strong, weak);
  }

  /** With nothing to go on the answer is HOLD at 50. */
  lemma NothingFoundIsNeutral(text: string)
    requires !IsBuy(text) && !IsSell(text) && !IsHold(text)
    requires ExplicitConfidence(text).None? && !IsStrong(text) && !IsWeak(text)
    ensures Expected(text) == Recommendation(HOLD, 50, "")
  {
  }

  /** Buy words win over sell words. */
  lemma BuyWins(text: string)
    requires IsBuy(text) && IsSell(text)
    ensures Expected(text).action == BUY
  {
  }

  /** A weak phrase leaves the confidence at 40 or more, whatever came before. */
  lemma WeakFloor(text: string)
    requires IsWeak(text)
    ensures Expected(text).confidence >= 40
  {
  }

  /** A strong phrase without a weak one caps the confidence at 90, even an
      explicit figure above 90. */
  lemma StrongCaps(text: string)
    requires IsStrong(text) && !IsWeak(text)
    ensures Expected(text).confidence <= 90
    ensures ExplicitConfidence(text).Some? && ExplicitConfidence(text).value >= 75 ==>
              Expected(text).confidence == 90
  {
  }

  /** An explicit figure replaces the keyword confidence. */
  lemma ExplicitOverrides(text: string)
    requires ExplicitConfidence(text).Some? && !IsStrong(text) && !IsWeak(text)
    ensures Expected(text).confidence == ExplicitConfidence(text).value
  {
  }

  /** Without an explicit figure the confidence stays within 40 to 85. */
  lemma KeywordRange(text: string)
    requires ExplicitConfidence(text).None?
    ensures 40 <= Expected(text).confidence <= 85
  {
  }

  /** A figure is only read after `確信度`, a colon, spaces and at least one digit. */
  lemma {:induction false} ConfidenceAtShape(text: string, i: nat)
    requires i <= |text| && ConfidenceAt(text, i).Some?
    ensures i + 5 < |text|
    ensures text[i + 3] == '：' || text[i + 3] == ':'
    ensures IsDigit(text[RunEnd(text, i + 4, IsSpace)])
  {
  }

  /** `確信度: 85%` is read as 85. */
  lemma ReadsFigure()
    ensures ExplicitConfidence("確信度: 85%") == Some(85)
  {
    var t := "確信度: 85%";
    assert OccursAt(t, "確信度", 0);
    assert RunEnd(t, 4, IsSpace) == 5;
    assert RunEnd(t, 5, IsDigit) == 7;
    assert RunEnd(t, 7, IsSpace) == 7;
    assert t[5..7] == "85";
    assert DigitsValue("85") == 85 by {
      assert "85"[..1] == "8";
    }
  }
}
