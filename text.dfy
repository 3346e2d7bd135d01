/** String helpers shared by the model: the JavaScript string operations the
    core uses (`startsWith`, `includes`, `||` on strings, number-to-string
    conversion, `join`) and the regular-expression searches the judge code
    runs on a reply. */
module Text {
  import opened Wrappers

  /** JavaScript's `s.startsWith(p)`. */
  predicate StartsWith(s: string, p: string) {
    p <= s
  }

  /** JavaScript's `s.endsWith(p)`. */
  predicate EndsWith(s: string, p: string) {
    |p| <= |s| && s[|s| - |p|..] == p
  }

  /** JavaScript's `s.includes(sub)`: `sub` occurs somewhere in `s`. */
  predicate Contains(s: string, sub: string)
    decreases |s|
  {
    sub <= s || (|s| > 0 && Contains(s[1..], sub))
  }

  /** A JavaScript string value is truthy iff it is present and not empty. */
  predicate Truthy(s: Option<string>) {
    s.Some? && s.value != ""
  }

  /** JavaScript's `a || b` where `a` is a string that may be missing. */
  function Or(a: Option<string>, b: string): string {
    if Truthy(a) then a.value else b
  }

  /** ASCII part of `toLowerCase`: other characters are left as they are. */
  function LowerChar(c: char): char {
    if 'A' <= c <= 'Z' then (c as int + 32) as char else c
  }

  function LowerAscii(s: string): string {
    seq(|s|, k requires 0 <= k < |s| => LowerChar(s[k]))
  }

  /** The characters matched by `\s` in an ECMAScript regular expression
      (WhiteSpace and LineTerminator). */
  predicate IsSpace(c: char) {
    || c == ' ' || c == '\t' || c == '\n' || c == '\r'
    || c as int == 0x0B || c as int == 0x0C || c as int == 0xA0 || c as int == 0x1680
    || 0x2000 <= c as int <= 0x200A
    || c as int == 0x2028 || c as int == 0x2029 || c as int == 0x202F || c as int == 0x205F
    || c as int == 0x3000 || c as int == 0xFEFF
  }

  /** The characters that `.` does not match in an ECMAScript regular expression. */
  predicate IsLineTerminator(c: char) {
    c == '\n' || c == '\r' || c as int == 0x2028 || c as int == 0x2029
  }

  /** The characters matched by `\d`. */
  predicate IsDigit(c: char) {
    '0' <= c <= '9'
  }

  function DigitChar(d: nat): (c: char)
    requires d < 10
    ensures IsDigit(c)
  {
    ('0' as int + d) as char
  }

  /** Decimal rendering of a non-negative integer, as in `${n}`. */
  function NatToString(n: nat): (r: string)
    ensures |r| > 0 && forall k :: 0 <= k < |r| ==> IsDigit(r[k])
    decreases n
  {
    if n < 10 then [DigitChar(n)] else NatToString(n / 10) + [DigitChar(n % 10)]
  }

  /** Decimal rendering of an integer, as in `${i}`. */
  function IntToString(i: int): (r: string)
    ensures |r| > 0 && forall k :: 0 <= k < |r| ==> IsDigit(r[k]) || r[k] == '-'
  {
    if i < 0 then "-" + NatToString(-i) else NatToString(i)
  }

  /** The value of a run of decimal digits, as `parseInt` reads it. */
  function DigitsValue(s: string): nat
    requires forall k :: 0 <= k < |s| ==> IsDigit(s[k])
  {
    if s == [] then 0 else 10 * DigitsValue(s[..|s| - 1]) + DigitValue(s[|s| - 1])
  }

  function DigitValue(c: char): (d: nat)
    requires IsDigit(c)
  {
    c as int - '0' as int
  }

  /** Reading back a rendered number gives the number. */
  lemma {:induction false} DigitsValueOfNatToString(n: nat)
    ensures DigitsValue(NatToString(n)) == n
    decreases n
  {
    if n >= 10 {
      var p := NatToString(n / 10);
      var s := p + [DigitChar(n % 10)];
      assert s[..|s| - 1] == p;
      DigitsValueOfNatToString(n / 10);
    }
  }

  /** JavaScript's `parts.join(sep)`. */
  function Join(parts: seq<string>, sep: string): string
    decreases |parts|
  {
    if |parts| == 0 then ""
    else if |parts| == 1 then parts[0]
    else parts[0] + sep + Join(parts[1..], sep)
  }

  lemma {:induction false} ContainsAt(s: string, sub: string, i: nat)
    requires i + |sub| <= |s| && s[i..i + |sub|] == sub
    ensures Contains(s, sub)
    decreases i
  {
    if i > 0 {
      assert s[1..][i - 1..i - 1 + |sub|] == sub;
      ContainsAt(s[1..], sub, i - 1);
    } else {
      assert s[..|sub|] == sub;
    }
  }

  lemma ContainsInfix(a: string, b: string, c: string)
    ensures Contains(a + b + c, b)
  {
    var s := a + b + c;
    assert s[|a|..|a| + |b|] == b;
    ContainsAt(s, b, |a|);
  }

  /** An occurrence in `b` is an occurrence in `a + b`. */
  lemma {:induction false} ContainsAppendLeft(a: string, b: string, sub: string)
    requires Contains(b, sub)
    ensures Contains(a + b, sub)
    decreases |a|
  {
    if a == [] {
      assert a + b == b;
    } else {
      assert (a + b)[1..] == a[1..] + b;
      ContainsAppendLeft(a[1..], b, sub);
    }
  }

  /** An occurrence in `a` is an occurrence in `a + b`. */
  lemma ContainsAppendRight(a: string, b: string, sub: string)
    requires Contains(a, sub)
    ensures Contains(a + b, sub)
  {
    ContainsWitness(a, sub);
    var i: nat :| OccursAt(a, sub, i);
    assert (a + b)[i..i + |sub|] == a[i..i + |sub|];
    ContainsAt(a + b, sub, i);
  }

  /** An occurrence in `m` is an occurrence in `a + m + b`. */
  lemma ContainsMiddle(a: string, m: string, b: string, sub: string)
    requires Contains(m, sub)
    ensures Contains(a + m + b, sub)
  {
    ContainsAppendLeft(a, m, sub);
    ContainsAppendRight(a + m, b, sub);
  }

  /** A template with two holes contains what fills the first one, and
      whatever occurs in what fills the second. */
  lemma TwoHoles(a: string, x: string, b: string, y: string, c: string, sub: string)
    requires Contains(y, sub)
    ensures Contains(a + x + b + y + c, x) && Contains(a + x + b + y + c, sub)
  {
    assert a + x + b + y + c == a + x + (b + y + c);
    ContainsInfix(a, x, b + y + c);
    ContainsMiddle(a + x + b, y, c, sub);
  }

  /** If the first character of `sub` occurs in `s` at no position where
      `sub` could start, `sub` does not occur in `s`. */
  lemma {:induction false} AbsentFirstChar(s: string, sub: string)
    requires |sub| > 0 && forall k :: 0 <= k && k + |sub| <= |s| ==> s[k] != sub[0]
    ensures !Contains(s, sub)
    decreases |s|
  {
    if |sub| <= |s| {
      assert s[0] != sub[0];
      assert !(sub <= s);
    }
    if |s| > 0 {
      forall k | 0 <= k && k + |sub| <= |s[1..]|
        ensures s[1..][k] != sub[0]
      {
        assert s[1..][k] == s[k + 1];
      }
      AbsentFirstChar(s[1..], sub);
    }
  }

  /** `sub` occurs in `s` at index `i`. */
  predicate OccursAt(s: string, sub: string, i: nat) {
    i + |sub| <= |s| && s[i..i + |sub|] == sub
  }

  /** An occurrence has a position. */
  lemma {:induction false} ContainsWitness(s: string, sub: string)
    requires Contains(s, sub)
    ensures exists i: nat :: OccursAt(s, sub, i)
    decreases |s|
  {
    if sub <= s {
      assert OccursAt(s, sub, 0);
    } else {
      ContainsWitness(s[1..], sub);
      var i: nat :| OccursAt(s[1..], sub, i);
      assert s[1..][i..i + |sub|] == s[i + 1..i + 1 + |sub|];
      assert OccursAt(s, sub, i + 1);
    }
  }

  /** Every part of a joined list occurs in the joined string. */
  lemma {:induction false} JoinContainsPart(parts: seq<string>, sep: string, i: nat)
    requires i < |parts|
    ensures Contains(Join(parts, sep), parts[i])
    decreases |parts|
  {
    if |parts| == 1 {
      ContainsInfix("", parts[0], "");
      assert "" + parts[0] + "" == parts[0];
    } else if i == 0 {
      ContainsInfix("", parts[0], sep + Join(parts[1..], sep));
      assert "" + parts[0] + (sep + Join(parts[1..], sep)) == Join(parts, sep);
    } else {
      JoinContainsPart(parts[1..], sep, i - 1);
      ContainsAppendLeft(parts[0] + sep, Join(parts[1..], sep), parts[i]);
    }
  }

  /** The first index at or after `i` holding `c`. */
  function IndexFrom(s: string, c: char, i: nat): (r: Option<nat>)
    requires i <= |s|
    ensures r.Some? ==> i <= r.value < |s| && s[r.value] == c
                        && forall k :: i <= k < r.value ==> s[k] != c
    ensures r.None? ==> forall k :: i <= k < |s| ==> s[k] != c
    decreases |s| - i
  {
    if i == |s| then None
    else if s[i] == c then Some(i)
    else IndexFrom(s, c, i + 1)
  }

  /** The last index below `n` holding `c`. */
  function LastIndexBefore(s: string, c: char, n: nat): (r: Option<nat>)
    requires n <= |s|
    ensures r.Some? ==> r.value < n && s[r.value] == c
                        && forall k :: r.value < k < n ==> s[k] != c
    ensures r.None? ==> forall k :: 0 <= k < n ==> s[k] != c
    decreases n
  {
    if n == 0 then None
    else if s[n - 1] == c then Some(n - 1)
    else LastIndexBefore(s, c, n - 1)
  }

  /** The match of `/\{[\s\S]*\}/` in `s`: the regular expression engine
      starts at the leftmost `{` and the greedy `[\s\S]*` runs to the last `}`.
      `None` means `match` returned `null`. */
  function JsonSpan(s: string): (r: Option<string>)
    ensures r.Some? ==>
      exists i, j :: 0 <= i < j < |s| && s[i] == '{' && s[j] == '}' && r.value == s[i..j + 1]
        && (forall k :: 0 <= k < i ==> s[k] != '{')
        && (forall k :: j < k < |s| ==> s[k] != '}')
    ensures r.None? <==> forall i, j :: 0 <= i < j < |s| && s[i] == '{' ==> s[j] != '}'
  {
    var first := IndexFrom(s, '{', 0);
    var last := LastIndexBefore(s, '}', |s|);
    if first.Some? && last.Some? && first.value < last.value then
      Some(s[first.value..last.value + 1])
    else
      None
  }

  /** The extracted span is a piece of the reply that starts with `{` and ends
      with `}`. */
  lemma JsonSpanShape(s: string)
    requires JsonSpan(s).Some?
    ensures var t := JsonSpan(s).value;
            |t| >= 2 && t[0] == '{' && t[|t| - 1] == '}' && Contains(s, t)
  {
    var t := JsonSpan(s).value;
    var i, j :| 0 <= i < j < |s| && s[i] == '{' && s[j] == '}' && t == s[i..j + 1];
    ContainsAt(s, t, i);
  }
}
