/**
 * The few JavaScript string operations the two core files rely on:
 * `String.prototype.trim`, `includes`, `startsWith`, `substring(0, n)`,
 * `Array.prototype.join`, number-to-text in template literals, and the
 * text a template literal produces for `undefined`.
 */
module JsStrings {
  import opened Wrappers

  /** The WhiteSpace and LineTerminator code points that `trim` removes. */
  predicate IsWhitespace(c: char) {
    c == '\t' || c == '\n' || c == '\U{000B}' || c == '\U{000C}' || c == '\r' || c == ' '
    || c == '\U{00A0}' || c == '\U{1680}' || ('\U{2000}' <= c <= '\U{200A}')
    || c == '\U{2028}' || c == '\U{2029}' || c == '\U{202F}' || c == '\U{205F}'
    || c == '\U{3000}' || c == '\U{FEFF}'
  }

  predicate AllWhitespace(s: string) {
    forall i :: 0 <= i < |s| ==> IsWhitespace(s[i])
  }

  /** Drops leading whitespace: the result is the suffix that starts at the first non-whitespace character. */
  function TrimStart(s: string): (r: string)
    ensures |r| <= |s| && r == s[|s| - |r|..]
    ensures AllWhitespace(s[..|s| - |r|])
    ensures r != [] ==> !IsWhitespace(r[0])
  {
    if |s| > 0 && IsWhitespace(s[0]) then
      var r := TrimStart(s[1..]);
      assert s[..|s| - |r|] == [s[0]] + s[1..][..|s| - 1 - |r|];
      r
    else s
  }

  /** Drops trailing whitespace: the result is the prefix that ends at the last non-whitespace character. */
  function TrimEnd(s: string): (r: string)
    ensures |r| <= |s| && r == s[..|r|]
    ensures AllWhitespace(s[|r|..])
    ensures r != [] ==> !IsWhitespace(r[|r| - 1])
  {
    if |s| > 0 && IsWhitespace(s[|s| - 1]) then
      var r := TrimEnd(s[..|s| - 1]);
      assert s[|r|..] == s[..|s| - 1][|r|..] + [s[|s| - 1]];
      r
    else s
  }

  /** `r` is the slice of `s` at `k`, and everything in `s` before and after it is whitespace. */
  predicate TrimmedAt(s: string, k: nat, r: string) {
    k + |r| <= |s| && r == s[k..k + |r|] && AllWhitespace(s[..k]) && AllWhitespace(s[k + |r|..])
  }

  /** `s.trim()` */
  function Trim(s: string): (r: string)
    ensures |r| <= |s|
    ensures r != [] ==> !IsWhitespace(r[0]) && !IsWhitespace(r[|r| - 1])
  {
    TrimEnd(TrimStart(s))
  }

  /** `s.trim()` is the slice of `s` between its leading and its trailing whitespace runs. */
  lemma TrimSlice(s: string)
    ensures TrimmedAt(s, |s| - |TrimStart(s)|, Trim(s))
  {
    var t := TrimStart(s);
    TrimmedSlice(s, |s| - |t|, t, TrimEnd(t));
  }

  /**
   * Dropping a whitespace run of length `k` from the front of `s`, then one
   * from the back of what is left, leaves the slice of `s` between the two runs.
   */
  lemma TrimmedSlice(s: string, k: nat, t: string, r: string)
    requires k <= |s| && t == s[k..] && AllWhitespace(s[..k])
    requires t != [] ==> !IsWhitespace(t[0])
    requires |r| <= |t| && r == t[..|r|] && AllWhitespace(t[|r|..])
    ensures TrimmedAt(s, k, r)
    ensures r != [] ==> !IsWhitespace(r[0])
  {
    assert s[k + |r|..] == t[|r|..];
  }

  /** A trimmed field is empty exactly when the field held nothing but whitespace. */
  lemma TrimEmptyIff(s: string)
    ensures Trim(s) == [] <==> AllWhitespace(s)
  {
    var t := TrimStart(s);
    var k := |s| - |t|;
    if t == [] {
      assert s[..k] == s;
    } else {
      // the first character kept by TrimStart is not whitespace, and it survives TrimEnd
      assert s[k] == t[0];
      assert !IsWhitespace(s[k]);
      assert Trim(s) != [] by {
        assert !AllWhitespace(t) by { assert !IsWhitespace(t[0]); }
        assert t[0..] == t;
      }
    }
  }

  /** `sub` occurs in `s` starting at index `k`. */
  predicate InfixAt(s: string, sub: string, k: nat) {
    k + |sub| <= |s| && s[k..k + |sub|] == sub
  }

  ghost predicate Contains(s: string, sub: string) {
    exists k: nat :: InfixAt(s, sub, k)
  }

  /** A string occurs in any concatenation that has it in the middle. */
  lemma InfixInMiddle(a: string, b: string, c: string)
    ensures InfixAt(a + b + c, b, |a|)
  {
    assert (a + b + c)[|a|..|a| + |b|] == b;
  }

  /** An occurrence stays an occurrence when text is added on either side. */
  lemma InfixExtend(pre: string, s: string, post: string, sub: string, k: nat)
    requires InfixAt(s, sub, k)
    ensures InfixAt(pre + s + post, sub, |pre| + k)
  {
    assert (pre + s + post)[|pre| + k..|pre| + k + |sub|] == s[k..k + |sub|];
  }

  /** Regrouping a concatenation of strings: the step Dafny does not take unaided. */
  lemma Assoc(a: string, b: string, c: string)
    ensures a + b + c == a + (b + c)
  {
  }

  /** `Assoc` for the three pieces of one appended line. */
  lemma Regroup3(a: string, b: string, c: string, d: string)
    ensures a + b + c + d == a + (b + c + d)
    ensures a + b + (c + d) == a + (b + c + d)
  {
    Assoc(a + b, c, d);
    Assoc(a, b, c + d);
  }

  /** `Assoc` for the four pieces of one appended line. */
  lemma Regroup4(a: string, b: string, c: string, d: string, e: string)
    ensures a + b + c + d + e == a + (b + c + d + e)
  {
    Regroup3(a + b, c, d, e);
    Assoc(a, b, c + d + e);
  }

  /** A piece of a line is found where the line sits in a larger text. */
  lemma InfixWithin(a: string, pre: string, x: string, post: string, c: string)
    ensures InfixAt(a + (pre + x + post) + c, x, |a| + |pre|)
  {
    InfixInMiddle(pre, x, post);
    InfixExtend(a, pre + x + post, c, x, |pre|);
  }

  /** A line's ending is found where the line sits in a larger text. */
  lemma InfixAfter(a: string, pre: string, x: string, c: string)
    ensures InfixAt(a + (pre + x) + c, x, |a| + |pre|)
  {
    InfixWithin(a, pre, x, "", c);
    assert pre + x + "" == pre + x;
  }

  /** The strings of `parts`, one after another. */
  function Concat(parts: seq<string>): string {
    if parts == [] then "" else Concat(parts[..|parts| - 1]) + parts[|parts| - 1]
  }

  /** Each part of a concatenation occurs in it, right after the parts before it. */
  lemma {:induction false} ConcatPart(parts: seq<string>, i: nat)
    requires i < |parts|
    ensures InfixAt(Concat(parts), parts[i], |Concat(parts[..i])|)
    decreases |parts|
  {
    var n := |parts|;
    var init := parts[..n - 1];
    if i == n - 1 {
      assert init == parts[..i];
      InfixInMiddle(Concat(init), parts[i], "");
      assert Concat(init) + parts[i] + "" == Concat(parts);
    } else {
      ConcatPart(init, i);
      assert init[..i] == parts[..i];
      InfixExtend("", Concat(init), parts[n - 1], parts[i], |Concat(parts[..i])|);
      assert "" + Concat(init) + parts[n - 1] == Concat(parts);
    }
  }

  /** `s.includes(sub)` */
  function Includes(s: string, sub: string): bool
    decreases |s|
  {
    if |sub| > |s| then false else s[..|sub|] == sub || Includes(s[1..], sub)
  }

  lemma {:induction false} IncludesAt(s: string, sub: string, k: nat)
    requires InfixAt(s, sub, k)
    ensures Includes(s, sub)
    decreases k
  {
    if k > 0 {
      assert s[1..][k - 1..k - 1 + |sub|] == s[k..k + |sub|];
      IncludesAt(s[1..], sub, k - 1);
    }
  }

  lemma {:induction false} IncludesFindsInfix(s: string, sub: string)
    requires Includes(s, sub)
    ensures Contains(s, sub)
    decreases |s|
  {
    if s[..|sub|] == sub {
      assert InfixAt(s, sub, 0);
    } else {
      IncludesFindsInfix(s[1..], sub);
      var k: nat :| InfixAt(s[1..], sub, k);
      assert s[k + 1..k + 1 + |sub|] == s[1..][k..k + |sub|];
      assert InfixAt(s, sub, k + 1);
    }
  }

  /** `s.startsWith(prefix)` */
  predicate StartsWith(s: string, prefix: string) {
    |prefix| <= |s| && s[..|prefix|] == prefix
  }

  /** `s.substring(0, n)`: at most `n` characters, taken from the front. */
  function Prefix(s: string, n: nat): (r: string)
    ensures |r| == if |s| < n then |s| else n
    ensures StartsWith(s, r)
  {
    if |s| < n then s else s[..n]
  }

  /** `items.join(sep)` */
  function Join(items: seq<string>, sep: string): string {
    if |items| == 0 then ""
    else if |items| == 1 then items[0]
    else items[0] + sep + Join(items[1..], sep)
  }

  /** The decimal text a template literal produces for a non-negative integer. */
  function NatToString(n: nat): string {
    if n < 10 then ["0123456789"[n]]
    else NatToString(n / 10) + ["0123456789"[n % 10]]
  }

  /** The text a template literal produces for a string value or for `undefined`. */
  function JsText(v: Option<string>): string {
    match v
    case Some(s) => s
    case None => "undefined"
  }
}
