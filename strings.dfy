/**
 * The JavaScript string operations the notification text is built from:
 * number interpolation in template literals, `Array.prototype.join`, and
 * `String.prototype.replace` with a string pattern.
 */
module JsStrings {
  import opened Wrappers

  // ---------------------------------------------------------------------------
  // `${n}` for a non-negative integer: its decimal digits, no leading zero
  // ---------------------------------------------------------------------------

  predicate IsDigit(c: char) {
    '0' <= c <= '9'
  }

  function DigitChar(d: nat): (c: char)
    requires d < 10
    ensures IsDigit(c) && c as int - '0' as int == d
  {
    (d + '0' as int) as char
  }

  function NatToString(n: nat): (s: string)
    ensures |s| >= 1
    ensures forall i :: 0 <= i < |s| ==> IsDigit(s[i])
    ensures s[0] == '0' ==> n == 0
    ensures n < 10 <==> |s| == 1
    decreases n
  {
    if n < 10 then [DigitChar(n)] else NatToString(n / 10) + [DigitChar(n % 10)]
  }

  /** Reads a string of decimal digits back as a number (the inverse of `NatToString`). */
  function ParseDigits(s: string): nat
    requires forall i :: 0 <= i < |s| ==> IsDigit(s[i])
  {
    if s == [] then 0
    else ParseDigits(s[..|s| - 1]) * 10 + DigitValue(s[|s| - 1])
  }

  function DigitValue(c: char): nat
    requires IsDigit(c)
  {
    c as int - '0' as int
  }

  lemma {:induction false} ParseNatToString(n: nat)
    ensures ParseDigits(NatToString(n)) == n
    decreases n
  {
    if n >= 10 {
      var s := NatToString(n);
      assert s[..|s| - 1] == NatToString(n / 10);
      ParseNatToString(n / 10);
    }
  }

  /** Different counts are rendered differently. */
  lemma NatToStringInjective(m: nat, n: nat)
    requires NatToString(m) == NatToString(n)
    ensures m == n
  {
    ParseNatToString(m);
    ParseNatToString(n);
  }

  // ---------------------------------------------------------------------------
  // `parts.join(sep)` and its inverse for separator-free parts
  // ---------------------------------------------------------------------------

  function Join(parts: seq<string>, sep: string): string {
    if |parts| == 0 then ""
    else if |parts| == 1 then parts[0]
    else Join(parts[..|parts| - 1], sep) + sep + parts[|parts| - 1]
  }

  /** Cuts a string at every occurrence of `c`; there is one more piece than there are `c`s. */
  function Split(s: string, c: char): (pieces: seq<string>)
    ensures |pieces| >= 1
  {
    if s == [] then [""]
    else
      var init := Split(s[..|s| - 1], c);
      if s[|s| - 1] == c then init + [""]
      else init[..|init| - 1] + [init[|init| - 1] + [s[|s| - 1]]]
  }

  lemma {:induction false} SplitNoSeparator(s: string, c: char)
    requires c !in s
    ensures Split(s, c) == [s]
  {
    if s != [] {
      SplitNoSeparator(s[..|s| - 1], c);
      assert s[..|s| - 1] + [s[|s| - 1]] == s;
    }
  }

  /** Cutting at one separator and then cutting the two sides. */
  lemma {:induction false} SplitAround(a: string, c: char, b: string)
    ensures Split(a + [c] + b, c) == Split(a, c) + Split(b, c)
    decreases |b|
  {
    var s := a + [c] + b;
    if b == [] {
      assert s[..|s| - 1] == a;
    } else {
      var b', x := b[..|b| - 1], b[|b| - 1];
      assert s[..|s| - 1] == a + [c] + b';
      assert s[|s| - 1] == x;
      SplitAround(a, c, b');
      var p, q := Split(a, c), Split(b', c);
      var init := p + q;
      if x == c {
        assert Split(s, c) == init + [""];
        assert Split(b, c) == q + [""];
      } else {
        assert init[..|init| - 1] == p + q[..|q| - 1];
        assert init[|init| - 1] == q[|q| - 1];
        assert Split(s, c) == p + q[..|q| - 1] + [q[|q| - 1] + [x]];
        assert Split(b, c) == q[..|q| - 1] + [q[|q| - 1] + [x]];
      }
    }
  }

  /** The pieces of every part, one part after the other. */
  function SplitAll(parts: seq<string>, c: char): seq<string> {
    if parts == [] then [] else SplitAll(parts[..|parts| - 1], c) + Split(parts[|parts| - 1], c)
  }

  lemma {:induction false} SplitAllAppend(xs: seq<string>, ys: seq<string>, c: char)
    ensures SplitAll(xs + ys, c) == SplitAll(xs, c) + SplitAll(ys, c)
    decreases |ys|
  {
    if ys != [] {
      var zs := xs + ys;
      assert zs[..|zs| - 1] == xs + ys[..|ys| - 1];
      assert zs[|zs| - 1] == ys[|ys| - 1];
      SplitAllAppend(xs, ys[..|ys| - 1], c);
      assert SplitAll(ys, c) == SplitAll(ys[..|ys| - 1], c) + Split(ys[|ys| - 1], c);
    } else {
      assert xs + ys == xs;
    }
  }

  /** Parts free of the separator are their own pieces. */
  lemma {:induction false} SplitAllNoSeparator(parts: seq<string>, c: char)
    requires forall i :: 0 <= i < |parts| ==> c !in parts[i]
    ensures SplitAll(parts, c) == parts
  {
    if parts != [] {
      SplitAllNoSeparator(parts[..|parts| - 1], c);
      SplitNoSeparator(parts[|parts| - 1], c);
      assert parts[..|parts| - 1] + [parts[|parts| - 1]] == parts;
    }
  }

  /** Splitting a joined text gives the pieces of the parts, part by part. */
  lemma {:induction false} SplitJoinAll(parts: seq<string>, c: char)
    requires |parts| >= 1
    ensures Split(Join(parts, [c]), c) == SplitAll(parts, c)
  {
    if |parts| == 1 {
      assert parts[..0] == [];
    } else {
      var init := parts[..|parts| - 1];
      SplitJoinAll(init, c);
      SplitAround(Join(init, [c]), c, parts[|parts| - 1]);
    }
  }

  /** Joining parts that do not contain the separator loses nothing: splitting gives them back. */
  lemma SplitJoin(parts: seq<string>, c: char)
    requires |parts| >= 1
    requires forall i :: 0 <= i < |parts| ==> c !in parts[i]
    ensures Split(Join(parts, [c]), c) == parts
  {
    SplitJoinAll(parts, c);
    SplitAllNoSeparator(parts, c);
  }

  /** A part that ends in the separator yields its text and an empty piece. */
  lemma SplitTerminated(x: string, c: char)
    requires c !in x
    ensures Split(x + [c], c) == [x, ""]
  {
    SplitAround(x, c, "");
    assert x + [c] + "" == x + [c];
    SplitNoSeparator(x, c);
  }

  /** Joining a concatenation is joining the halves around one separator. */
  lemma {:induction false} JoinAppend(xs: seq<string>, ys: seq<string>, sep: string)
    requires |xs| >= 1 && |ys| >= 1
    ensures Join(xs + ys, sep) == Join(xs, sep) + sep + Join(ys, sep)
    decreases |ys|
  {
    var zs := xs + ys;
    if |ys| == 1 {
      assert zs[..|zs| - 1] == xs;
    } else {
      var ys' := ys[..|ys| - 1];
      assert zs[..|zs| - 1] == xs + ys';
      JoinAppend(xs, ys', sep);
    }
  }

  // ---------------------------------------------------------------------------
  // `s.indexOf(pattern)` and `s.replace(pattern, replacement)` with a string pattern
  // ---------------------------------------------------------------------------

  predicate OccursAt(s: string, pattern: string, i: nat) {
    i + |pattern| <= |s| && s[i..i + |pattern|] == pattern
  }

  /** The first index at or after `from` where `pattern` occurs, if any. */
  function IndexOfFrom(s: string, pattern: string, from: nat): (r: Option<nat>)
    ensures r.Some? ==> from <= r.value && OccursAt(s, pattern, r.value)
    ensures r.Some? ==> forall j: nat :: from <= j < r.value ==> !OccursAt(s, pattern, j)
    ensures r.None? ==> forall j: nat :: from <= j ==> !OccursAt(s, pattern, j)
    decreases |s| - from
  {
    if from + |pattern| > |s| then None
    else if s[from..from + |pattern|] == pattern then Some(from)
    else IndexOfFrom(s, pattern, from + 1)
  }

  function IndexOf(s: string, pattern: string): Option<nat> {
    IndexOfFrom(s, pattern, 0)
  }

  /**
   * The replacement text `replace` inserts for one match: in the replacement
   * string `$$` stands for `$`, `$&` for the matched text, `` $` `` for the text
   * before the match and `$'` for the text after it. A string pattern has no
   * capture groups, so every other `$` is copied as it is.
   */
  function Substitution(replacement: string, matched: string, before: string, after: string): string {
    if |replacement| >= 2 && replacement[0] == '$' && replacement[1] == '$' then
      "$" + Substitution(replacement[2..], matched, before, after)
    else if |replacement| >= 2 && replacement[0] == '$' && replacement[1] == '&' then
      matched + Substitution(replacement[2..], matched, before, after)
    else if |replacement| >= 2 && replacement[0] == '$' && replacement[1] == '`' then
      before + Substitution(replacement[2..], matched, before, after)
    else if |replacement| >= 2 && replacement[0] == '$' && replacement[1] == '\'' then
      after + Substitution(replacement[2..], matched, before, after)
    else if replacement == [] then ""
    else [replacement[0]] + Substitution(replacement[1..], matched, before, after)
  }

  /** The substitution uses only characters of its four inputs. */
  lemma {:induction false} SubstitutionAvoids(c: char, replacement: string, matched: string, before: string, after: string)
    requires c !in replacement && c !in matched && c !in before && c !in after
    ensures c !in Substitution(replacement, matched, before, after)
  {
    if |replacement| >= 2 && replacement[0] == '$' && replacement[1] in "$&`'" {
      SubstitutionAvoids(c, replacement[2..], matched, before, after);
    } else if replacement != [] {
      SubstitutionAvoids(c, replacement[1..], matched, before, after);
    }
  }

  /** A replacement without `$` is inserted literally. */
  lemma {:induction false} SubstitutionLiteral(replacement: string, matched: string, before: string, after: string)
    requires '$' !in replacement
    ensures Substitution(replacement, matched, before, after) == replacement
  {
    if replacement != [] {
      assert replacement[0] != '$';
      SubstitutionLiteral(replacement[1..], matched, before, after);
      assert [replacement[0]] + replacement[1..] == replacement;
    }
  }

  /** `s.replace(pattern, replacement)`: only the first occurrence of `pattern` is replaced. */
  function ReplaceFirst(s: string, pattern: string, replacement: string): string {
    match IndexOf(s, pattern)
    case None => s
    case Some(i) =>
      s[..i] + Substitution(replacement, pattern, s[..i], s[i + |pattern|..]) + s[i + |pattern|..]
  }

  /** A string without the pattern comes back unchanged. */
  lemma ReplaceFirstNoMatch(s: string, pattern: string, replacement: string)
    requires forall j: nat :: !OccursAt(s, pattern, j)
    ensures ReplaceFirst(s, pattern, replacement) == s
  {
  }

  /**
   * At the first occurrence `i` of the pattern, the result is the text before
   * `i`, the expanded replacement, and everything after the match untouched
   * (so later occurrences of the pattern survive).
   */
  lemma ReplaceFirstAt(s: string, pattern: string, replacement: string, i: nat)
    requires OccursAt(s, pattern, i)
    requires forall j: nat :: j < i ==> !OccursAt(s, pattern, j)
    ensures ReplaceFirst(s, pattern, replacement)
         == s[..i] + Substitution(replacement, pattern, s[..i], s[i + |pattern|..]) + s[i + |pattern|..]
  {
    var r := IndexOf(s, pattern);
    assert r.Some?;
    assert OccursAt(s, pattern, r.value);
  }

  /** With a `$`-free replacement the first occurrence is simply swapped for it. */
  lemma ReplaceFirstLiteral(s: string, pattern: string, replacement: string, i: nat)
    requires OccursAt(s, pattern, i)
    requires forall j: nat :: j < i ==> !OccursAt(s, pattern, j)
    requires '$' !in replacement
    ensures ReplaceFirst(s, pattern, replacement) == s[..i] + replacement + s[i + |pattern|..]
  {
    ReplaceFirstAt(s, pattern, replacement, i);
    SubstitutionLiteral(replacement, pattern, s[..i], s[i + |pattern|..]);
  }

  /** Replacing cannot bring in a character that neither the string nor the replacement has. */
  lemma ReplaceFirstAvoids(c: char, s: string, pattern: string, replacement: string)
    requires c !in s && c !in replacement
    ensures c !in ReplaceFirst(s, pattern, replacement)
  {
    match IndexOf(s, pattern)
    case None =>
    case Some(i) =>
      var after := s[i + |pattern|..];
      assert s[..i + |pattern|] + after == s;
      assert s[..i] + s[i..i + |pattern|] == s[..i + |pattern|];
      assert s[i..i + |pattern|] == pattern;
      SubstitutionAvoids(c, replacement, pattern, s[..i], after);
  }
}
