/**
 * The PHP string primitives the validator relies on: `str_replace` with a
 * single search string, `ucfirst`, integer-to-string conversion, `implode`,
 * and the fixed ASCII character classes of its regular expressions.
 * Strings are sequences of single-byte characters.
 */
module Strings {

  /** `p` occurs at the very start of `s`. */
  predicate StartsWith(s: string, p: string) {
    |p| <= |s| && s[..|p|] == p
  }

  /**
   * `str_replace(p, v, s)`: scans `s` from left to right and replaces every
   * non-overlapping occurrence of `p` by `v`; an empty search string leaves
   * `s` as it is. Every character of the result comes from `s` or from `v`.
   */
  function Replace(s: string, p: string, v: string): (r: string)
    ensures forall c :: c in r ==> c in s || c in v
    decreases |s|
  {
    if p == [] || s == [] then s
    else if StartsWith(s, p) then v + Replace(s[|p|..], p, v)
    else [s[0]] + Replace(s[1..], p, v)
  }

  /** A prefix that holds no first character of `p` is copied unchanged. */
  lemma {:induction false} ReplaceSkip(s: string, rest: string, p: string, v: string)
    requires p != [] && p[0] !in s
    ensures Replace(s + rest, p, v) == s + Replace(rest, p, v)
  {
    if s != [] {
      assert (s + rest)[0] == s[0];
      assert !StartsWith(s + rest, p);
      assert (s + rest)[1..] == s[1..] + rest;
      calc {
        Replace(s + rest, p, v);
        [s[0]] + Replace(s[1..] + rest, p, v);
        { ReplaceSkip(s[1..], rest, p, v); }
        [s[0]] + (s[1..] + Replace(rest, p, v));
        { assert s == [s[0]] + s[1..]; }
        s + Replace(rest, p, v);
      }
    } else {
      assert s + rest == rest;
    }
  }

  /** A string without the first character of `p` is left unchanged. */
  lemma ReplaceAbsent(s: string, p: string, v: string)
    requires p != [] && p[0] !in s
    ensures Replace(s, p, v) == s
  {
    ReplaceSkip(s, [], p, v);
    assert s + [] == s;
  }

  /** An occurrence of `p` at the start is replaced and the scan resumes after it. */
  lemma ReplaceAt(p: string, rest: string, v: string)
    requires p != []
    ensures Replace(p + rest, p, v) == v + Replace(rest, p, v)
  {
    assert (p + rest)[..|p|] == p;
    assert (p + rest)[|p|..] == rest;
  }

  /**
   * A string `a` whose first two positions cannot start an occurrence of `p`
   * (it differs from `p` at index `d`, and its third character is not `p`'s
   * second) and whose remainder lacks `p`'s first character is copied unchanged.
   */
  lemma SkipOpening(a: string, rest: string, p: string, v: string, d: nat)
    requires |a| > 2 && |p| > 1 && d < |a| && d < |p| && a[d] != p[d]
    requires a[2] != p[1] && p[0] !in a[2..]
    ensures Replace(a + rest, p, v) == a + Replace(rest, p, v)
  {
    assert (a + rest)[d] == a[d];
    assert !StartsWith(a + rest, p);
    assert (a + rest)[1..] == a[1..] + rest;
    assert (a[1..] + rest)[1] == a[2];
    assert !StartsWith(a[1..] + rest, p);
    assert (a[1..] + rest)[1..] == a[2..] + rest;
    ReplaceSkip(a[2..], rest, p, v);
    calc {
      Replace(a + rest, p, v);
      [a[0]] + Replace(a[1..] + rest, p, v);
      [a[0]] + ([a[1]] + Replace(a[2..] + rest, p, v));
      [a[0]] + ([a[1]] + (a[2..] + Replace(rest, p, v)));
      { assert a == [a[0]] + ([a[1]] + a[2..]); }
      a + Replace(rest, p, v);
    }
  }

  /** ASCII upper-casing of one character, as `ucfirst` does it. */
  function Upper(c: char): char {
    if 'a' <= c <= 'z' then (c as int - 32) as char else c
  }

  /**
   * `ucfirst`: the first character upper-cased, the rest unchanged; only a
   * lower-case ASCII first letter changes, to its capital.
   */
  function UcFirst(s: string): (r: string)
    ensures |r| == |s|
    ensures s != [] ==> r[1..] == s[1..]
    ensures s != [] ==> ('a' <= s[0] <= 'z' ==> r[0] as int == s[0] as int - 32)
    ensures s != [] ==> (!('a' <= s[0] <= 'z') ==> r[0] == s[0])
  {
    if s == [] then [] else [Upper(s[0])] + s[1..]
  }

  lemma UcFirstKeeps(s: string, c: char)
    requires c !in s && !('A' <= c <= 'Z')
    ensures c !in UcFirst(s)
  {
  }

  /** The character of the decimal digit `d`. */
  function DigitChar(d: nat): char
    requires d < 10
  {
    ('0' as int + d) as char
  }

  /** The value of a decimal digit character; other characters count as 0. */
  function DigitValue(c: char): nat {
    if '0' <= c <= '9' then c as int - '0' as int else 0
  }

  /** The number a string of decimal digits spells, read from left to right. */
  function DecimalValue(s: string): nat {
    if s == [] then 0 else DecimalValue(s[..|s| - 1]) * 10 + DigitValue(s[|s| - 1])
  }

  /** Decimal digits of a natural number, as PHP converts an int to a string. */
  function NatToString(n: nat): (r: string)
    ensures r != [] && forall c :: c in r ==> '0' <= c <= '9'
    ensures r == "0" <==> n == 0
  {
    if n < 10 then [DigitChar(n)] else NatToString(n / 10) + [DigitChar(n % 10)]
  }

  /** PHP's conversion of an int to a string: a minus sign, then the digits. */
  function IntToString(n: int): (r: string)
    ensures forall c :: c in r ==> c == '-' || '0' <= c <= '9'
    ensures r != "" && (r == "0" <==> n == 0)
  {
    if n < 0 then "-" + NatToString(-n) else NatToString(n)
  }

  /** The digits of a natural number spell it, and only "0" itself starts with '0'. */
  lemma {:induction false} NatToStringSpells(n: nat)
    ensures DecimalValue(NatToString(n)) == n
    ensures NatToString(n)[0] == '0' ==> NatToString(n) == "0"
  {
    if n >= 10 {
      var init := NatToString(n / 10);
      NatToStringSpells(n / 10);
      assert (init + [DigitChar(n % 10)])[..|init|] == init;
    }
  }

  /**
   * The text of an int is its decimal text, with no leading '0' except in
   * "0", preceded by a minus sign when it is negative.
   */
  lemma IntToStringSpells(n: int)
    ensures n >= 0 ==> forall c :: c in IntToString(n) ==> '0' <= c <= '9'
    ensures n >= 0 ==> DecimalValue(IntToString(n)) == n
    ensures n >= 0 ==> (IntToString(n)[0] == '0' ==> IntToString(n) == "0")
    ensures n < 0 ==> |IntToString(n)| > 1 && IntToString(n)[0] == '-' && IntToString(n)[1] != '0'
    ensures n < 0 ==> forall c :: c in IntToString(n)[1..] ==> '0' <= c <= '9'
    ensures n < 0 ==> DecimalValue(IntToString(n)[1..]) == -n
  {
    if n < 0 {
      var digits := NatToString(-n);
      NatToStringSpells(-n);
      assert IntToString(n) == "-" + digits;
      assert IntToString(n)[1..] == digits;
    } else {
      NatToStringSpells(n);
    }
  }

  /** `implode(sep, xs)`: the strings of `xs` with `sep` between neighbours. */
  function Join(xs: seq<string>, sep: string): string {
    if xs == [] then ""
    else if |xs| == 1 then xs[0]
    else xs[0] + sep + Join(xs[1..], sep)
  }

  /** Joining one more string adds the separator and that string at the end. */
  lemma {:induction false} JoinSnoc(xs: seq<string>, x: string, sep: string)
    requires xs != []
    ensures Join(xs + [x], sep) == Join(xs, sep) + sep + x
  {
    if |xs| == 1 {
      assert (xs + [x])[1..] == [x];
    } else {
      assert (xs + [x])[1..] == xs[1..] + [x];
      JoinSnoc(xs[1..], x, sep);
    }
  }

  /** Each string wrapped in single quotes. */
  function Quote(xs: seq<string>): (r: seq<string>)
    ensures |r| == |xs| && forall i :: 0 <= i < |xs| ==> r[i] == "'" + xs[i] + "'"
  {
    if xs == [] then [] else ["'" + xs[0] + "'"] + Quote(xs[1..])
  }

  /** Joining with `', '` inside outer quotes is quoting each string and joining with `, `. */
  lemma {:induction false} JoinQuoted(xs: seq<string>)
    requires xs != []
    ensures "'" + Join(xs, "', '") + "'" == Join(Quote(xs), ", ")
  {
    if |xs| > 1 {
      JoinQuoted(xs[1..]);
      assert Quote(xs)[1..] == Quote(xs[1..]);
      assert "', '" == "'" + ", " + "'";
    }
  }

  /** The characters PCRE's `\s` matches outside Unicode mode. */
  predicate IsSpace(c: char) {
    c == ' ' || c == '\t' || c == '\n' || c == '\r' || c == 11 as char || c == 12 as char
  }

  /** `[a-zA-Z]` */
  predicate IsLetter(c: char) {
    'a' <= c <= 'z' || 'A' <= c <= 'Z'
  }

  /** `[a-zA-Z0-9]` */
  predicate IsLetterOrDigit(c: char) {
    IsLetter(c) || '0' <= c <= '9'
  }

  /** `[A-Za-z0-9-\/_]`: letters, digits, hyphen, slash and underscore. */
  predicate IsUriChar(c: char) {
    IsLetterOrDigit(c) || c == '-' || c == '/' || c == '_'
  }

  predicate AllIn(s: string, cls: char -> bool) {
    forall i :: 0 <= i < |s| ==> cls(s[i])
  }

  /** The length of the longest prefix of `s` made of class characters. */
  function ClassRun(s: string, cls: char -> bool): (n: nat)
    ensures n <= |s| && AllIn(s[..n], cls) && (n < |s| ==> !cls(s[n]))
  {
    if s == [] || !cls(s[0]) then 0 else 1 + ClassRun(s[1..], cls)
  }

  /**
   * PCRE's `^[cls]+$` without the D modifier: one or more characters of the
   * class, optionally followed by one final newline, which `$` also accepts.
   */
  predicate FullMatch(s: string, cls: char -> bool) {
    (|s| > 0 && AllIn(s, cls))
    || (|s| > 1 && s[|s| - 1] == '\n' && AllIn(s[..|s| - 1], cls))
  }

  /** A prefix of class characters is covered by the longest run. */
  lemma {:induction false} RunCovers(s: string, cls: char -> bool, m: nat)
    requires m <= |s| && AllIn(s[..m], cls)
    ensures ClassRun(s, cls) >= m
  {
    if m > 0 {
      assert cls(s[..m][0]);
      assert s[1..][..m - 1] == s[..m][1..];
      RunCovers(s[1..], cls, m - 1);
    }
  }

  /**
   * The match as a greedy engine runs it: after the longest run of class
   * characters, which must not be empty, either the string ends or only a
   * final newline is left.
   */
  lemma FullMatchGreedy(s: string, cls: char -> bool)
    ensures var n := ClassRun(s, cls);
      FullMatch(s, cls) <==> n > 0 && (n == |s| || (n == |s| - 1 && s[n] == '\n'))
  {
    var n := ClassRun(s, cls);
    if |s| > 0 && AllIn(s, cls) {
      assert s[..|s|] == s;
      RunCovers(s, cls, |s|);
    }
    if |s| > 1 && s[|s| - 1] == '\n' && AllIn(s[..|s| - 1], cls) {
      RunCovers(s, cls, |s| - 1);
    }
    if n == |s| {
      assert s[..n] == s;
    } else if n == |s| - 1 {
      assert s[..|s| - 1] == s[..n];
    }
  }
}
