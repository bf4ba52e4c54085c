/**
 The string primitives the executor relies on: white-space trimming, case mapping,
 prefix tests, joining with a separator, and decimal formatting of placeholder numbers.
 Each comes with an independent description it is proved against.
 */
module Strings {

  /** White space as Go's `unicode.IsSpace` sees it: the Unicode White_Space characters. */
  predicate IsSpace(c: char) {
    || ('\t' <= c <= '\r')
    || c == ' '
    || c == '\U{0085}'
    || c == '\U{00A0}'
    || c == '\U{1680}'
    || ('\U{2000}' <= c <= '\U{200A}')
    || c == '\U{2028}'
    || c == '\U{2029}'
    || c == '\U{202F}'
    || c == '\U{205F}'
    || c == '\U{3000}'
  }

  predicate AllSpace(s: string) {
    forall i :: 0 <= i < |s| ==> IsSpace(s[i])
  }

  /** True when `s` neither starts nor ends with white space. */
  predicate Trimmed(s: string) {
    s == [] || (!IsSpace(s[0]) && !IsSpace(s[|s| - 1]))
  }

  /** Drops leading white space: the result is a suffix of `s` and the cut part is all space. */
  function TrimLeft(s: string): (r: string)
    ensures |r| <= |s| && r == s[|s| - |r|..]
    ensures AllSpace(s[..|s| - |r|])
    ensures r == [] || !IsSpace(r[0])
    decreases |s|
  {
    if |s| > 0 && IsSpace(s[0]) then
      var r := TrimLeft(s[1..]);
      assert s[|s| - |r|..] == s[1..][|s| - 1 - |r|..];
      assert s[..|s| - |r|] == [s[0]] + s[1..][..|s| - 1 - |r|];
      r
    else s
  }

  /** Drops trailing white space: the result is a prefix of `s` and the cut part is all space. */
  function TrimRight(s: string): (r: string)
    ensures |r| <= |s| && r == s[..|r|]
    ensures AllSpace(s[|r|..])
    ensures r == [] || !IsSpace(r[|r| - 1])
    decreases |s|
  {
    if |s| > 0 && IsSpace(s[|s| - 1]) then
      var r := TrimRight(s[..|s| - 1]);
      assert s[|r|..] == s[..|s| - 1][|r|..] + [s[|s| - 1]];
      r
    else s
  }

  /** Go's `strings.TrimSpace`. */
  function TrimSpace(s: string): (r: string)
    ensures |r| <= |s|
    ensures Trimmed(r)
    ensures r == [] ==> AllSpace(s)
  {
    var l := TrimLeft(s);
    assert l == [] ==> s[..|s|] == s;
    TrimRight(l)
  }

  lemma {:induction false} TrimLeftPadded(a: string, t: string)
    requires AllSpace(a)
    requires t == [] || !IsSpace(t[0])
    ensures TrimLeft(a + t) == t
    decreases |a|
  {
    if a != [] {
      assert (a + t)[1..] == a[1..] + t;
      TrimLeftPadded(a[1..], t);
    } else {
      assert a + t == t;
    }
  }

  lemma {:induction false} TrimRightPadded(t: string, b: string)
    requires AllSpace(b)
    requires t == [] || !IsSpace(t[|t| - 1])
    ensures TrimRight(t + b) == t
    decreases |b|
  {
    if b != [] {
      assert (t + b)[..|t + b| - 1] == t + b[..|b| - 1];
      TrimRightPadded(t, b[..|b| - 1]);
    } else {
      assert t + b == t;
    }
  }

  /**
   Characterisation of trimming: white space on either side of a core that itself
   neither starts nor ends with white space is exactly what `TrimSpace` removes.
   */
  lemma TrimSpacePadded(a: string, m: string, b: string)
    requires AllSpace(a) && AllSpace(b) && Trimmed(m)
    ensures TrimSpace(a + m + b) == m
  {
    if m == [] {
      assert a + m + b == a + b + [];
      assert AllSpace(a + b);
      TrimLeftPadded(a + b, []);
    } else {
      assert a + m + b == a + (m + b);
      TrimLeftPadded(a, m + b);
      TrimRightPadded(m, b);
    }
  }

  /** Trimming twice is trimming once. */
  lemma TrimSpaceIdempotent(s: string)
    ensures TrimSpace(TrimSpace(s)) == TrimSpace(s)
  {
    var r := TrimSpace(s);
    assert [] + r + [] == r;
    TrimSpacePadded([], r, []);
  }

  /** The first character of a white-space suffix is white space. */
  lemma SpaceSuffixHead(s: string, j: int)
    ensures 0 <= j < |s| && AllSpace(s[j..]) ==> IsSpace(s[j])
  {
    if 0 <= j < |s| && AllSpace(s[j..]) {
      assert s[j..][0] == s[j];
    }
  }

  /** Left trimming leaves a text that starts with a non-space alone. */
  lemma TrimLeftKeeps(s: string)
    requires 0 < |s| && !IsSpace(s[0])
    ensures TrimLeft(s) == s
  {
  }

  /** Right trimming keeps a leading word without white space. */
  lemma TrimRightKeepsLeadingWord(s: string, n: nat)
    requires 0 < n <= |s|
    requires forall i :: 0 <= i < n ==> !IsSpace(s[i])
    ensures n <= |TrimRight(s)| && TrimRight(s)[..n] == s[..n]
  {
    var r := TrimRight(s);
    SpaceSuffixHead(s, |r|);
    assert |r| >= n;
    assert r[..n] == s[..|r|][..n];
  }

  /** A leading word without white space survives trimming unchanged. */
  lemma TrimKeepsLeadingWord(s: string, n: nat)
    requires 0 < n <= |s|
    requires forall i :: 0 <= i < n ==> !IsSpace(s[i])
    ensures n <= |TrimSpace(s)| && TrimSpace(s)[..n] == s[..n]
  {
    TrimLeftKeeps(s);
    assert TrimSpace(s) == TrimRight(s);
    TrimRightKeepsLeadingWord(s, n);
  }

  /**
   Go's `unicode.ToLower`, restricted to the characters whose lower case is an ASCII
   letter: `A`..`Z`, LATIN CAPITAL LETTER I WITH DOT ABOVE (to `i`) and KELVIN SIGN
   (to `k`). Every other character is kept.
   */
  function LowerChar(c: char): char {
    if 'A' <= c <= 'Z' then (c as int + 32) as char
    else if c == '\U{0130}' then 'i'
    else if c == '\U{212A}' then 'k'
    else c
  }

  /**
   Go's `unicode.ToUpper`, restricted to the characters whose upper case is an ASCII
   letter: `a`..`z`, LATIN SMALL LETTER DOTLESS I (to `I`) and LATIN SMALL LETTER
   LONG S (to `S`). Every other character is kept.
   */
  function UpperChar(c: char): char {
    if 'a' <= c <= 'z' then (c as int - 32) as char
    else if c == '\U{0131}' then 'I'
    else if c == '\U{017F}' then 'S'
    else c
  }

  /** Go's `strings.ToLower`, character by character. */
  function ToLower(s: string): (r: string)
    ensures |r| == |s|
    ensures forall i :: 0 <= i < |s| ==> r[i] == LowerChar(s[i])
  {
    seq(|s|, i requires 0 <= i < |s| => LowerChar(s[i]))
  }

  /** Go's `strings.ToUpper`, character by character. */
  function ToUpper(s: string): (r: string)
    ensures |r| == |s|
    ensures forall i :: 0 <= i < |s| ==> r[i] == UpperChar(s[i])
  {
    seq(|s|, i requires 0 <= i < |s| => UpperChar(s[i]))
  }

  /** Go's `strings.HasPrefix`. */
  predicate HasPrefix(s: string, prefix: string) {
    |prefix| <= |s| && s[..|prefix|] == prefix
  }

  /** A key that lower-casing leaves alone, such as `"object_name"`. */
  predicate LowerFixed(key: string) {
    forall i :: 0 <= i < |key| ==> LowerChar(key[i]) == key[i]
  }

  /** A keyword that upper-casing leaves alone, such as `"SELECT"`. */
  predicate UpperFixed(keyword: string) {
    forall i :: 0 <= i < |keyword| ==> UpperChar(keyword[i]) == keyword[i]
  }

  /** Character `c` of a name may stand for the lower-case key character `k`. */
  predicate FoldsToLower(c: char, k: char) {
    || c == k
    || ('a' <= k <= 'z' && c as int == k as int - 32)
    || (k == 'i' && c == '\U{0130}')
    || (k == 'k' && c == '\U{212A}')
  }

  /** Character `c` of a text may stand for the upper-case keyword character `k`. */
  predicate FoldsToUpper(c: char, k: char) {
    || c == k
    || ('A' <= k <= 'Z' && c as int == k as int + 32)
    || (k == 'I' && c == '\U{0131}')
    || (k == 'S' && c == '\U{017F}')
  }

  /** `name` spells the lower-case `key` in any mixture of cases. */
  predicate MatchesIgnoringCase(name: string, key: string) {
    |name| == |key| && forall i :: 0 <= i < |key| ==> FoldsToLower(name[i], key[i])
  }

  /** `text` starts with the upper-case `keyword` written in any mixture of cases. */
  predicate StartsWithIgnoringCase(text: string, keyword: string) {
    |keyword| <= |text| && forall i :: 0 <= i < |keyword| ==> FoldsToUpper(text[i], keyword[i])
  }

  /** A keyword made of the upper-case ASCII letters only. */
  predicate UpperLetters(keyword: string) {
    forall i :: 0 <= i < |keyword| ==> 'A' <= keyword[i] <= 'Z'
  }

  /** Trimming keeps a keyword match at the start: no case variant of a letter is white space. */
  lemma StartsSurvivesTrim(text: string, keyword: string)
    requires |keyword| > 0 && UpperLetters(keyword)
    requires StartsWithIgnoringCase(text, keyword)
    ensures StartsWithIgnoringCase(TrimSpace(text), keyword)
  {
    var n := |keyword|;
    forall i | 0 <= i < n
      ensures !IsSpace(text[i])
    {
      assert FoldsToUpper(text[i], keyword[i]);
    }
    TrimKeepsLeadingWord(text, n);
    var t := TrimSpace(text);
    forall i | 0 <= i < n
      ensures t[i] == text[i]
    {
      assert t[..n][i] == text[..n][i];
    }
  }

  /** Comparing a lower-cased name against a key is a case-insensitive match. */
  lemma LowerEqualsIffMatches(name: string, key: string)
    requires LowerFixed(key)
    ensures ToLower(name) == key <==> MatchesIgnoringCase(name, key)
  {
    if |name| == |key| {
      if ToLower(name) == key {
        forall i | 0 <= i < |key|
          ensures FoldsToLower(name[i], key[i])
        {
          assert LowerChar(name[i]) == key[i];
        }
      }
      if MatchesIgnoringCase(name, key) {
        forall i | 0 <= i < |key|
          ensures ToLower(name)[i] == key[i]
        {
          assert FoldsToLower(name[i], key[i]);
          assert LowerChar(key[i]) == key[i];
        }
      }
    }
  }

  /** A prefix test on upper-cased text is a case-insensitive prefix match. */
  lemma UpperPrefixIffStarts(text: string, keyword: string)
    requires UpperFixed(keyword)
    ensures HasPrefix(ToUpper(text), keyword) <==> StartsWithIgnoringCase(text, keyword)
  {
    if |keyword| <= |text| {
      if HasPrefix(ToUpper(text), keyword) {
        forall i | 0 <= i < |keyword|
          ensures FoldsToUpper(text[i], keyword[i])
        {
          assert ToUpper(text)[..|keyword|][i] == keyword[i];
          assert UpperChar(text[i]) == keyword[i];
        }
      }
      if StartsWithIgnoringCase(text, keyword) {
        forall i | 0 <= i < |keyword|
          ensures ToUpper(text)[..|keyword|][i] == keyword[i]
        {
          assert FoldsToUpper(text[i], keyword[i]);
          assert UpperChar(keyword[i]) == keyword[i];
        }
      }
    }
  }

  /** Lower-casing is idempotent, so a lower-cased value is stored in lower case. */
  lemma ToLowerIdempotent(s: string)
    ensures ToLower(ToLower(s)) == ToLower(s)
  {
  }

  /** Go's `strings.Join`. */
  function Join(parts: seq<string>, sep: string): string
    decreases |parts|
  {
    if |parts| == 0 then []
    else if |parts| == 1 then parts[0]
    else parts[0] + sep + Join(parts[1..], sep)
  }

  /**
   Splitting at a one-character separator. The program never splits; this is the
   inverse `Join` is checked against, so the placeholder list can be read back.
   */
  function Split(s: string, sep: char): (r: seq<string>)
    ensures |r| >= 1
    decreases |s|
  {
    if |s| == 0 then [[]]
    else if s[0] == sep then [[]] + Split(s[1..], sep)
    else
      var rest := Split(s[1..], sep);
      [[s[0]] + rest[0]] + rest[1..]
  }

  lemma {:induction false} SplitWithoutSeparator(p: string, sep: char)
    requires sep !in p
    ensures Split(p, sep) == [p]
    decreases |p|
  {
    if p != [] {
      SplitWithoutSeparator(p[1..], sep);
      assert [p[0]] + p[1..] == p;
    }
  }

  lemma {:induction false} SplitAtFirstSeparator(p: string, sep: char, t: string)
    requires sep !in p
    ensures Split(p + [sep] + t, sep) == [p] + Split(t, sep)
    decreases |p|
  {
    var s := p + [sep] + t;
    if p == [] {
      assert s[1..] == t;
    } else {
      assert s[1..] == p[1..] + [sep] + t;
      SplitAtFirstSeparator(p[1..], sep, t);
      assert [p[0]] + p[1..] == p;
    }
  }

  /** Splitting a join of separator-free parts recovers the parts. */
  lemma {:induction false} SplitJoin(parts: seq<string>, sep: char)
    requires |parts| >= 1
    requires forall i :: 0 <= i < |parts| ==> sep !in parts[i]
    ensures Split(Join(parts, [sep]), sep) == parts
    decreases |parts|
  {
    if |parts| == 1 {
      SplitWithoutSeparator(parts[0], sep);
    } else {
      SplitJoin(parts[1..], sep);
      SplitAtFirstSeparator(parts[0], sep, Join(parts[1..], [sep]));
      assert [parts[0]] + parts[1..] == parts;
    }
  }

  predicate IsDigit(c: char) {
    '0' <= c <= '9'
  }

  predicate AllDigits(s: string) {
    forall i :: 0 <= i < |s| ==> IsDigit(s[i])
  }

  function DigitChar(d: nat): (c: char)
    requires d < 10
    ensures IsDigit(c)
  {
    ('0' as int + d) as char
  }

  function DigitValue(c: char): nat
    requires IsDigit(c)
  {
    c as int - '0' as int
  }

  /** Decimal text of `n`, as Go's `%d` writes a non-negative number. */
  function Decimal(n: nat): (r: string)
    ensures |r| >= 1 && AllDigits(r)
    ensures r[0] == '0' ==> n == 0
    decreases n
  {
    if n < 10 then [DigitChar(n)] else Decimal(n / 10) + [DigitChar(n % 10)]
  }

  /** Reads a string of decimal digits back as a number. */
  function ParseDecimal(s: string): nat
    requires AllDigits(s)
    decreases |s|
  {
    if |s| == 0 then 0 else ParseDecimal(s[..|s| - 1]) * 10 + DigitValue(s[|s| - 1])
  }

  /** Reading a formatted number gives the number back. */
  lemma {:induction false} ParseDecimalOfDecimal(n: nat)
    ensures ParseDecimal(Decimal(n)) == n
    decreases n
  {
    var s := Decimal(n);
    if n >= 10 {
      assert s[..|s| - 1] == Decimal(n / 10);
      ParseDecimalOfDecimal(n / 10);
    }
  }

  /** Different numbers are written differently. */
  lemma DecimalInjective(a: nat, b: nat)
    requires Decimal(a) == Decimal(b)
    ensures a == b
  {
    ParseDecimalOfDecimal(a);
    ParseDecimalOfDecimal(b);
  }
}
