/** The Python string operations the core relies on, over ASCII: `startswith`, `endswith`,
    `replace` of one character, `title`, `split`, slicing off the last character and `str(int)`. */
module Text {

  predicate IsAsciiLower(c: char) { 'a' <= c <= 'z' }

  predicate IsAsciiUpper(c: char) { 'A' <= c <= 'Z' }

  predicate IsAsciiLetter(c: char) { IsAsciiLower(c) || IsAsciiUpper(c) }

  predicate IsDigit(c: char) { '0' <= c <= '9' }

  function ToUpper(c: char): char
  {
    if IsAsciiLower(c) then (c as int - 32) as char else c
  }

  function ToLower(c: char): char
  {
    if IsAsciiUpper(c) then (c as int + 32) as char else c
  }

  predicate StartsWith(s: string, prefix: string)
  {
    |prefix| <= |s| && s[..|prefix|] == prefix
  }

  predicate EndsWith(s: string, suffix: string)
  {
    |suffix| <= |s| && s[|s| - |suffix|..] == suffix
  }

  /** `s.replace(a, b)` for single characters. */
  function ReplaceChar(s: string, a: char, b: char): (r: string)
    ensures |r| == |s|
    ensures forall i :: 0 <= i < |s| ==> r[i] == (if s[i] == a then b else s[i])
  {
    seq(|s|, i requires 0 <= i < |s| => if s[i] == a then b else s[i])
  }

  /** Lower-cases every letter. */
  function LowerAll(s: string): (r: string)
    ensures |r| == |s|
    ensures forall i :: 0 <= i < |s| ==> r[i] == ToLower(s[i])
  {
    seq(|s|, i requires 0 <= i < |s| => ToLower(s[i]))
  }

  /** `str.title()`, scanning left to right: a letter after a letter is lower-cased, any other letter
      upper-cased; other characters are kept and reset the scan. */
  function TitleFrom(s: string, previousIsCased: bool): string
  {
    if s == [] then []
    else if IsAsciiLetter(s[0]) then
      [if previousIsCased then ToLower(s[0]) else ToUpper(s[0])] + TitleFrom(s[1..], true)
    else [s[0]] + TitleFrom(s[1..], false)
  }

  function Title(s: string): string
  {
    TitleFrom(s, false)
  }

  /** Whether position `i` of `s` starts a word for `title()`. */
  predicate StartsWord(s: string, i: nat)
    requires i < |s|
  {
    i == 0 || !IsAsciiLetter(s[i - 1])
  }

  lemma {:induction false} TitleFromAt(s: string, previousIsCased: bool, i: nat)
    requires i < |s|
    ensures |TitleFrom(s, previousIsCased)| == |s|
    ensures TitleFrom(s, previousIsCased)[i] ==
      if !IsAsciiLetter(s[i]) then s[i]
      else if (if i == 0 then previousIsCased else IsAsciiLetter(s[i - 1])) then ToLower(s[i])
      else ToUpper(s[i])
    decreases |s|
  {
    if i == 0 {
      TitleLength(s[1..], IsAsciiLetter(s[0]));
    } else {
      TitleFromAt(s[1..], IsAsciiLetter(s[0]), i - 1);
      assert s[1..][i - 1] == s[i];
      if i >= 2 {
        assert s[1..][i - 2] == s[i - 1];
      }
    }
  }

  lemma {:induction false} TitleLength(s: string, previousIsCased: bool)
    ensures |TitleFrom(s, previousIsCased)| == |s|
    decreases |s|
  {
    if s != [] {
      TitleLength(s[1..], IsAsciiLetter(s[0]));
    }
  }

  /** `title()` keeps the length, upper-cases exactly the letters that start a word, lower-cases the
      other letters and keeps every other character. */
  lemma TitleAt(s: string, i: nat)
    requires i < |s|
    ensures |Title(s)| == |s|
    ensures !IsAsciiLetter(s[i]) ==> Title(s)[i] == s[i]
    ensures IsAsciiLetter(s[i]) && StartsWord(s, i) ==> Title(s)[i] == ToUpper(s[i])
    ensures IsAsciiLetter(s[i]) && !StartsWord(s, i) ==> Title(s)[i] == ToLower(s[i])
  {
    TitleFromAt(s, false, i);
  }

  /** Python's `s.split(sep)`: never empty; separators at the ends give empty pieces. */
  function Split(s: string, sep: char): (r: seq<string>)
    ensures |r| >= 1
  {
    if s == [] then [""]
    else
      var rest := Split(s[1..], sep);
      if s[0] == sep then [""] + rest
      else [[s[0]] + rest[0]] + rest[1..]
  }

  lemma {:induction false} SplitWithoutSeparator(s: string, sep: char)
    requires sep !in s
    ensures Split(s, sep) == [s]
  {
    if s != [] {
      assert sep !in s[1..];
      SplitWithoutSeparator(s[1..], sep);
      assert [s[0]] + s[1..] == s;
    }
  }

  /** Splitting at the first separator: the piece before it, then the split of the rest. */
  lemma {:induction false} SplitAtFirst(a: string, sep: char, b: string)
    requires sep !in a
    ensures Split(a + [sep] + b, sep) == [a] + Split(b, sep)
  {
    if a == [] {
      assert a + [sep] + b == [sep] + b;
      assert ([sep] + b)[1..] == b;
    } else {
      assert sep !in a[1..];
      SplitAtFirst(a[1..], sep, b);
      assert (a + [sep] + b)[1..] == a[1..] + [sep] + b;
      assert [a[0]] + a[1..] == a;
    }
  }

  /** `s[:-1]`. */
  function DropLast(s: string): string
  {
    if s == [] then s else s[..|s| - 1]
  }

  function DigitChar(d: nat): (c: char)
    requires d < 10
    ensures IsDigit(c)
  {
    (48 + d) as char
  }

  /** `str(n)` for a natural number: its decimal digits, most significant first. */
  function NatToString(n: nat): string
  {
    if n < 10 then [DigitChar(n)] else NatToString(n / 10) + [DigitChar(n % 10)]
  }

  /** `str(i)` (as an f-string renders it). */
  function IntToString(i: int): string
  {
    if i < 0 then "-" + NatToString(-i) else NatToString(i)
  }

  lemma {:induction false} NatToStringShape(n: nat)
    ensures |NatToString(n)| >= 1
    ensures |NatToString(n)| == 1 <==> n < 10
    ensures forall k :: 0 <= k < |NatToString(n)| ==> IsDigit(NatToString(n)[k])
  {
    if n >= 10 {
      NatToStringShape(n / 10);
    }
  }

  /** Different numbers print differently. */
  lemma {:induction false} NatToStringInjective(a: nat, b: nat)
    requires NatToString(a) == NatToString(b)
    ensures a == b
  {
    NatToStringShape(a);
    NatToStringShape(b);
    if a >= 10 && b >= 10 {
      var sa, sb := NatToString(a), NatToString(b);
      assert sa[|sa| - 1] == DigitChar(a % 10);
      assert sb[|sb| - 1] == DigitChar(b % 10);
      assert sa[..|sa| - 1] == NatToString(a / 10);
      assert sb[..|sb| - 1] == NatToString(b / 10);
      NatToStringInjective(a / 10, b / 10);
    }
  }

  lemma IntToStringInjective(a: int, b: int)
    requires IntToString(a) == IntToString(b)
    ensures a == b
  {
    if a < 0 && b >= 0 {
      NatToStringStartsWithDigit(b, IntToString(a));
      assert false;
    } else if a >= 0 && b < 0 {
      NatToStringStartsWithDigit(a, IntToString(b));
      assert false;
    } else if a < 0 {
      assert IntToString(a)[1..] == NatToString(-a);
      assert IntToString(b)[1..] == NatToString(-b);
      NatToStringInjective(-a, -b);
    } else {
      NatToStringInjective(a, b);
    }
  }

  /** No decimal rendering of a natural number starts with a minus sign. */
  lemma NatToStringStartsWithDigit(n: nat, t: string)
    requires |t| > 0 && t[0] == '-'
    ensures NatToString(n) != t
  {
    NatToStringShape(n);
    assert IsDigit(NatToString(n)[0]);
  }
}
