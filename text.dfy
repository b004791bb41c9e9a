/** The optional value used wherever the program returns `None` or a value. */
module Options {
  datatype Option<T> = None | Some(value: T)
}

/**
 * The string operations the script relies on, stated over `seq<char>`:
 * digit classes of its regular expressions, `str.strip()`, `str.lower()`,
 * case-insensitive matching, substring tests, splitting on '.' and the
 * decimal rendering of an account index.
 */
module Text {

  /** `\d` of the patterns, restricted to the ASCII digits. */
  predicate IsDigit(c: char) {
    '0' <= c <= '9'
  }

  predicate IsDigits(s: string) {
    forall i :: 0 <= i < |s| ==> IsDigit(s[i])
  }

  /** The characters for which Python's `str.isspace()` holds. */
  predicate IsSpace(c: char) {
    || c == ' '
    || '\t' <= c <= '\r'
    || '\U{1c}' <= c <= '\U{1f}'
    || c == '\U{85}' || c == '\U{a0}' || c == '\U{1680}'
    || '\U{2000}' <= c <= '\U{200a}'
    || c == '\U{2028}' || c == '\U{2029}' || c == '\U{202f}'
    || c == '\U{205f}' || c == '\U{3000}'
  }

  predicate AllSpace(s: string) {
    forall i :: 0 <= i < |s| ==> IsSpace(s[i])
  }

  /** Drops leading whitespace. */
  function TrimStart(s: string): (r: string)
    ensures |r| <= |s| && r == s[|s| - |r|..]
    ensures AllSpace(s[..|s| - |r|])
    ensures r == [] || !IsSpace(r[0])
  {
    if |s| > 0 && IsSpace(s[0]) then
      var r := TrimStart(s[1..]);
      assert s[..|s| - |r|] == [s[0]] + s[1..][..|s| - 1 - |r|];
      r
    else s
  }

  /** Drops trailing whitespace. */
  function TrimEnd(s: string): (r: string)
    ensures |r| <= |s| && r == s[..|r|]
    ensures AllSpace(s[|r|..])
    ensures r == [] || !IsSpace(r[|r| - 1])
  {
    if |s| > 0 && IsSpace(s[|s| - 1]) then
      var r := TrimEnd(s[..|s| - 1]);
      assert s[|r|..] == s[..|s| - 1][|r|..] + [s[|s| - 1]];
      r
    else s
  }

  /** `str.strip()` with no argument: both trims. */
  function Strip(s: string): string {
    TrimEnd(TrimStart(s))
  }

  /** `r` is the slice `s[a..b]`, with only whitespace before and after it. */
  predicate Surrounded(s: string, r: string, a: int, b: int) {
    0 <= a <= b <= |s| && r == s[a..b] && AllSpace(s[..a]) && AllSpace(s[b..])
  }

  /** A prefix `r` of a suffix `t` of `s`, with whitespace before `t` and after `r` in it, lies in `s` between whitespace. */
  lemma SurroundedSlice(s: string, t: string, r: string)
    requires |t| <= |s| && t == s[|s| - |t|..] && AllSpace(s[..|s| - |t|])
    requires |r| <= |t| && r == t[..|r|] && AllSpace(t[|r|..])
    ensures Surrounded(s, r, |s| - |t|, |s| - |t| + |r|)
  {
    var a := |s| - |t|;
    assert s[a..a + |r|] == r;
    assert s[a + |r|..] == t[|r|..];
  }

  /** Where the stripped text lies in `s`: after the whitespace `TrimStart` drops. */
  lemma StripBounds(s: string)
    ensures exists a, b :: Surrounded(s, Strip(s), a, b)
  {
    var t := TrimStart(s);
    var r := TrimEnd(t);
    SurroundedSlice(s, t, r);
    assert Strip(s) == r;
  }

  /** The stripped text neither starts nor ends with whitespace. */
  lemma StripEnds(s: string)
    ensures var r := Strip(s); r == [] || (!IsSpace(r[0]) && !IsSpace(r[|r| - 1]))
  {
    var t := TrimStart(s);
    var r := TrimEnd(t);
    if r != [] {
      assert r[0] == t[0];
    }
  }

  /**
   * The stripped text is the part of `s` left between a whitespace prefix
   * and a whitespace suffix, and it neither starts nor ends with whitespace.
   */
  lemma StripSlice(s: string)
    ensures exists a, b :: Surrounded(s, Strip(s), a, b)
    ensures var r := Strip(s); r == [] || (!IsSpace(r[0]) && !IsSpace(r[|r| - 1]))
  {
    StripBounds(s);
    StripEnds(s);
  }

  /** `str.lower()` on the ASCII letters; other characters are kept. */
  function LowerChar(c: char): char {
    if 'A' <= c <= 'Z' then (c as int - 'A' as int + 'a' as int) as char else c
  }

  function Lower(s: string): (r: string)
    ensures |r| == |s|
    ensures forall i :: 0 <= i < |s| ==> r[i] == LowerChar(s[i])
  {
    if s == [] then [] else [LowerChar(s[0])] + Lower(s[1..])
  }

  /**
   * The case folding `re.IGNORECASE` applies to the keywords of the OTP
   * patterns: ASCII and Cyrillic capitals map to their small letters, and the
   * two historic letters the regular-expression engine treats as equal to
   * small Cyrillic letters, long-legged de (U+1C81) and narrow o (U+1C82),
   * map to "д" and "о".
   */
  function Fold(c: char): char {
    if 'A' <= c <= 'Z' then (c as int - 'A' as int + 'a' as int) as char
    else if '\U{410}' <= c <= '\U{42f}' then (c as int + 0x20) as char
    else if '\U{400}' <= c <= '\U{40f}' then (c as int + 0x50) as char
    else if c == '\U{1c81}' then '\U{434}'
    else if c == '\U{1c82}' then '\U{43e}'
    else c
  }

  /** `t` occurs in `s` starting at index `i`. */
  predicate OccursAt(s: string, t: string, i: int) {
    0 <= i && i + |t| <= |s| && s[i..i + |t|] == t
  }

  /** Python's `t in s`. */
  predicate Contains(s: string, t: string) {
    exists i | 0 <= i <= |s| :: OccursAt(s, t, i)
  }

  /** `str.split(sep)` for a one-character separator. */
  function Split(s: string, sep: char): (r: seq<string>)
    ensures |r| >= 1
    ensures forall k :: 0 <= k < |r| ==> sep !in r[k]
  {
    if s == [] then [""]
    else
      var rest := Split(s[1..], sep);
      if s[0] == sep then [""] + rest
      else [[s[0]] + rest[0]] + rest[1..]
  }

  /** `sep.join(fields)`. */
  function Join(fields: seq<string>, sep: char): string
    requires |fields| >= 1
  {
    if |fields| == 1 then fields[0] else fields[0] + [sep] + Join(fields[1..], sep)
  }

  /** Splitting loses nothing: joining the pieces gives the string back. */
  lemma {:induction false} JoinSplit(s: string, sep: char)
    ensures Join(Split(s, sep), sep) == s
  {
    if s != [] {
      var rest := Split(s[1..], sep);
      JoinSplit(s[1..], sep);
      if s[0] == sep {
        assert Split(s, sep)[1..] == rest;
      } else {
        var r := Split(s, sep);
        assert r[0] == [s[0]] + rest[0];
        if |rest| == 1 {
          assert r == [[s[0]] + rest[0]];
        } else {
          assert r[1..] == rest[1..];
          assert Join(r, sep) == [s[0]] + rest[0] + [sep] + Join(rest[1..], sep);
        }
      }
    }
  }

  /** The other direction: fields free of the separator are split back apart. */
  lemma {:induction false} SplitJoin(fields: seq<string>, sep: char)
    requires |fields| >= 1
    requires forall k :: 0 <= k < |fields| ==> sep !in fields[k]
    ensures Split(Join(fields, sep), sep) == fields
  {
    if |fields| == 1 {
      SplitField(fields[0], [], sep);
      assert Split([], sep) == [""];
      assert fields[0] + [] == fields[0] && fields[0] + "" == fields[0];
    } else {
      var tail := Join(fields[1..], sep);
      SplitJoin(fields[1..], sep);
      SplitField(fields[0], [sep] + tail, sep);
      assert Split([sep] + tail, sep) == [""] + fields[1..] by {
        assert ([sep] + tail)[1..] == tail;
      }
      assert fields[0] + [sep] + tail == fields[0] + ([sep] + tail);
      assert Join(fields, sep) == fields[0] + ([sep] + tail);
      var pieces := [""] + fields[1..];
      assert pieces[0] == "" && pieces[1..] == fields[1..];
      assert fields[0] + "" == fields[0];
      assert fields == [fields[0]] + fields[1..];
    }
  }

  /** Splitting `f + rest` for a separator-free `f` glues `f` onto the first piece. */
  lemma {:induction false} SplitField(f: string, rest: string, sep: char)
    requires sep !in f
    ensures var r := Split(rest, sep);
      Split(f + rest, sep) == [f + r[0]] + r[1..]
  {
    var r := Split(rest, sep);
    if f == [] {
      assert f + rest == rest && f + r[0] == r[0];
      assert [r[0]] + r[1..] == r;
    } else {
      SplitField(f[1..], rest, sep);
      var tail := Split(f[1..] + rest, sep);
      assert Split(f + rest, sep) == [[f[0]] + tail[0]] + tail[1..] by {
        assert (f + rest)[0] == f[0] && (f + rest)[1..] == f[1..] + rest;
      }
      assert [f[0]] + tail[0] == f + r[0] by {
        assert [f[0]] + (f[1..] + r[0]) == f + r[0];
      }
    }
  }

  /** The decimal digits of `n`, as `str(n)` renders a row index. */
  function Decimal(n: nat): (r: string)
    ensures |r| >= 1 && IsDigits(r)
    ensures |r| > 1 ==> r[0] != '0'
  {
    if n < 10 then [('0' as int + n) as char]
    else Decimal(n / 10) + [('0' as int + n % 10) as char]
  }

  /** The number a string of decimal digits denotes. */
  function DecimalValue(s: string): nat
    requires IsDigits(s)
  {
    if s == [] then 0
    else 10 * DecimalValue(s[..|s| - 1]) + (s[|s| - 1] as int - '0' as int)
  }

  /** Rendering a number and reading it back gives the number. */
  lemma {:induction false} DecimalRoundTrip(n: nat)
    ensures DecimalValue(Decimal(n)) == n
  {
    if n >= 10 {
      DecimalRoundTrip(n / 10);
      var d := Decimal(n);
      assert d[..|d| - 1] == Decimal(n / 10);
    }
  }

  /** Different numbers have different renderings. */
  lemma DecimalInjective(m: nat, n: nat)
    requires Decimal(m) == Decimal(n)
    ensures m == n
  {
    DecimalRoundTrip(m);
    DecimalRoundTrip(n);
  }
}
