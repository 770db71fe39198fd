/** The Python string operations the file-name and argument parsers use:
    `str.split` with a one-character separator, `int()` of a string,
    `str()` of an int, `str.zfill`, `str.strip`, `str.endswith`,
    `os.path.basename` and `os.path.splitext` (POSIX). */
module PyStr {
  import opened Wrappers

  predicate IsDigit(c: char) { '0' <= c <= '9' }

  predicate AllDigits(s: string) { forall i :: 0 <= i < |s| ==> IsDigit(s[i]) }

  function DigitChar(d: nat): (c: char)
    requires d < 10
    ensures IsDigit(c) && c as int - '0' as int == d
  {
    ('0' as int + d) as char
  }

  /** Decimal value of a string of digits; leading zeros are allowed, as in `int("007")`. */
  function DigitsValue(s: string): nat
    requires AllDigits(s)
  {
    if |s| == 0 then 0
    else DigitsValue(s[..|s| - 1]) * 10 + (s[|s| - 1] as int - '0' as int)
  }

  /** Leading zeros do not change the value. */
  lemma {:induction false} DigitsValueLeadingZeros(z: string, s: string)
    requires forall i :: 0 <= i < |z| ==> z[i] == '0'
    requires AllDigits(s)
    ensures AllDigits(z + s) && DigitsValue(z + s) == DigitsValue(s)
    decreases |s|
  {
    if |s| == 0 {
      assert z + s == z;
      ZerosValue(z);
    } else {
      assert (z + s)[..|z + s| - 1] == z + s[..|s| - 1];
      DigitsValueLeadingZeros(z, s[..|s| - 1]);
    }
  }

  lemma {:induction false} ZerosValue(z: string)
    requires forall i :: 0 <= i < |z| ==> z[i] == '0'
    ensures AllDigits(z) && DigitsValue(z) == 0
    decreases |z|
  {
    if |z| > 0 {
      ZerosValue(z[..|z| - 1]);
    }
  }

  /** `str(n)` for a natural number: the shortest decimal numeral. */
  function NatStr(n: nat): (s: string)
    ensures |s| > 0 && AllDigits(s)
    ensures DigitsValue(s) == n
    ensures |s| > 1 ==> s[0] != '0'
    decreases n
  {
    if n < 10 then [DigitChar(n)]
    else
      var p := NatStr(n / 10);
      assert (p + [DigitChar(n % 10)])[..|p|] == p;
      p + [DigitChar(n % 10)]
  }

  /** `str(i)` for an int. */
  function Str(i: int): (s: string)
    ensures |s| > 0
    ensures i >= 0 ==> AllDigits(s)
    ensures i < 0 ==> s[0] == '-' && AllDigits(s[1..])
  {
    if i < 0 then "-" + NatStr(-i) else NatStr(i)
  }

  /** The characters `str.isspace()` holds for among ASCII: `int()` strips them. */
  const Whitespace: set<char> := {' ', '\t', '\n', '\r', '\U{000B}', '\U{000C}', '\U{001C}', '\U{001D}', '\U{001E}', '\U{001F}'}

  /** `s.lstrip(cs)`: the longest suffix of s that does not start with a character of cs. */
  function LStrip(s: string, cs: set<char>): (r: string)
    ensures |r| <= |s| && r == s[|s| - |r|..]
    ensures |r| > 0 ==> r[0] !in cs
    ensures forall k :: 0 <= k < |s| - |r| ==> s[k] in cs
    decreases |s|
  {
    if |s| > 0 && s[0] in cs then LStrip(s[1..], cs) else s
  }

  /** `s.rstrip(cs)`: the longest prefix of s that does not end with a character of cs. */
  function RStrip(s: string, cs: set<char>): (r: string)
    ensures |r| <= |s| && r == s[..|r|]
    ensures |r| > 0 ==> r[|r| - 1] !in cs
    ensures forall k :: |r| <= k < |s| ==> s[k] in cs
    decreases |s|
  {
    if |s| > 0 && s[|s| - 1] in cs then RStrip(s[..|s| - 1], cs) else s
  }

  /** `s.strip(cs)`. */
  function Strip(s: string, cs: set<char>): (r: string)
    ensures |r| <= |s|
    ensures |r| > 0 ==> r[0] !in cs && r[|r| - 1] !in cs
  {
    RStrip(LStrip(s, cs), cs)
  }

  /** A string none of whose characters is in cs is its own strip. */
  lemma StripNothing(s: string, cs: set<char>)
    requires forall k :: 0 <= k < |s| ==> s[k] !in cs
    ensures Strip(s, cs) == s
  {
    var l := LStrip(s, cs);
    assert |l| == |s|;
    var r := RStrip(l, cs);
    assert |r| == |l|;
  }

  /** The digits of an `int()` literal: digit runs joined by single underscores. */
  predicate IsDigitGroup(s: string)
  {
    |s| > 0 && IsDigit(s[0]) && IsDigit(s[|s| - 1]) &&
    (forall i :: 0 <= i < |s| ==> IsDigit(s[i]) || s[i] == '_') &&
    (forall i :: 0 <= i < |s| - 1 ==> s[i] != '_' || s[i + 1] != '_')
  }

  function RemoveUnderscores(s: string): (r: string)
    ensures |r| <= |s|
    ensures (forall i :: 0 <= i < |s| ==> IsDigit(s[i]) || s[i] == '_') ==> AllDigits(r)
    ensures AllDigits(s) ==> r == s
  {
    if |s| == 0 then ""
    else (if s[0] == '_' then "" else [s[0]]) + RemoveUnderscores(s[1..])
  }

  /** `int()` of an unsigned literal: digit runs joined by single underscores. */
  function ParseUnsigned(t: string): (r: Option<nat>)
    ensures r.Some? ==> |t| > 0 && IsDigit(t[0])
  {
    if IsDigitGroup(t) then Some(DigitsValue(RemoveUnderscores(t))) else None
  }

  /** `int(s)` for a string of ASCII characters: surrounding whitespace, an
      optional sign, then decimal digits (single underscores allowed between
      digits); any other ASCII string is a ValueError, modelled as None. */
  function ParseInt(s: string): (r: Option<int>)
  {
    var t := Strip(s, Whitespace);
    if |t| > 0 && (t[0] == '-' || t[0] == '+') then
      match ParseUnsigned(t[1..])
      case None => None
      case Some(v) =>
        var w: int := v;
        Some(if t[0] == '-' then -w else w)
    else
      match ParseUnsigned(t)
      case None => None
      case Some(v) => Some(v)
  }

  /** A non-empty digit string is an unsigned literal with its decimal value. */
  lemma ParseUnsignedDigits(s: string)
    requires |s| > 0 && AllDigits(s)
    ensures ParseUnsigned(s) == Some(DigitsValue(s))
  {
    assert IsDigitGroup(s);
  }

  lemma DigitsNotWhitespace(s: string)
    requires AllDigits(s)
    ensures forall k :: 0 <= k < |s| ==> s[k] !in Whitespace
  {
    forall k | 0 <= k < |s| ensures s[k] !in Whitespace {
      assert IsDigit(s[k]);
    }
  }

  /** `int(str(i)) == i`. */
  lemma ParseIntStr(i: int)
    ensures ParseInt(Str(i)) == Some(i)
  {
    var s := Str(i);
    if i < 0 {
      DigitsNotWhitespace(s[1..]);
      assert forall k :: 1 <= k < |s| ==> s[k] == s[1..][k - 1];
    } else {
      DigitsNotWhitespace(s);
    }
    StripNothing(s, Whitespace);
    if i < 0 {
      assert s[1..] == NatStr(-i);
      ParseUnsignedDigits(NatStr(-i));
    } else {
      ParseUnsignedDigits(s);
    }
  }

  /** `int()` of a digit string is its decimal value, leading zeros included. */
  lemma ParseIntDigits(s: string)
    requires |s| > 0 && AllDigits(s)
    ensures ParseInt(s) == Some(DigitsValue(s) as int)
  {
    DigitsNotWhitespace(s);
    StripNothing(s, Whitespace);
    ParseUnsignedDigits(s);
  }

  /** `s.split(c)` for a one-character separator: never empty, no part contains c,
      and joining the parts with c gives s back. */
  function Split(s: string, c: char): (parts: seq<string>)
    ensures |parts| >= 1
    ensures forall p :: p in parts ==> c !in p
    ensures Join(parts, c) == s
    decreases |s|
  {
    if |s| == 0 then [""]
    else
      var rest := Split(s[1..], c);
      if s[0] == c then [""] + rest
      else [[s[0]] + rest[0]] + rest[1..]
  }

  /** `c.join(parts)`. */
  function Join(parts: seq<string>, c: char): string
  {
    if |parts| == 0 then ""
    else if |parts| == 1 then parts[0]
    else parts[0] + [c] + Join(parts[1..], c)
  }

  /** `s.split(c)[0]`: the text before the first c. */
  function FirstField(s: string, c: char): (f: string)
    ensures c !in f
    ensures |f| <= |s| && f == s[..|f|]
    ensures |f| < |s| ==> s[|f|] == c
  {
    FirstFieldSplit(s, c);
    Split(s, c)[0]
  }

  lemma {:induction false} FirstFieldSplit(s: string, c: char)
    ensures |Split(s, c)[0]| <= |s| && Split(s, c)[0] == s[..|Split(s, c)[0]|]
    ensures |Split(s, c)[0]| < |s| ==> s[|Split(s, c)[0]|] == c
    decreases |s|
  {
    if |s| > 0 && s[0] != c {
      FirstFieldSplit(s[1..], c);
    }
  }

  /** `s.split(c)[-1]`: the text after the last c. */
  function LastField(s: string, c: char): (f: string)
    ensures c !in f
    ensures |f| <= |s| && f == s[|s| - |f|..]
    ensures |f| < |s| ==> s[|s| - |f| - 1] == c
  {
    LastFieldSplit(s, c);
    var parts := Split(s, c);
    parts[|parts| - 1]
  }

  lemma {:induction false} LastFieldSplit(s: string, c: char)
    ensures var parts := Split(s, c); var f := parts[|parts| - 1];
      |f| <= |s| && f == s[|s| - |f|..] && (|f| < |s| ==> s[|s| - |f| - 1] == c)
    decreases |s|
  {
    if |s| > 0 {
      LastFieldSplit(s[1..], c);
      var rest := Split(s[1..], c);
      var g := rest[|rest| - 1];
      var parts := Split(s, c);
      if s[0] == c {
        assert parts == [""] + rest;
        assert parts[|parts| - 1] == g;
      } else if |rest| == 1 {
        assert Join(rest, c) == rest[0];
        assert parts == [[s[0]] + rest[0]];
        assert parts[|parts| - 1] == s;
      } else {
        assert parts == [[s[0]] + rest[0]] + rest[1..];
        assert parts[|parts| - 1] == g;
        JoinLastShorter(rest, c);
      }
    }
  }

  lemma {:induction false} JoinLastShorter(parts: seq<string>, c: char)
    requires |parts| >= 2
    ensures |parts[|parts| - 1]| < |Join(parts, c)|
    decreases |parts|
  {
    if |parts| > 2 {
      JoinLastShorter(parts[1..], c);
    }
  }

  /** `s.endswith(suffix)`. */
  predicate EndsWith(s: string, suffix: string)
  {
    |suffix| <= |s| && s[|s| - |suffix|..] == suffix
  }

  /** `os.path.basename(p)` on POSIX: the text after the last '/'. */
  function Basename(p: string): (b: string)
    ensures '/' !in b && |b| <= |p| && b == p[|p| - |b|..]
  {
    LastField(p, '/')
  }

  /** The root returned by `os.path.splitext(name)` for a name without '/':
      the text before the last '.', unless every character before that dot is
      itself a dot (a hidden file such as ".bashrc"), in which case the whole name. */
  function SplitExtRoot(name: string): (root: string)
    ensures |root| <= |name| && root == name[..|root|]
    ensures |root| < |name| ==> name[|root|] == '.' && '.' !in name[|root| + 1..]
  {
    var ext := LastField(name, '.');
    if |ext| < |name| then
      var d := |name| - |ext| - 1;
      assert name[d + 1..] == ext;
      if exists k :: 0 <= k < d && name[k] != '.' then name[..d] else name
    else name
  }

  /** n zero characters. */
  function Zeros(n: nat): (z: string)
    ensures |z| == n && forall i :: 0 <= i < n ==> z[i] == '0'
  {
    seq(n, _ => '0')
  }

  /** `s.zfill(width)`: left-pad with '0' (after a leading sign) up to width. */
  function ZFill(s: string, width: int): (r: string)
    ensures |s| >= width ==> r == s
    ensures |s| < width ==> |r| == width
  {
    if |s| >= width then s
    else
      var zeros := Zeros(width - |s|);
      if |s| > 0 && (s[0] == '+' || s[0] == '-') then [s[0]] + zeros + s[1..]
      else zeros + s
  }

  /** `int(str(i).zfill(w)) == i`: zero padding preserves the value of a natural number. */
  lemma ZFillParse(i: nat, width: int)
    ensures ParseInt(ZFill(Str(i), width)) == Some(i)
  {
    var s := Str(i);
    var r := ZFill(s, width);
    if |s| < width {
      var zeros := Zeros(width - |s|);
      assert r == zeros + s;
      DigitsValueLeadingZeros(zeros, s);
      ParseIntDigits(r);
    } else {
      ParseIntStr(i);
    }
  }
}
