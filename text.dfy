/**
 * Text handling shared by the firmware's command reader and the host scripts:
 * whitespace trimming (Arduino `String::trim`, Python `str.strip`), prefix
 * tests, Python's `str.split`, `str.join`, `str.count` and `str.replace`, and
 * the decimal integer text written by Python's `str(int)` and read by `int(str)`.
 */
module Text {
  import opened Wrappers

  /** The characters C's `isspace` accepts, which Arduino's `String::trim` removes. */
  predicate IsCSpace(c: char)
  {
    c == ' ' || c == '\t' || c == '\n' || c == '\r' || c as int == 0x0B || c as int == 0x0C
  }

  /** The characters Python's `str.isspace` accepts, which `str.strip()` removes. */
  predicate IsPySpace(c: char)
  {
    var k := c as int;
    (0x09 <= k <= 0x0D) || (0x1C <= k <= 0x20) || k == 0x85 || k == 0xA0 || k == 0x1680 ||
    (0x2000 <= k <= 0x200A) || k == 0x2028 || k == 0x2029 || k == 0x202F || k == 0x205F || k == 0x3000
  }

  /** Drops the leading characters that satisfy `ws`. */
  function TrimStart(s: string, ws: char -> bool): string
    decreases |s|
  {
    if s != [] && ws(s[0]) then TrimStart(s[1..], ws) else s
  }

  /** `TrimStart` keeps a suffix, drops only whitespace, and stops at the first other character. */
  lemma {:induction false} TrimStartSuffix(s: string, ws: char -> bool)
    ensures |TrimStart(s, ws)| <= |s| && TrimStart(s, ws) == s[|s| - |TrimStart(s, ws)|..]
    ensures forall k :: 0 <= k < |s| - |TrimStart(s, ws)| ==> ws(s[k])
    ensures TrimStart(s, ws) != [] ==> !ws(TrimStart(s, ws)[0])
    decreases |s|
  {
    if s != [] && ws(s[0]) {
      TrimStartSuffix(s[1..], ws);
    }
  }

  /** Drops the trailing characters that satisfy `ws`. */
  function TrimEnd(s: string, ws: char -> bool): string
    decreases |s|
  {
    if s != [] && ws(s[|s| - 1]) then TrimEnd(s[..|s| - 1], ws) else s
  }

  /** `TrimEnd` keeps a prefix, drops only whitespace, and stops at the last other character. */
  lemma {:induction false} TrimEndPrefix(s: string, ws: char -> bool)
    ensures |TrimEnd(s, ws)| <= |s| && TrimEnd(s, ws) == s[..|TrimEnd(s, ws)|]
    ensures forall k :: |TrimEnd(s, ws)| <= k < |s| ==> ws(s[k])
    ensures TrimEnd(s, ws) != [] ==> !ws(TrimEnd(s, ws)[|TrimEnd(s, ws)| - 1])
    decreases |s|
  {
    if s != [] && ws(s[|s| - 1]) {
      TrimEndPrefix(s[..|s| - 1], ws);
    }
  }

  /** Removes whitespace (as `ws` defines it) from both ends. */
  function Strip(s: string, ws: char -> bool): (r: string)
  {
    TrimEnd(TrimStart(s, ws), ws)
  }

  /** Stripping keeps a contiguous middle part and removes only whitespace around it. */
  lemma StripSlice(s: string, ws: char -> bool)
    ensures exists i, j ::
              && 0 <= i <= j <= |s| && Strip(s, ws) == s[i..j]
              && (forall k :: 0 <= k < i ==> ws(s[k]))
              && (forall k :: j <= k < |s| ==> ws(s[k]))
    ensures Strip(s, ws) != [] ==> !ws(Strip(s, ws)[0]) && !ws(Strip(s, ws)[|Strip(s, ws)| - 1])
  {
    var t := TrimStart(s, ws);
    TrimStartSuffix(s, ws);
    TrimEndPrefix(t, ws);
    var i := |s| - |t|;
    var j := i + |TrimEnd(t, ws)|;
    assert Strip(s, ws) == s[i..j];
  }

  /** Text with no whitespace at either end is its own stripped form. */
  lemma StripNoop(s: string, ws: char -> bool)
    requires s == [] || (!ws(s[0]) && !ws(s[|s| - 1]))
    ensures Strip(s, ws) == s
  {
  }

  /** Whitespace before a part that does not start with whitespace is all trimmed away. */
  lemma {:induction false} TrimStartPadded(p: string, s: string, ws: char -> bool)
    requires forall k :: 0 <= k < |p| ==> ws(p[k])
    requires s != [] && !ws(s[0])
    ensures TrimStart(p + s, ws) == s
    decreases |p|
  {
    if p == [] {
      assert p + s == s;
    } else {
      var ps := p + s;
      assert ps[0] == p[0] && ws(ps[0]);
      assert ps[1..] == p[1..] + s;
      assert TrimStart(ps, ws) == TrimStart(ps[1..], ws);
      TrimStartPadded(p[1..], s, ws);
    }
  }

  /** Whitespace after a part that does not end with whitespace is all trimmed away. */
  lemma {:induction false} TrimEndPadded(s: string, q: string, ws: char -> bool)
    requires forall k :: 0 <= k < |q| ==> ws(q[k])
    requires s != [] && !ws(s[|s| - 1])
    ensures TrimEnd(s + q, ws) == s
    decreases |q|
  {
    if q == [] {
      assert s + q == s;
    } else {
      var sq := s + q;
      assert sq[|sq| - 1] == q[|q| - 1] && ws(sq[|sq| - 1]);
      assert sq[..|sq| - 1] == s + q[..|q| - 1];
      assert TrimEnd(sq, ws) == TrimEnd(sq[..|sq| - 1], ws);
      TrimEndPadded(s, q[..|q| - 1], ws);
    }
  }

  /** Stripping whitespace padding recovers the padded text exactly. */
  lemma StripPadded(p: string, s: string, q: string, ws: char -> bool)
    requires forall k :: 0 <= k < |p| ==> ws(p[k])
    requires forall k :: 0 <= k < |q| ==> ws(q[k])
    requires s != [] && !ws(s[0]) && !ws(s[|s| - 1])
    ensures Strip(p + s + q, ws) == s
  {
    assert p + s + q == p + (s + q);
    TrimStartPadded(p, s + q, ws);
    TrimEndPadded(s, q, ws);
  }

  /** Stripping whitespace that follows an unpadded text recovers the text. */
  lemma StripTrailing(s: string, q: string, ws: char -> bool)
    requires forall k :: 0 <= k < |q| ==> ws(q[k])
    requires s != [] && !ws(s[0]) && !ws(s[|s| - 1])
    ensures Strip(s + q, ws) == s
  {
    assert (s + q)[0] == s[0];
    assert TrimStart(s + q, ws) == s + q;
    TrimEndPadded(s, q, ws);
  }

  predicate StartsWith(s: string, prefix: string)
  {
    |prefix| <= |s| && s[..|prefix|] == prefix
  }

  /** Python's `sep.join(parts)`. */
  function Join(parts: seq<string>, sep: string): (r: string)
    decreases |parts|
  {
    if |parts| == 0 then ""
    else if |parts| == 1 then parts[0]
    else parts[0] + sep + Join(parts[1..], sep)
  }

  /** Joining a head and further parts puts the separator right after the head. */
  lemma JoinCons(x: string, rest: seq<string>, sep: string)
    ensures Join([x] + rest, sep) == if rest == [] then x else x + sep + Join(rest, sep)
  {
    if rest != [] {
      assert ([x] + rest)[1..] == rest;
    }
  }

  /**
   * Python's `s.split(sep)` for a one-character separator: the pieces between
   * separators, so that joining them back with the separator restores `s`.
   */
  function Split(s: string, sep: char): (r: seq<string>)
    ensures |r| >= 1
    ensures Join(r, [sep]) == s
    ensures forall k :: 0 <= k < |r| ==> sep !in r[k]
    decreases |s|
  {
    if s == [] then [[]]
    else
      var rest := Split(s[1..], sep);
      if s[0] == sep then
        assert s == [sep] + s[1..];
        [[]] + rest
      else
        var r := [[s[0]] + rest[0]] + rest[1..];
        assert Join(r, [sep]) == [s[0]] + Join(rest, [sep]) by {
          if |rest| > 1 {
            assert r[1..] == rest[1..];
          }
        }
        assert s == [s[0]] + s[1..];
        r
  }

  /** A separator-free prefix followed by the separator becomes the first piece. */
  lemma {:induction false} SplitCons(p: string, sep: char, rest: string)
    requires sep !in p
    ensures Split(p + [sep] + rest, sep) == [p] + Split(rest, sep)
    decreases |p|
  {
    if p == [] {
      assert p + [sep] + rest == [sep] + rest;
    } else {
      var s := p + [sep] + rest;
      assert s[1..] == p[1..] + [sep] + rest;
      SplitCons(p[1..], sep, rest);
      var tail := Split(s[1..], sep);
      assert tail[0] == p[1..] && tail[1..] == Split(rest, sep);
      assert s[0] == p[0] && s[0] != sep;
      assert Split(s, sep) == [[p[0]] + tail[0]] + tail[1..];
      assert [p[0]] + p[1..] == p;
    }
  }

  /** Text without the separator splits into itself alone. */
  lemma {:induction false} SplitNone(s: string, sep: char)
    requires sep !in s
    ensures Split(s, sep) == [s]
    decreases |s|
  {
    if s != [] {
      SplitNone(s[1..], sep);
    }
  }

  /** Python's `s.count(c)` for a single character. */
  function CountChar(s: string, c: char): (n: nat)
    ensures n <= |s|
    ensures n == 0 <==> c !in s
    decreases |s|
  {
    if s == [] then 0 else (if s[0] == c then 1 else 0) + CountChar(s[1..], c)
  }

  /** `pat` occurs in `s` starting at index `i`. */
  predicate OccursAt(s: string, pat: string, i: nat)
  {
    i + |pat| <= |s| && s[i..i + |pat|] == pat
  }

  /** A pattern with a character that `s` lacks occurs nowhere in `s`. */
  lemma AbsentChar(s: string, pat: string, k: nat)
    requires k < |pat| && pat[k] !in s
    ensures forall i: nat :: !OccursAt(s, pat, i)
  {
  }

  /** A mismatch at offset `k` rules out an occurrence at `i`. */
  lemma MismatchAt(s: string, pat: string, i: nat, k: nat)
    requires k < |pat| && i + k < |s| && s[i + k] != pat[k]
    ensures !OccursAt(s, pat, i)
  {
    if i + |pat| <= |s| {
      assert s[i..i + |pat|][k] == s[i + k];
    }
  }

  /**
   * Python's `s.replace(pat, rep)`: every non-overlapping occurrence of `pat`,
   * scanning from the left, is replaced by `rep`.
   */
  function ReplaceAll(s: string, pat: string, rep: string): (r: string)
    requires pat != []
    ensures (forall i: nat :: !OccursAt(s, pat, i)) ==> r == s
    decreases |s|
  {
    if |s| < |pat| then s
    else if s[..|pat|] == pat then
      assert OccursAt(s, pat, 0);
      rep + ReplaceAll(s[|pat|..], pat, rep)
    else
      var rest := ReplaceAll(s[1..], pat, rep);
      assert (forall i: nat :: !OccursAt(s, pat, i)) ==> (forall i: nat :: !OccursAt(s[1..], pat, i)) by {
        forall i: nat | OccursAt(s[1..], pat, i) ensures OccursAt(s, pat, i + 1) {
          assert s[i + 1..i + 1 + |pat|] == s[1..][i..i + |pat|];
        }
      }
      assert s == [s[0]] + s[1..];
      [s[0]] + rest
  }

  /**
   * Replacing a one-character pattern is splitting at it and joining the
   * pieces with the replacement: Python's `s.replace(c, rep)` and
   * `rep.join(s.split(c))` agree.
   */
  lemma {:induction false} ReplaceCharIsSplitJoin(s: string, c: char, rep: string)
    ensures ReplaceAll(s, [c], rep) == Join(Split(s, c), rep)
    decreases |s|
  {
    if s != [] {
      var rest := Split(s[1..], c);
      ReplaceCharIsSplitJoin(s[1..], c, rep);
      ReplaceCharStep(s, c, rep);
      if s[0] == c {
        JoinAfterEmpty(rest, rep);
      } else {
        JoinExtendFirst(s[0], rest, rep);
      }
    }
  }

  /** An empty first part contributes just the separator. */
  lemma JoinAfterEmpty(rest: seq<string>, sep: string)
    requires rest != []
    ensures Join([[]] + rest, sep) == sep + Join(rest, sep)
  {
    JoinCons([], rest, sep);
  }

  /** Prefixing a character to the first part prefixes it to the whole join. */
  lemma JoinExtendFirst(x: char, rest: seq<string>, sep: string)
    requires rest != []
    ensures Join([[x] + rest[0]] + rest[1..], sep) == [x] + Join(rest, sep)
  {
    JoinCons([x] + rest[0], rest[1..], sep);
    assert [rest[0]] + rest[1..] == rest;
    JoinCons(rest[0], rest[1..], sep);
  }

  /** One character of `ReplaceAll` and of `Split` for a one-character pattern. */
  lemma ReplaceCharStep(s: string, c: char, rep: string)
    requires s != []
    ensures var rest := Split(s[1..], c);
            if s[0] == c then
              ReplaceAll(s, [c], rep) == rep + ReplaceAll(s[1..], [c], rep) && Split(s, c) == [[]] + rest
            else
              ReplaceAll(s, [c], rep) == [s[0]] + ReplaceAll(s[1..], [c], rep) && Split(s, c) == [[s[0]] + rest[0]] + rest[1..]
  {
    assert s[..1] == [s[0]] && s[|[c]|..] == s[1..];
  }

  predicate IsDigit(c: char)
  {
    '0' <= c <= '9'
  }

  predicate AllDigits(s: string)
  {
    forall k :: 0 <= k < |s| ==> IsDigit(s[k])
  }

  function DigitChar(d: nat): (c: char)
    requires d < 10
    ensures IsDigit(c) && c as int - '0' as int == d
  {
    (d + '0' as int) as char
  }

  /** The decimal digits of `n`, most significant first, without leading zeros. */
  function NatToDecimal(n: nat): (s: string)
    ensures |s| >= 1 && AllDigits(s)
    ensures |s| > 1 ==> s[0] != '0'
    decreases n
  {
    if n < 10 then [DigitChar(n)] else NatToDecimal(n / 10) + [DigitChar(n % 10)]
  }

  /** The value of a string of decimal digits. */
  function DecimalValue(s: string): nat
    requires AllDigits(s)
    decreases |s|
  {
    if s == [] then 0 else DecimalValue(s[..|s| - 1]) * 10 + (s[|s| - 1] as int - '0' as int)
  }

  lemma {:induction false} DecimalRoundTrip(n: nat)
    ensures DecimalValue(NatToDecimal(n)) == n
    decreases n
  {
    if n >= 10 {
      DecimalRoundTrip(n / 10);
      var s := NatToDecimal(n);
      assert s[..|s| - 1] == NatToDecimal(n / 10);
    }
  }

  /** Python's `str(n)` for an integer: an optional minus sign and the decimal digits. */
  function IntToString(n: int): (s: string)
    ensures |s| >= 1 && (AllDigits(s) || (s[0] == '-' && AllDigits(s[1..])))
  {
    if n < 0 then "-" + NatToDecimal(-n) else NatToDecimal(n)
  }

  /** An optional sign and at least one decimal digit, as `int()` accepts after stripping. */
  function ParseSigned(t: string): (r: Option<int>)
  {
    var negative := t != [] && t[0] == '-';
    var body := if t != [] && (t[0] == '-' || t[0] == '+') then t[1..] else t;
    if body != [] && AllDigits(body) then
      var v: int := DecimalValue(body);
      Some(if negative then -v else v)
    else None
  }

  /**
   * Python's `int(s)` on a string: surrounding whitespace is ignored, then an
   * optional sign and at least one decimal digit. `None` stands for the
   * `ValueError` raised on anything else.
   */
  function ParseInt(s: string): (r: Option<int>)
  {
    ParseSigned(Strip(s, IsPySpace))
  }

  /** Digits and the minus sign are not whitespace. */
  lemma SignOrDigitNotSpace(c: char)
    requires IsDigit(c) || c == '-'
    ensures !IsPySpace(c)
  {
  }

  /** What `str(n)` writes, `int()` reads back. */
  lemma ParseIntToString(n: int)
    ensures ParseInt(IntToString(n)) == Some(n)
  {
    var s := IntToString(n);
    var d := NatToDecimal(if n < 0 then -n else n);
    assert s[|s| - 1] == d[|d| - 1];
    SignOrDigitNotSpace(s[0]);
    SignOrDigitNotSpace(s[|s| - 1]);
    StripNoop(s, IsPySpace);
    if n < 0 {
      assert s[1..] == d;
      DecimalRoundTrip(-n);
    } else {
      DecimalRoundTrip(n);
    }
  }
}
