/**
 * The string operations the resolvers rely on: ordinal `string.Contains`,
 * `string.Split(char)` and `Int32.TryParse` with the default integer style.
 */
module Text {
  import opened Wrappers

  /** Ordinal substring test, as `string.Contains(string)`: `sub` occurs at some position of `s`. */
  predicate Contains(s: string, sub: string)
    ensures Contains(s, sub) ==> |sub| <= |s|
  {
    exists i :: 0 <= i <= |s| && OccursAt(s, sub, i)
  }

  /** `sub` starts at position `i` of `s`. */
  predicate OccursAt(s: string, sub: string, i: int) {
    0 <= i <= |s| - |sub| && s[i..i + |sub|] == sub
  }

  /**
   * The UTF-16 code units of one character: a character outside the Basic
   * Multilingual Plane (above U+FFFF) takes a surrogate pair.
   */
  function Utf16Units(c: char): nat {
    if c as int > 0xFFFF then 2 else 1
  }

  /**
   * `s.Length` in .NET: the number of UTF-16 code units, at least the number
   * of characters and at most twice it.
   */
  function Utf16Length(s: string): (n: nat)
    ensures |s| <= n <= 2 * |s|
  {
    if |s| == 0 then 0 else Utf16Units(s[0]) + Utf16Length(s[1..])
  }

  /**
   * The UTF-16 length equals the number of characters exactly when every
   * character lies in the Basic Multilingual Plane.
   */
  lemma {:induction false} Utf16LengthIsCharCount(s: string)
    ensures Utf16Length(s) == |s| <==> forall i :: 0 <= i < |s| ==> s[i] as int <= 0xFFFF
  {
    if |s| > 0 {
      Utf16LengthIsCharCount(s[1..]);
      assert forall i :: 1 <= i < |s| ==> s[i] == s[1..][i - 1];
    }
  }

  /** The empty string is contained in every string: an empty fragment filters nothing out. */
  lemma ContainsEmpty(s: string)
    ensures Contains(s, "")
  {
    assert OccursAt(s, "", 0);
  }

  /** Undoes `Split`: the segments put back together with the separator between them. */
  function Join(parts: seq<string>, sep: char): string
    requires |parts| >= 1
  {
    if |parts| == 1 then parts[0] else parts[0] + [sep] + Join(parts[1..], sep)
  }

  /**
   * `s.Split(sep)`: every maximal run between separators, empty runs included,
   * so there is always at least one segment.
   */
  function Split(s: string, sep: char): (parts: seq<string>)
    ensures |parts| >= 1
  {
    if |s| == 0 then [""]
    else
      var rest := Split(s[1..], sep);
      if s[0] == sep then [""] + rest
      else [[s[0]] + rest[0]] + rest[1..]
  }

  /** No segment contains the separator. */
  lemma {:induction false} SplitSegmentsExcludeSeparator(s: string, sep: char)
    ensures forall i :: 0 <= i < |Split(s, sep)| ==> sep !in Split(s, sep)[i]
  {
    if |s| > 0 {
      SplitSegmentsExcludeSeparator(s[1..], sep);
      var rest := Split(s[1..], sep);
      if s[0] != sep {
        assert forall i :: 1 <= i < |Split(s, sep)| ==> Split(s, sep)[i] == rest[i];
      }
    }
  }

  /** Splitting loses nothing: joining the segments gives back the original string. */
  lemma {:induction false} JoinSplit(s: string, sep: char)
    ensures Join(Split(s, sep), sep) == s
  {
    if |s| > 0 {
      var rest := Split(s[1..], sep);
      var parts := Split(s, sep);
      JoinSplit(s[1..], sep);
      assert [s[0]] + s[1..] == s;
      if s[0] == sep {
        assert parts[1..] == rest;
        assert Join(parts, sep) == [sep] + Join(rest, sep);
      } else if |rest| == 1 {
        assert parts == [[s[0]] + rest[0]];
      } else {
        assert parts[1..] == rest[1..];
        calc {
          Join(parts, sep);
          ([s[0]] + rest[0]) + [sep] + Join(rest[1..], sep);
          [s[0]] + (rest[0] + [sep] + Join(rest[1..], sep));
          [s[0]] + Join(rest, sep);
        }
      }
    }
  }

  /** A string without the separator is a single segment. */
  lemma {:induction false} SplitWithoutSeparator(s: string, sep: char)
    requires sep !in s
    ensures Split(s, sep) == [s]
  {
    if |s| > 0 {
      SplitWithoutSeparator(s[1..], sep);
      assert [s[0]] + s[1..] == s;
    }
  }

  // ---------------------------------------------------------------------------
  // Int32.TryParse(s, out n) with NumberStyles.Integer: optional white space on
  // both sides, an optional leading sign, at least one decimal digit, and a
  // value that fits in a 32-bit signed integer.
  // ---------------------------------------------------------------------------

  const Int32Min: int := -0x8000_0000
  const Int32Max: int := 0x7FFF_FFFF

  /** The white space NumberStyles.AllowLeadingWhite/AllowTrailingWhite skip: U+0009 to U+000D and U+0020. */
  predicate IsWhite(c: char) {
    c == ' ' || '\t' <= c <= '\r'
  }

  function TrimStart(s: string): (t: string)
    ensures |t| <= |s| && (|t| > 0 ==> !IsWhite(t[0]))
  {
    if |s| > 0 && IsWhite(s[0]) then TrimStart(s[1..]) else s
  }

  function TrimEnd(s: string): (t: string)
    ensures |t| <= |s| && (|t| > 0 ==> !IsWhite(t[|t| - 1]))
  {
    if |s| > 0 && IsWhite(s[|s| - 1]) then TrimEnd(s[..|s| - 1]) else s
  }

  predicate IsDigit(c: char) {
    '0' <= c <= '9'
  }

  /** A non-empty run of decimal digits. */
  predicate IsDigits(s: string) {
    |s| > 0 && forall i :: 0 <= i < |s| ==> IsDigit(s[i])
  }

  function DigitValue(c: char): nat
    requires IsDigit(c)
  {
    (c - '0') as nat
  }

  /** The value of a run of decimal digits, most significant first. */
  function DigitsValue(s: string): nat
    requires forall i :: 0 <= i < |s| ==> IsDigit(s[i])
  {
    if |s| == 0 then 0 else 10 * DigitsValue(s[..|s| - 1]) + DigitValue(s[|s| - 1])
  }

  predicate InInt32Range(n: int) {
    Int32Min <= n <= Int32Max
  }

  /** `Int32.TryParse(s, out n)`: Some(n) when it returns true, None when it returns false. */
  function ParseInt32(s: string): (r: Option<int>)
    ensures r.Some? ==> InInt32Range(r.value)
    ensures r.Some? ==> exists i :: 0 <= i < |s| && IsDigit(s[i])
  {
    var t := TrimEnd(TrimStart(s));
    var negative := |t| > 0 && t[0] == '-';
    var digits := if |t| > 0 && (t[0] == '-' || t[0] == '+') then t[1..] else t;
    if !IsDigits(digits) then None
    else
      var n: int := if negative then -(DigitsValue(digits) as int) else DigitsValue(digits);
      if InInt32Range(n) then
        assert IsDigit(digits[0]);
        TrimmedDigitIn(s, digits[0]);
        Some(n)
      else None
  }

  /** Every character that survives trimming comes from the original string. */
  lemma TrimmedDigitIn(s: string, c: char)
    requires c in TrimEnd(TrimStart(s))
    ensures c in s
  {
    TrimEndIn(TrimStart(s), c);
    TrimStartIn(s, c);
  }

  lemma {:induction false} TrimStartIn(s: string, c: char)
    requires c in TrimStart(s)
    ensures c in s
  {
    if |s| > 0 && IsWhite(s[0]) {
      TrimStartIn(s[1..], c);
    }
  }

  lemma {:induction false} TrimEndIn(s: string, c: char)
    requires c in TrimEnd(s)
    ensures c in s
  {
    if |s| > 0 && IsWhite(s[|s| - 1]) {
      TrimEndIn(s[..|s| - 1], c);
    }
  }

  /** The canonical decimal digits of a natural number, as `n.ToString()` renders them. */
  function NatDigits(n: nat): (s: string)
    ensures IsDigits(s)
  {
    if n < 10 then ['0' + n as char]
    else NatDigits(n / 10) + ['0' + (n % 10) as char]
  }

  /** `n.ToString()` for a 32-bit integer (invariant culture). */
  function Int32ToString(n: int): string
    requires InInt32Range(n)
  {
    if n < 0 then "-" + NatDigits(-n) else NatDigits(n)
  }

  lemma {:induction false} DigitsValueOfNatDigits(n: nat)
    ensures DigitsValue(NatDigits(n)) == n
  {
    if n >= 10 {
      DigitsValueOfNatDigits(n / 10);
      var s := NatDigits(n);
      assert s[..|s| - 1] == NatDigits(n / 10);
    }
  }

  /** Parsing the decimal rendering of any 32-bit integer gives that integer back: the token path accepts every token. */
  lemma ParseInt32RoundTrip(n: int)
    requires InInt32Range(n)
    ensures ParseInt32(Int32ToString(n)) == Some(n)
  {
    var s := Int32ToString(n);
    var d := NatDigits(if n < 0 then -n else n);
    DigitsValueOfNatDigits(if n < 0 then -n else n);
    assert !IsWhite(d[0]) && !IsWhite(d[|d| - 1]);
    assert TrimStart(s) == s;
    assert TrimEnd(s) == s;
    if n < 0 {
      assert s[1..] == d;
    }
  }
}
