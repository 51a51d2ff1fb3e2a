/** The PHP string builtins the two plugins rely on, with the edge cases PHP gives them:
    `empty()`, `trim()`, `explode()`, `rtrim($s, '/')`, `substr($s, 0, n)`,
    integer interpolation into a string, and `bin2hex()`. */
module PhpStrings {

  datatype Option<+T> = None | Some(value: T) {
    function GetOr(default: T): T {
      match this
      case Some(v) => v
      case None => default
    }
  }

  /** A byte, as produced by `random_bytes`. */
  newtype byte = x: int | 0 <= x < 256

  /** PHP's `empty()` on a string: true for "" and also for "0" -- but not for "00" or " 0". */
  predicate IsEmpty(s: string)
    ensures IsEmpty(s) <==> |s| < 2 && forall i :: 0 <= i < |s| ==> s[i] == '0'
  {
    assert |s| == 1 ==> s == [s[0]];
    s == "" || s == "0"
  }

  /** The characters PHP's `trim()` strips by default: " \t\n\r\0\x0B". */
  predicate IsBlank(c: char) {
    c == ' ' || c == '\t' || c == '\n' || c == '\r' || c == '\0' || c == '\U{000B}'
  }

  /** `ltrim($s)`: drops the leading blanks and nothing else. */
  function TrimStart(s: string): (r: string)
    ensures |r| <= |s| && r == s[|s| - |r|..]
    ensures forall i :: 0 <= i < |s| - |r| ==> IsBlank(s[i])
    ensures r == [] || !IsBlank(r[0])
  {
    if |s| > 0 && IsBlank(s[0]) then TrimStart(s[1..]) else s
  }

  /** A leading blank is dropped by `ltrim`. */
  lemma TrimStartSkipsBlank(c: char, s: string)
    requires IsBlank(c)
    ensures TrimStart([c] + s) == TrimStart(s)
  {
    assert ([c] + s)[1..] == s;
  }

  /** `rtrim($s)`: drops the trailing blanks and nothing else. */
  function TrimEnd(s: string): (r: string)
    ensures |r| <= |s| && r == s[..|r|]
    ensures forall i :: |r| <= i < |s| ==> IsBlank(s[i])
    ensures r == [] || !IsBlank(r[|r| - 1])
  {
    if |s| > 0 && IsBlank(s[|s| - 1]) then TrimEnd(s[..|s| - 1]) else s
  }

  /** `r` occurs in `s` starting at index `lead`. */
  predicate IsSliceAt(s: string, lead: int, r: string) {
    0 <= lead <= |s| - |r| && s[lead..lead + |r|] == r
  }

  /** `trim($s)`: the longest infix of `s` that neither starts nor ends with a blank,
      obtained by dropping blanks only. */
  function Trim(s: string): (r: string)
    ensures |r| <= |s|
    ensures r == [] || (!IsBlank(r[0]) && !IsBlank(r[|r| - 1]))
    ensures exists lead ::
              && IsSliceAt(s, lead, r)
              && (forall i :: 0 <= i < lead ==> IsBlank(s[i]))
              && (forall i :: lead + |r| <= i < |s| ==> IsBlank(s[i]))
  {
    var t := TrimStart(s);
    var r := TrimEnd(t);
    PrefixOfSuffix(s, t, r);
    r
  }

  /** A blank-free-ended prefix of a suffix of `s`, cut off by blanks on both sides, is a
      slice of `s` with only blanks around it. */
  lemma PrefixOfSuffix(s: string, t: string, r: string)
    requires |t| <= |s| && t == s[|s| - |t|..]
    requires forall i :: 0 <= i < |s| - |t| ==> IsBlank(s[i])
    requires |r| <= |t| && r == t[..|r|]
    requires forall i :: |r| <= i < |t| ==> IsBlank(t[i])
    ensures IsSliceAt(s, |s| - |t|, r)
    ensures forall i :: 0 <= i < |s| - |t| ==> IsBlank(s[i])
    ensures forall i :: |s| - |t| + |r| <= i < |s| ==> IsBlank(s[i])
  {
    var lead := |s| - |t|;
    assert s[lead..lead + |r|] == t[..|r|];
    forall i | lead + |r| <= i < |s|
      ensures IsBlank(s[i])
    {
      assert s[i] == t[i - lead];
    }
  }

  /** A string with no blank at either end is its own trim. */
  lemma TrimKeepsClean(s: string)
    requires s == [] || (!IsBlank(s[0]) && !IsBlank(s[|s| - 1]))
    ensures Trim(s) == s
  {
  }

  /** The inverse of `explode`: the parts joined with the separator between them. */
  function Implode(sep: char, parts: seq<string>): string
    requires |parts| >= 1
  {
    if |parts| == 1 then parts[0] else parts[0] + [sep] + Implode(sep, parts[1..])
  }

  /** `explode($sep, $s)` for a one-character separator: never empty (`explode(',', '')`
      is `['']`), no part contains the separator, and imploding gives `s` back. */
  function Explode(sep: char, s: string): (parts: seq<string>)
    ensures |parts| >= 1
    ensures forall i :: 0 <= i < |parts| ==> sep !in parts[i]
    ensures Implode(sep, parts) == s
  {
    if s == [] then [""]
    else
      var rest := Explode(sep, s[1..]);
      if s[0] == sep then
        assert ([""] + rest)[1..] == rest;
        [""] + rest
      else
        var parts := [[s[0]] + rest[0]] + rest[1..];
        assert parts[1..] == rest[1..];
        assert s == [s[0]] + s[1..];
        parts
  }

  /** `explode` is the only way to cut a string into separator-free parts that implode to it. */
  lemma {:induction false} ExplodeUnique(sep: char, s: string, parts: seq<string>)
    requires |parts| >= 1
    requires forall i :: 0 <= i < |parts| ==> sep !in parts[i]
    requires Implode(sep, parts) == s
    ensures parts == Explode(sep, s)
    decreases |s|, |parts[0]|
  {
    if |parts| == 1 {
      if s != [] {
        var p := [s[1..]];
        assert Implode(sep, p) == s[1..];
        ExplodeUnique(sep, s[1..], p);
      }
    } else if parts[0] == [] {
      var tail := parts[1..];
      assert s == [sep] + Implode(sep, tail);
      assert s[1..] == Implode(sep, tail);
      ExplodeUnique(sep, s[1..], tail);
      assert parts == [""] + tail;
    } else {
      var p := [parts[0][1..]] + parts[1..];
      assert forall i :: 1 <= i < |p| ==> p[i] == parts[i];
      assert parts[0] == [parts[0][0]] + parts[0][1..];
      assert Implode(sep, parts) == [parts[0][0]] + Implode(sep, p) by {
        if |parts| > 1 {
          assert p[1..] == parts[1..];
        }
      }
      assert s[0] == parts[0][0] && s[0] != sep;
      assert s[1..] == Implode(sep, p);
      ExplodeUnique(sep, s[1..], p);
      assert parts == [[s[0]] + p[0]] + p[1..];
    }
  }

  /** `rtrim($s, $c)`: drops every trailing `c`, and nothing else. */
  function TrimTrailing(s: string, c: char): (r: string)
    ensures |r| <= |s| && r == s[..|r|]
    ensures forall i :: |r| <= i < |s| ==> s[i] == c
    ensures r == [] || r[|r| - 1] != c
  {
    if |s| > 0 && s[|s| - 1] == c then TrimTrailing(s[..|s| - 1], c) else s
  }

  /** `substr($s, 0, $n)` for n >= 0: the first n characters, or all of a shorter string. */
  function Prefix(s: string, n: nat): (r: string)
    ensures |r| <= n && |r| <= |s| && r == s[..|r|]
    ensures |r| == n || r == s
  {
    if |s| <= n then s else s[..n]
  }

  predicate IsDigit(c: char) {
    '0' <= c <= '9'
  }

  function DigitChar(d: nat): (c: char)
    requires d < 10
    ensures IsDigit(c)
  {
    ('0' as int + d) as char
  }

  function DigitValue(c: char): (d: nat)
    requires IsDigit(c)
    ensures d < 10 && DigitChar(d) == c
  {
    (c as int) - ('0' as int)
  }

  /** An integer interpolated into a PHP string: its decimal digits, no leading zero. */
  function NatToString(n: nat): (s: string)
    ensures |s| >= 1 && (s[0] == '0' ==> n == 0)
    ensures forall i :: 0 <= i < |s| ==> IsDigit(s[i])
  {
    if n < 10 then [DigitChar(n)] else NatToString(n / 10) + [DigitChar(n % 10)]
  }

  /** The value of a string of decimal digits. */
  function DecimalValue(s: string): nat
    requires forall i :: 0 <= i < |s| ==> IsDigit(s[i])
  {
    if s == [] then 0 else DecimalValue(s[..|s| - 1]) * 10 + DigitValue(s[|s| - 1])
  }

  lemma {:induction false} DecimalRoundTrip(n: nat)
    ensures DecimalValue(NatToString(n)) == n
  {
    if n >= 10 {
      var s := NatToString(n);
      assert s[..|s| - 1] == NatToString(n / 10);
      DecimalRoundTrip(n / 10);
    }
  }

  /** The longest run of decimal digits at the start of `s`. */
  function LeadingDigits(s: string): (d: string)
    ensures |d| <= |s| && d == s[..|d|]
    ensures forall i :: 0 <= i < |d| ==> IsDigit(s[i])
    ensures |d| < |s| ==> !IsDigit(s[|d|])
  {
    if s != [] && IsDigit(s[0]) then [s[0]] + LeadingDigits(s[1..]) else []
  }

  /** A digit string followed by a non-digit is read back exactly by LeadingDigits. */
  lemma {:induction false} LeadingDigitsOfConcat(d: string, rest: string)
    requires forall i :: 0 <= i < |d| ==> IsDigit(d[i])
    requires rest == [] || !IsDigit(rest[0])
    ensures LeadingDigits(d + rest) == d
  {
    if d != [] {
      assert (d + rest)[1..] == d[1..] + rest;
      LeadingDigitsOfConcat(d[1..], rest);
    }
  }

  predicate IsLowerHex(c: char) {
    IsDigit(c) || 'a' <= c <= 'f'
  }

  function HexChar(d: nat): (c: char)
    requires d < 16
    ensures IsLowerHex(c)
  {
    if d < 10 then DigitChar(d) else ('a' as int + d - 10) as char
  }

  function HexValue(c: char): (d: nat)
    requires IsLowerHex(c)
    ensures d < 16 && HexChar(d) == c
  {
    if IsDigit(c) then (c as int) - ('0' as int) else (c as int) - ('a' as int) + 10
  }

  /** `bin2hex($bytes)`: two lower-case hex digits per byte, high nibble first. */
  function BinToHex(bytes: seq<byte>): (h: string)
    ensures |h| == 2 * |bytes|
    ensures forall i :: 0 <= i < |h| ==> IsLowerHex(h[i])
  {
    if bytes == [] then []
    else [HexChar(bytes[0] as nat / 16), HexChar(bytes[0] as nat % 16)] + BinToHex(bytes[1..])
  }

  /** `hex2bin($h)` on lower-case hex of even length. */
  function HexToBin(h: string): seq<byte>
    requires |h| % 2 == 0
    requires forall i :: 0 <= i < |h| ==> IsLowerHex(h[i])
  {
    if h == [] then [] else [(HexValue(h[0]) * 16 + HexValue(h[1])) as byte] + HexToBin(h[2..])
  }

  lemma {:induction false} HexRoundTrip(bytes: seq<byte>)
    ensures HexToBin(BinToHex(bytes)) == bytes
  {
    if bytes != [] {
      var h := BinToHex(bytes);
      assert h[2..] == BinToHex(bytes[1..]);
      HexRoundTrip(bytes[1..]);
    }
  }

  /** Distinct random byte strings give distinct keys. */
  lemma BinToHexInjective(a: seq<byte>, b: seq<byte>)
    requires BinToHex(a) == BinToHex(b)
    ensures a == b
  {
    HexRoundTrip(a);
    HexRoundTrip(b);
  }
}
