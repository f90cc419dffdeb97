/** The string operations of the web platform and of JavaScript that the
    adapters build their URLs, status lines and header values with. */
module Text {
  import opened Base

  predicate IsDigit(c: char)
  {
    '0' <= c <= '9'
  }

  function DigitChar(d: nat): (c: char)
    requires d < 10
    ensures IsDigit(c)
  {
    ('0' as int + d) as char
  }

  function DigitValue(c: char): nat
    requires IsDigit(c)
  {
    c as int - '0' as int
  }

  /** `${n}` for a non-negative integer: its decimal digits, without leading zeros. */
  function Decimal(n: nat): (s: string)
    ensures 1 <= |s|
    ensures forall i :: 0 <= i < |s| ==> IsDigit(s[i])
    ensures s[0] == '0' ==> n == 0
    decreases n
  {
    if n < 10 then [DigitChar(n)] else Decimal(n / 10) + [DigitChar(n % 10)]
  }

  /** The number a string of decimal digits denotes. */
  function DecimalValue(s: string): nat
    requires forall i :: 0 <= i < |s| ==> IsDigit(s[i])
  {
    if s == [] then 0 else DecimalValue(s[..|s| - 1]) * 10 + DigitValue(s[|s| - 1])
  }

  /** Reading the digits back gives the number: `Decimal` loses nothing. */
  lemma {:induction false} DecimalRoundTrip(n: nat)
    ensures DecimalValue(Decimal(n)) == n
    decreases n
  {
    var s := Decimal(n);
    if n >= 10 {
      assert s[..|s| - 1] == Decimal(n / 10);
      DecimalRoundTrip(n / 10);
      assert DigitValue(s[|s| - 1]) == n % 10;
    }
  }

  /** The byte with value `x`, for `0 <= x < 256`. */
  function Byte(x: nat): (b: byte)
    ensures x < 256 ==> b as int == x
  {
    if x < 256 then x as byte else (x % 256) as byte
  }

  /** The UTF-8 encoding of one Unicode scalar value. */
  function Utf8(c: char): (b: seq<byte>)
    ensures 1 <= |b| <= 4
    ensures (c as int < 0x80) <==> |b| == 1
    ensures |b| == 1 ==> b[0] as int == c as int
  {
    var n := c as int;
    if n < 0x80 then [Byte(n)]
    else if n < 0x800 then [Byte(0xC0 + n / 64), Byte(0x80 + n % 64)]
    else if n < 0x10000 then [Byte(0xE0 + n / 4096), Byte(0x80 + (n / 64) % 64), Byte(0x80 + n % 64)]
    else [Byte(0xF0 + n / 262144), Byte(0x80 + (n / 4096) % 64), Byte(0x80 + (n / 64) % 64), Byte(0x80 + n % 64)]
  }

  /** The characters `encodeURIComponent` leaves alone. */
  predicate Unreserved(c: char)
  {
    || 'A' <= c <= 'Z' || 'a' <= c <= 'z' || '0' <= c <= '9'
    || c == '-' || c == '_' || c == '.' || c == '!' || c == '~' || c == '*' || c == '\'' || c == '(' || c == ')'
  }

  /** The characters `encodeURIComponent` can produce. */
  predicate UriSafe(c: char)
  {
    Unreserved(c) || c == '%'
  }

  function HexDigit(d: nat): (c: char)
    requires d < 16
    ensures Unreserved(c)
  {
    if d < 10 then ('0' as int + d) as char else ('A' as int + d - 10) as char
  }

  /** `%XX` for each byte, upper-case hexadecimal. */
  function PercentBytes(bs: seq<byte>): (r: string)
    ensures |r| == 3 * |bs|
    ensures forall i :: 0 <= i < |r| ==> UriSafe(r[i])
  {
    if bs == [] then []
    else ['%', HexDigit(bs[0] as int / 16), HexDigit(bs[0] as int % 16)] + PercentBytes(bs[1..])
  }

  /** `encodeURIComponent(s)` */
  function EncodeURIComponent(s: string): (r: string)
    ensures forall i :: 0 <= i < |r| ==> UriSafe(r[i])
    ensures (forall i :: 0 <= i < |s| ==> Unreserved(s[i])) ==> r == s
    ensures |s| <= |r|
  {
    if s == [] then []
    else
      var head := if Unreserved(s[0]) then [s[0]] else PercentBytes(Utf8(s[0]));
      head + EncodeURIComponent(s[1..])
  }

  /** ECMAScript WhiteSpace and LineTerminator, the characters `trim()` removes. */
  predicate IsWhitespace(c: char)
  {
    var n := c as int;
    || n == 0x09 || n == 0x0A || n == 0x0B || n == 0x0C || n == 0x0D || n == 0x20
    || n == 0xA0 || n == 0x1680 || 0x2000 <= n <= 0x200A || n == 0x2028 || n == 0x2029
    || n == 0x202F || n == 0x205F || n == 0x3000 || n == 0xFEFF
  }

  /** `trimStart()`: the longest suffix that does not start with whitespace. */
  function TrimStart(s: string): (r: string)
    ensures |r| <= |s| && r == s[|s| - |r|..]
    ensures forall i :: 0 <= i < |s| - |r| ==> IsWhitespace(s[i])
    ensures r == [] || !IsWhitespace(r[0])
  {
    if s != [] && IsWhitespace(s[0]) then TrimStart(s[1..]) else s
  }

  /** `trimEnd()`: the longest prefix that does not end with whitespace. */
  function TrimEnd(s: string): (r: string)
    ensures |r| <= |s| && r == s[..|r|]
    ensures forall i :: |r| <= i < |s| ==> IsWhitespace(s[i])
    ensures r == [] || !IsWhitespace(r[|r| - 1])
  {
    if s != [] && IsWhitespace(s[|s| - 1]) then TrimEnd(s[..|s| - 1]) else s
  }

  /** `trim()` */
  function Trim(s: string): (r: string)
  {
    TrimEnd(TrimStart(s))
  }

  /** `trim()` keeps the contiguous piece of its input that starts after the
      leading whitespace; only whitespace lies outside it, and it neither
      starts nor ends with whitespace. */
  lemma TrimShape(s: string) returns (k: nat, r: string)
    ensures k == |s| - |TrimStart(s)| && r == Trim(s)
    ensures k + |r| <= |s| && r == s[k..k + |r|]
    ensures forall i :: 0 <= i < k ==> IsWhitespace(s[i])
    ensures forall i :: k + |r| <= i < |s| ==> IsWhitespace(s[i])
    ensures r == [] || (!IsWhitespace(r[0]) && !IsWhitespace(r[|r| - 1]))
  {
    var t := TrimStart(s);
    k := |s| - |t|;
    r := TrimEnd(t);
    TrimSlice(s, t, r, k);
  }

  /** The shape of `trim()` from the shapes of `trimStart()` (giving `t`) and
      of `trimEnd()` on it (giving `r`). */
  lemma TrimSlice(s: string, t: string, r: string, k: nat)
    requires k <= |s| && t == s[k..]
    requires forall i :: 0 <= i < k ==> IsWhitespace(s[i])
    requires t == [] || !IsWhitespace(t[0])
    requires |r| <= |t| && r == t[..|r|]
    requires forall i :: |r| <= i < |t| ==> IsWhitespace(t[i])
    requires r == [] || !IsWhitespace(r[|r| - 1])
    ensures k + |r| <= |s| && r == s[k..k + |r|]
    ensures forall i :: 0 <= i < k ==> IsWhitespace(s[i])
    ensures forall i :: k + |r| <= i < |s| ==> IsWhitespace(s[i])
    ensures r == [] || (!IsWhitespace(r[0]) && !IsWhitespace(r[|r| - 1]))
  {
    forall i | k + |r| <= i < |s|
      ensures IsWhitespace(s[i])
    {
      assert s[i] == t[i - k];
    }
    if r != [] {
      assert r[0] == t[0];
    }
  }

  /** `trim()` only drops characters: whatever it keeps was in its input. */
  lemma TrimKeepsOnly(s: string)
    ensures forall c :: c in Trim(s) ==> c in s
  {
    var j, t := TrimShape(s);
    forall c | c in t
      ensures c in s
    {
      var i :| 0 <= i < |t| && t[i] == c;
      assert t[i] == s[j + i];
    }
  }

  /** `s.split(",")[0]`: everything before the first comma. */
  function FirstField(s: string): (r: string)
    ensures |r| <= |s| && r == s[..|r|]
    ensures ',' !in r
    ensures |r| < |s| ==> s[|r|] == ','
  {
    if s == [] || s[0] == ',' then [] else [s[0]] + FirstField(s[1..])
  }

  /** `parts.join(sep)` */
  function Join(parts: seq<string>, sep: string): string
  {
    if parts == [] then ""
    else if |parts| == 1 then parts[0]
    else parts[0] + sep + Join(parts[1..], sep)
  }

  /** The values of the entries called `name`, in order. */
  function ValuesOf(h: Headers, name: string): (vs: seq<string>)
    ensures |vs| <= |h|
    ensures vs == [] <==> forall i :: 0 <= i < |h| ==> h[i].0 != name
  {
    if h == [] then []
    else (if h[0].0 == name then [h[0].1] else []) + ValuesOf(h[1..], name)
  }

  /** `headers.get(name)`: `null` when absent, otherwise every value of that name joined by ", ". */
  function HeadersGet(h: Headers, name: string): (r: Option<string>)
    ensures r.None? <==> forall i :: 0 <= i < |h| ==> h[i].0 != name
  {
    var vs := ValuesOf(h, name);
    if vs == [] then None else Some(Join(vs, ", "))
  }

  /** With a single entry of that name, `get` answers its value. */
  lemma {:induction false} HeadersGetSingle(h: Headers, name: string, k: nat)
    requires k < |h| && h[k].0 == name
    requires forall i :: 0 <= i < |h| && i != k ==> h[i].0 != name
    ensures HeadersGet(h, name) == Some(h[k].1)
  {
    SingleValue(h, name, k);
  }

  lemma {:induction false} SingleValue(h: Headers, name: string, k: nat)
    requires k < |h| && h[k].0 == name
    requires forall i :: 0 <= i < |h| && i != k ==> h[i].0 != name
    ensures ValuesOf(h, name) == [h[k].1]
  {
    if k == 0 {
      assert ValuesOf(h[1..], name) == [] by {
        assert forall i :: 0 <= i < |h[1..]| ==> h[1..][i].0 == h[i + 1].0;
      }
    } else {
      SingleValue(h[1..], name, k - 1);
    }
  }

  const CRLF := "\r\n"

  /** Cuts a string at every CRLF, the way an HTTP/1.1 reader separates the
      lines of a message head. */
  function SplitCrlf(s: string): (lines: seq<string>)
    ensures |lines| >= 1
    decreases |s|
  {
    if s == [] then [""]
    else if |s| >= 2 && s[0] == '\r' && s[1] == '\n' then [""] + SplitCrlf(s[2..])
    else
      var rest := SplitCrlf(s[1..]);
      [[s[0]] + rest[0]] + rest[1..]
  }

  /** A line without CR, followed by CRLF, is split off as one line. */
  lemma {:induction false} SplitCrlfLine(line: string, tail: string)
    requires '\r' !in line
    ensures SplitCrlf(line + CRLF + tail) == [line] + SplitCrlf(tail)
    decreases |line|
  {
    var s := line + CRLF + tail;
    if line == [] {
      assert s[2..] == tail;
    } else {
      assert s[0] == line[0];
      assert s[1..] == line[1..] + CRLF + tail;
      SplitCrlfLine(line[1..], tail);
      assert [line[0]] + line[1..] == line;
    }
  }

  /** Joining CR-free lines with CRLF and splitting at CRLF gives the lines back. */
  lemma {:induction false} SplitJoinedLines(lines: seq<string>, tail: string)
    requires |lines| >= 1
    requires forall i :: 0 <= i < |lines| ==> '\r' !in lines[i]
    ensures SplitCrlf(Join(lines, CRLF) + CRLF + tail) == lines + SplitCrlf(tail)
    decreases |lines|
  {
    if |lines| == 1 {
      SplitCrlfLine(lines[0], tail);
    } else {
      var rest := Join(lines[1..], CRLF);
      assert Join(lines, CRLF) == lines[0] + CRLF + rest;
      assert Join(lines, CRLF) + CRLF + tail == lines[0] + CRLF + (rest + CRLF + tail);
      SplitCrlfLine(lines[0], rest + CRLF + tail);
      SplitJoinedLines(lines[1..], tail);
      assert [lines[0]] + lines[1..] == lines;
    }
  }
}
