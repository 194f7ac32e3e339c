/** Bluetooth addresses as text: the in-place colon filter, validator, hex decoder and printer. */
module BdAddr {
  import opened Types
  import opened CStrings

  const ADDR_WITH_COLON_LEN: nat := 17
  const ADDR_WITHOUT_COLON_LEN: nat := 12
  const MAC_ADDR_STR_LEN: nat := 18

  // ----- removing a character

  function Without(s: string, c: char): (r: string)
    ensures |r| <= |s| && c !in r
    ensures |r| == |s| <==> c !in s
  {
    if s == [] then [] else if s[0] == c then Without(s[1..], c) else [s[0]] + Without(s[1..], c)
  }

  lemma {:induction false} WithoutConcat(a: string, b: string, c: char)
    ensures Without(a + b, c) == Without(a, c) + Without(b, c)
  {
    if a == [] {
      assert a + b == b;
    } else {
      var head, rest := if a[0] == c then [] else [a[0]], a[1..];
      WithoutConcat(rest, b, c);
      assert (a + b)[0] == a[0] && (a + b)[1..] == rest + b;
      assert Without(a + b, c) == head + Without(rest + b, c);
      assert Without(a, c) == head + Without(rest, c);
      Associative(head, Without(rest, c), Without(b, c));
    }
  }

  lemma {:induction false} WithoutAbsent(s: string, c: char)
    requires c !in s
    ensures Without(s, c) == s
  {
    if s != [] {
      WithoutAbsent(s[1..], c);
    }
  }

  lemma WithoutSnoc(s: string, k: nat, c: char)
    requires k < |s|
    ensures Without(s[..k + 1], c) == Without(s[..k], c) + (if s[k] == c then [] else [s[k]])
  {
    assert s[..k + 1] == s[..k] + [s[k]];
    WithoutConcat(s[..k], [s[k]], c);
  }

  lemma WithoutSubset(s: string, c: char)
    ensures forall x :: x in Without(s, c) ==> x in s
  {
  }

  /** The array starts with the string `s` and a NUL. */
  ghost predicate Spells(a: array<char>, s: string)
    reads a
  {
    |s| < a.Length && a[|s|] == NUL && NUL !in s && forall k :: 0 <= k < |s| ==> a[k] == s[k]
  }

  lemma SpelledString(a: array<char>, s: string)
    requires Spells(a, s)
    ensures CStr(a[..]) == s && Terminated(a[..])
  {
    assert a[..][|s|] == NUL && a[..][..|s|] == s;
    CStrIs(a[..], |s|);
  }

  lemma CStrSpelled(a: array<char>)
    requires Terminated(a[..])
    ensures Spells(a, CStr(a[..]))
  {
    var t := a[..];
    var s := CStr(t);
    assert s == t[..|s|] && (|s| == |t| ==> s == t);
    assert forall k :: 0 <= k < |s| ==> a[k] == t[..|s|][k];
  }

  /** The two pointers of the filter. */
  method FilterInPlace(str: array<char>, c: char, ghost s: string)
    requires Spells(str, s)
    modifies str
    ensures Spells(str, Without(s, c))
  {
    ghost var kept := [];
    var pr, pw := 0, 0;
    while str[pr] != NUL
      invariant pw <= pr <= |s|
      invariant forall k :: pr <= k < |s| ==> str[k] == s[k]
      invariant str[|s|] == NUL
      invariant |kept| == pw && kept == Without(s[..pr], c)
      invariant forall k :: 0 <= k < pw ==> str[k] == kept[k]
      decreases |s| - pr
    {
      WithoutSnoc(s, pr, c);
      str[pw] := str[pr];
      pr := pr + 1;
      if str[pw] != c {
        kept := kept + [str[pw]];
        pw := pw + 1;
      }
    }
    assert s[..pr] == s;
    str[pw] := NUL;
    WithoutSubset(s, c);
  }

  /** Afterwards the array holds the string without `c`. */
  method RemoveAllChars(str: array<char>, c: char)
    requires Terminated(str[..])
    modifies str
    ensures CStr(str[..]) == Without(CStr(old(str[..])), c)
    ensures Terminated(str[..])
  {
    ghost var s := CStr(str[..]);
    CStrSpelled(str);
    FilterInPlace(str, c, s);
    SpelledString(str, Without(s, c));
  }

  // ----- hex digits and bytes

  predicate IsHex(ch: char) {
    '0' <= ch <= '9' || 'A' <= ch <= 'F' || 'a' <= ch <= 'f'
  }

  function ConvertCharToHex(input: char): (v: byte)
    ensures v < 16
    ensures !IsHex(input) ==> v == 0
  {
    if '0' <= input <= '9' then (input as int - '0' as int) as byte
    else if 'A' <= input <= 'F' then (input as int - 'A' as int) as byte + 10
    else if 'a' <= input <= 'f' then (input as int - 'a' as int) as byte + 10
    else 0
  }

  function UpperDigit(v: byte): char
    requires v < 16
  {
    if v < 10 then ('0' as int + v as int) as char else ('A' as int + v as int - 10) as char
  }

  function ToUpper(ch: char): char {
    if 'a' <= ch <= 'f' then (ch as int - 'a' as int + 'A' as int) as char else ch
  }

  /** Printing a digit's value gives the digit in upper case; reading a printed value gives it back. */
  lemma DigitRoundTrip(ch: char, v: byte)
    requires v < 16
    ensures IsHex(UpperDigit(v)) && ConvertCharToHex(UpperDigit(v)) == v
    ensures IsHex(ch) ==> UpperDigit(ConvertCharToHex(ch)) == ToUpper(ch)
  {
  }

  /** The sixteen digits, in both cases. */
  lemma DigitTable(v: nat)
    requires v < 16
    ensures UpperDigit(v as byte) == "0123456789ABCDEF"[v]
    ensures ConvertCharToHex("0123456789ABCDEF"[v]) == v as byte
    ensures ConvertCharToHex("0123456789abcdef"[v]) == v as byte
    ensures IsHex("0123456789ABCDEF"[v]) && IsHex("0123456789abcdef"[v])
  {
    assert "0123456789ABCDEF"[v] == if v < 10 then ('0' as int + v) as char else ('A' as int + v - 10) as char;
    assert "0123456789abcdef"[v] == if v < 10 then ('0' as int + v) as char else ('a' as int + v - 10) as char;
  }

  /** No other character is a digit. */
  lemma OnlyDigitsAreHex(ch: char)
    ensures IsHex(ch) <==> ch in "0123456789ABCDEF" || ch in "0123456789abcdef"
  {
    if IsHex(ch) {
      var v := ConvertCharToHex(ch) as nat;
      DigitTable(v);
      assert "0123456789ABCDEF"[v] in "0123456789ABCDEF" && "0123456789abcdef"[v] in "0123456789abcdef";
      DigitRoundTrip(ch, 0);
    }
  }

  /** Two digits a byte; a last single digit is a high nibble. */
  function DecodeHex(s: string): (r: seq<byte>)
    ensures |r| == (|s| + 1) / 2
  {
    if s == [] then []
    else if |s| == 1 then [16 * ConvertCharToHex(s[0])]
    else [16 * ConvertCharToHex(s[0]) + ConvertCharToHex(s[1])] + DecodeHex(s[2..])
  }

  /** The byte that the digits at `2 * i` and `2 * i + 1` make. */
  function ByteAt(s: string, i: nat): byte
    requires 2 * i < |s|
  {
    16 * ConvertCharToHex(s[2 * i]) + (if 2 * i + 1 < |s| then ConvertCharToHex(s[2 * i + 1]) else 0)
  }

  lemma {:induction false} DecodeAt(s: string, i: nat)
    requires 2 * i < |s|
    ensures DecodeHex(s)[i] == ByteAt(s, i)
  {
    if i > 0 {
      DecodeAt(s[2..], i - 1);
      assert s[2..][2 * (i - 1)] == s[2 * i];
    }
  }

  /** The loop itself. The shifted nibble has its low four bits clear, so the source's
      `|=` adds. */
  method DecodePairs(input: array<char>, hexLength: nat, output: array<byte>, ghost hex: string) returns (length: nat)
    requires hexLength == |hex| <= input.Length && forall j :: 0 <= j < |hex| ==> hex[j] == input[j]
    requires output.Length >= (hexLength + 1) / 2
    modifies output
    ensures length == (|hex| + 1) / 2
    ensures forall k :: 0 <= k < length ==> output[k] == ByteAt(hex, k)
    ensures forall k :: length <= k < output.Length ==> output[k] == old(output[k])
  {
    length := 0;
    var i := 0;
    while i < hexLength
      invariant i == 2 * length && length <= (hexLength + 1) / 2
      invariant forall k :: 0 <= k < length ==> output[k] == ByteAt(hex, k)
      invariant forall k :: length <= k < output.Length ==> output[k] == old(output[k])
    {
      output[length] := 16 * ConvertCharToHex(input[i]);
      if i + 1 < hexLength {
        output[length] := output[length] + ConvertCharToHex(input[i + 1]);
      }
      length := length + 1;
      i := i + 2;
    }
  }

  lemma DecodedBytes(bytes: seq<byte>, hex: string)
    requires |bytes| == (|hex| + 1) / 2 && forall k :: 0 <= k < |bytes| ==> bytes[k] == ByteAt(hex, k)
    ensures bytes == DecodeHex(hex)
  {
    forall k | 0 <= k < |bytes| ensures bytes[k] == DecodeHex(hex)[k] {
      DecodeAt(hex, k);
    }
  }

  /** The source keeps the string's length in eight bits, so a text of 256 characters
      or more is decoded only up to its length modulo 256. */
  method ConvertHexStrToByteArray(input: array<char>, output: array<byte>) returns (length: nat)
    requires Terminated(input[..])
    requires output.Length >= (|CStr(input[..])| % 256 + 1) / 2
    modifies output
    ensures var hex := CStr(input[..])[..|CStr(input[..])| % 256];
            length == |DecodeHex(hex)| && output[..length] == DecodeHex(hex)
    ensures output[length..] == old(output[length..])
  {
    var n := StrLen(input);
    var hexLength := n % 256;
    CStrSpelled(input);
    ghost var hex := CStr(input[..])[..hexLength];
    length := DecodePairs(input, hexLength, output, hex);
    DecodedBytes(output[..length], hex);
  }

  // ----- the parser

  predicate ColonPattern(s: string) {
    |s| == 17 && s[2] == ':' && s[5] == ':' && s[8] == ':' && s[11] == ':' && s[14] == ':'
  }

  predicate AllHex(s: string) {
    forall i :: 0 <= i < |s| ==> IsHex(s[i])
  }

  /** The two accepted forms, position by position. */
  predicate Accepted(s: string) {
    || (|s| == 12 && AllHex(s))
    || (|s| == 17 && forall i :: 0 <= i < 17 ==> if i in {2, 5, 8, 11, 14} then s[i] == ':' else IsHex(s[i]))
  }

  /** The twelve digits of a text in either form. */
  function Digits(s: string): (d: string)
    requires |s| == 12 || |s| == 17
    ensures |d| == 12
  {
    seq(12, j requires 0 <= j < 12 => if |s| == 17 then s[j + j / 2] else s[j])
  }

  function ParseAddress(s: string): (r: seq<byte>)
    requires Accepted(s)
    ensures |r| == MAC_ADDR_LEN
  {
    DecodeHex(Digits(s))
  }

  lemma CutAt(s: string, k: nat, z: string)
    requires k + 3 <= |s| && s[k] == ':'
    ensures Without(s[..k + 3] + z, ':') == Without(s[..k] + (s[k + 1..k + 3] + z), ':')
  {
    var rest := s[k + 1..k + 3] + z;
    assert s[..k + 3] + z == s[..k] + ([':'] + rest);
    assert ([':'] + rest)[1..] == rest;
    WithoutConcat(s[..k], [':'] + rest, ':');
    WithoutConcat(s[..k], rest, ':');
  }

  lemma FilterColonPattern(s: string)
    requires ColonPattern(s)
    ensures Without(s, ':') == Without(Digits(s), ':')
  {
    var z1 := s[15..17] + [];
    var z2 := s[12..14] + z1;
    var z3 := s[9..11] + z2;
    var z4 := s[6..8] + z3;
    var z5 := s[3..5] + z4;
    assert s[..17] + [] == s;
    CutAt(s, 14, []);
    CutAt(s, 11, z1);
    CutAt(s, 8, z2);
    CutAt(s, 5, z3);
    CutAt(s, 2, z4);
    PairsOfDigits(s, s[..2] + z5);
  }

  lemma PairsOfDigits(s: string, d: string)
    requires |s| == 17
    requires d == s[..2] + (s[3..5] + (s[6..8] + (s[9..11] + (s[12..14] + (s[15..17] + [])))))
    ensures d == Digits(s)
  {
    assert d[0] == s[0] && d[1] == s[1] && d[2] == s[3] && d[3] == s[4];
    assert d[4] == s[6] && d[5] == s[7] && d[6] == s[9] && d[7] == s[10];
    assert d[8] == s[12] && d[9] == s[13] && d[10] == s[15] && d[11] == s[16];
  }

  /** Separators stand at 2, 5, 8, 11 and 14; the digits are what lies between. */
  lemma DigitPositions(s: string, i: nat)
    requires |s| == 17 && i < 17 && i % 3 != 2
    ensures s[i] == Digits(s)[i - i / 3]
  {
  }

  lemma ColonPatternAccepted(s: string)
    requires ColonPattern(s)
    ensures Accepted(s) <==> |Without(s, ':')| == 12 && AllHex(Without(s, ':'))
    ensures Accepted(s) ==> Without(s, ':') == Digits(s)
  {
    FilterColonPattern(s);
    var d := Digits(s);
    if AllHex(d) {
      WithoutAbsent(d, ':');
      forall i | 0 <= i < 17 ensures if i in {2, 5, 8, 11, 14} then s[i] == ':' else IsHex(s[i]) {
        if i % 3 != 2 { DigitPositions(s, i); }
      }
    }
    if Accepted(s) {
      AcceptedDigits(s);
    }
    if ':' !in d {
      WithoutAbsent(d, ':');
    }
  }

  lemma AcceptedDigits(s: string)
    requires Accepted(s)
    ensures AllHex(Digits(s))
  {
  }

  method ConvertStrToBdAddr(str: array?<char>, addr: array?<byte>) returns (status: Status)
    requires str != null ==> Terminated(str[..])
    requires addr != null ==> addr.Length == MAC_ADDR_LEN
    modifies str, addr
    ensures status == Ok || status == BadParam
    ensures status == Ok <==> str != null && addr != null && Accepted(CStr(old(str[..])))
    ensures status == Ok ==> addr[..] == ParseAddress(CStr(old(str[..])))
    ensures status != Ok && addr != null ==> addr[..] == old(addr[..])
    ensures str != null && !(addr != null && ColonPattern(CStr(old(str[..])))) ==> str[..] == old(str[..])
    ensures str != null && addr != null && ColonPattern(CStr(old(str[..]))) ==>
              CStr(str[..]) == Without(CStr(old(str[..])), ':')
  {
    if str == null || addr == null {
      return BadParam;
    }
    ghost var s := CStr(str[..]);
    var length := StrLen(str);
    if length != ADDR_WITH_COLON_LEN && length != ADDR_WITHOUT_COLON_LEN {
      return BadParam;
    }
    if length == ADDR_WITH_COLON_LEN && str[2] == ':' && str[5] == ':' && str[8] == ':' && str[11] == ':' &&
       str[14] == ':' {
      ColonPatternAccepted(s);
      RemoveAllChars(str, ':');
    }
    ghost var t := CStr(str[..]);
    var n := StrLen(str);
    if n != ADDR_WITHOUT_COLON_LEN {
      return BadParam;
    }
    for i := 0 to ADDR_WITHOUT_COLON_LEN
      invariant forall j :: 0 <= j < i ==> IsHex(str[j])
    {
      if !IsHex(str[i]) {
        assert t[i] == str[i] && !IsHex(t[i]);
        return BadParam;
      }
    }
    assert AllHex(t);
    assert t[..12] == t;
    assert Accepted(s) && t == Digits(s);
    length := ConvertHexStrToByteArray(str, addr);
    if length != MAC_ADDR_LEN {
      assert false;
    }
    assert addr[..] == addr[..length];
    return Ok;
  }

  // ----- the printer

  function PrintByte(b: byte): (r: string)
    ensures |r| == 2
  {
    [UpperDigit(b / 16), UpperDigit(b % 16)]
  }

  /** Two upper-case digits a byte, separated by colons. */
  function PrintAddress(a: seq<byte>): (r: string)
    requires |a| == MAC_ADDR_LEN
    ensures |r| == 17
  {
    seq(17, k requires 0 <= k < 17 => if k % 3 == 2 then ':' else PrintByte(a[k / 3])[k % 3])
  }

  method ConvertBdAddrToStr(addr: array<byte>, out: array<char>)
    requires addr.Length == MAC_ADDR_LEN && out.Length >= MAC_ADDR_STR_LEN
    modifies out
    ensures CStr(out[..]) == PrintAddress(addr[..]) && Terminated(out[..])
  {
    var text := PrintAddress(addr[..]);
    WriteAt(out, 0, text);
    assert out[..17] == out[0..17] == text;
    assert out[..][17] == NUL;
    assert NUL !in text by { PrintedIsAccepted(addr[..]); }
    CStrIs(out[..], 17);
  }

  // ----- round trips

  /** Byte `i` is printed at `3 * i`, high digit first, with colons between the bytes. */
  lemma PrintedAt(a: seq<byte>, i: nat)
    requires |a| == MAC_ADDR_LEN && i < MAC_ADDR_LEN
    ensures PrintAddress(a)[3 * i] == "0123456789ABCDEF"[a[i] / 16]
    ensures PrintAddress(a)[3 * i + 1] == "0123456789ABCDEF"[a[i] % 16]
    ensures i < 5 ==> PrintAddress(a)[3 * i + 2] == ':'
  {
    DigitTable(a[i] as nat / 16);
    DigitTable(a[i] as nat % 16);
    assert (3 * i) / 3 == i && (3 * i + 1) / 3 == i;
  }

  lemma PrintedIsAccepted(a: seq<byte>)
    requires |a| == MAC_ADDR_LEN
    ensures Accepted(PrintAddress(a)) && NUL !in PrintAddress(a)
  {
    var p := PrintAddress(a);
    forall i | 0 <= i < 17 ensures if i % 3 == 2 then p[i] == ':' else IsHex(p[i]) {
      DigitRoundTrip('0', a[i / 3] / 16);
      DigitRoundTrip('0', a[i / 3] % 16);
    }
    SeparatorsByRemainder(p);
  }

  lemma SeparatorsByRemainder(s: string)
    requires |s| == 17 && forall i :: 0 <= i < 17 ==> if i % 3 == 2 then s[i] == ':' else IsHex(s[i])
    ensures Accepted(s) && NUL !in s
  {
    forall i | 0 <= i < 17 ensures if i in {2, 5, 8, 11, 14} then s[i] == ':' else IsHex(s[i]) {
      assert i in {2, 5, 8, 11, 14} <==> i % 3 == 2;
    }
  }

  lemma PrintedDigitsOf(a: seq<byte>, i: nat)
    requires |a| == MAC_ADDR_LEN && i < 6
    ensures Digits(PrintAddress(a))[2 * i] == UpperDigit(a[i] / 16)
    ensures Digits(PrintAddress(a))[2 * i + 1] == UpperDigit(a[i] % 16)
  {
    var p := PrintAddress(a);
    assert Digits(p)[2 * i] == p[3 * i] && Digits(p)[2 * i + 1] == p[3 * i + 1];
    assert (3 * i) / 3 == i && (3 * i + 1) / 3 == i;
  }

  lemma DigitsOfByte(b: byte)
    ensures 16 * ConvertCharToHex(UpperDigit(b / 16)) + ConvertCharToHex(UpperDigit(b % 16)) == b
  {
    DigitRoundTrip('0', b / 16);
    DigitRoundTrip('0', b % 16);
  }

  /** Parsing the printed form of any six bytes returns them. */
  lemma ParsePrinted(a: seq<byte>)
    requires |a| == MAC_ADDR_LEN
    ensures Accepted(PrintAddress(a)) && ParseAddress(PrintAddress(a)) == a
  {
    PrintedIsAccepted(a);
    var p := PrintAddress(a);
    forall i | 0 <= i < 6 ensures ParseAddress(p)[i] == a[i] {
      DecodeAt(Digits(p), i);
      PrintedDigitsOf(a, i);
      DigitsOfByte(a[i]);
    }
  }

  function Upper(s: string): (r: string)
    ensures |r| == |s|
  {
    seq(|s|, i requires 0 <= i < |s| => ToUpper(s[i]))
  }

  /** The upper-case colon form of an accepted text. */
  function Canonical(s: string): (r: string)
    requires Accepted(s)
    ensures |r| == 17
  {
    seq(17, i requires 0 <= i < 17 => if i % 3 == 2 then ':' else ToUpper(Digits(s)[i - i / 3]))
  }

  lemma PrintedDigits(d: string, b: nat)
    requires |d| == 12 && AllHex(d) && b < 6
    ensures PrintByte(DecodeHex(d)[b]) == [ToUpper(d[2 * b]), ToUpper(d[2 * b + 1])]
  {
    DecodeAt(d, b);
    DigitRoundTrip(d[2 * b], 0);
    DigitRoundTrip(d[2 * b + 1], 0);
  }

  lemma PrintedParsedAt(s: string, i: nat)
    requires Accepted(s) && i < 17
    ensures PrintAddress(ParseAddress(s))[i] == Canonical(s)[i]
  {
    AcceptedDigits(s);
    if i % 3 != 2 {
      PrintedDigits(Digits(s), i / 3);
      assert i - i / 3 == 2 * (i / 3) + i % 3;
    }
  }

  /** Printing what an accepted text parses to gives its upper-case colon form; for
      a text already in colon form that is the text itself in upper case. */
  lemma PrintParsed(s: string)
    requires Accepted(s)
    ensures PrintAddress(ParseAddress(s)) == Canonical(s)
    ensures |s| == 17 ==> Canonical(s) == Upper(s)
  {
    forall i | 0 <= i < 17 ensures PrintAddress(ParseAddress(s))[i] == Canonical(s)[i] {
      PrintedParsedAt(s, i);
    }
    if |s| == 17 {
      ColonFormIsUpper(s);
    }
  }

  lemma ColonFormIsUpper(s: string)
    requires Accepted(s) && |s| == 17
    ensures Canonical(s) == Upper(s)
  {
    forall i | 0 <= i < 17 ensures Canonical(s)[i] == Upper(s)[i] {
      if i % 3 != 2 { DigitPositions(s, i); }
    }
  }
}
