/** The hexadecimal memory dump: a tight buffer size, and a text that decodes back. */
module DumpHex {
  import opened Types
  import opened CStrings

  /** `size_t` on the 32-bit targets of the library. */
  const SIZE_LIMIT: nat := 0x1_0000_0000

  function HexDigit(v: nat): char
    requires v < 16
  {
    if v < 10 then ('0' as int + v) as char else ('a' as int + v - 10) as char
  }

  /** "%02x" */
  function Hex2(b: byte): (r: string)
    ensures |r| == 2 && NUL !in r
  {
    [HexDigit(b as int / 16), HexDigit(b as int % 16)]
  }

  function Piece(data: seq<byte>, i: nat): (r: string)
    requires i < |data|
  {
    Hex2(data[i]) + [' '] + (if (i + 1) % 16 == 0 then ['\n'] else [])
  }

  function Dump(data: seq<byte>, n: nat): (r: string)
    requires n <= |data|
    ensures |r| == 3 * n + n / 16 && NUL !in r
  {
    if n == 0 then [] else Dump(data, n - 1) + Piece(data, n - 1)
  }

  /** The buffer length of the source, computed with `size_t` wrap-around. */
  function BufferLength(size: nat): nat {
    var lines := ((size + 15) % SIZE_LIMIT) / 16;
    (size * 3 + lines + 1) % SIZE_LIMIT
  }

  predicate NoOverflow(size: nat) {
    size * 3 + (size + 15) / 16 + 1 < SIZE_LIMIT
  }

  lemma BufferLengthExact(size: nat)
    requires NoOverflow(size)
    ensures BufferLength(size) == size * 3 + (size + 15) / 16 + 1
    ensures 3 * size + size / 16 < BufferLength(size)
  {
    assert (size + 15) % SIZE_LIMIT == size + 15;
  }

  /** Before byte `i` is printed there is room for it, its line end and a NUL. */
  lemma RoomForOneMore(size: nat, i: nat)
    requires NoOverflow(size) && i < size
    ensures 3 * i + i / 16 + 5 <= BufferLength(size)
    ensures (i + 1) / 16 == i / 16 + (if (i + 1) % 16 == 0 then 1 else 0)
  {
    BufferLengthExact(size);
    assert i / 16 <= (size + 15) / 16 - 1;
  }

  lemma OneMorePiece(data: seq<byte>, i: nat, text: string)
    requires i < |data|
    requires text == Dump(data, i) + (Hex2(data[i]) + [' ']) + (if (i + 1) % 16 == 0 then ['\n'] else [])
    ensures text == Dump(data, i + 1)
  {
  }

  /** The loop writes within the buffer, never has a print truncated (three
      characters and their NUL always fit) and stops at `3 * size + size / 16`. */
  method DumpBytes(data: seq<byte>) returns (buf: array<char>, p: nat)
    requires NoOverflow(|data|)
    ensures fresh(buf) && buf.Length == 3 * |data| + (|data| + 15) / 16 + 1
    ensures p == 3 * |data| + |data| / 16 < buf.Length
    ensures CStr(buf[..]) == buf[..p] == Dump(data, |data|) && Terminated(buf[..])
  {
    var size := |data|;
    var bufLen := BufferLength(size);
    BufferLengthExact(size);
    buf := new char[bufLen];
    p := 0;
    var i := 0;
    while i < size
      invariant i <= size && p == 3 * i + i / 16
      invariant buf[..p] == Dump(data, i)
    {
      RoomForOneMore(size, i);
      p := PrintByte(buf, p, data, i);
      i := i + 1;
    }
    Terminate(buf, p, Dump(data, size));
  }

  /** The NUL after the last piece. */
  method Terminate(buf: array<char>, p: nat, text: string)
    requires p < buf.Length && buf[..p] == text && NUL !in text
    modifies buf
    ensures CStr(buf[..]) == buf[..p] == text && Terminated(buf[..])
  {
    buf[p] := NUL;
    assert buf[..][p] == NUL && buf[..][..p] == text;
    CStrIs(buf[..], p);
  }

  /** One round of the loop. */
  method PrintByte(buf: array<char>, at: nat, data: seq<byte>, i: nat) returns (p: nat)
    requires i < |data| && at + 5 <= buf.Length && buf[..at] == Dump(data, i)
    modifies buf
    ensures p == at + 3 + (if (i + 1) % 16 == 0 then 1 else 0)
    ensures buf[..p] == Dump(data, i + 1)
  {
    var text := Hex2(data[i]) + [' '];
    WriteAt(buf, at, text);
    p := at + 3;
    assert buf[..p] == buf[..at] + buf[at..p];
    if (i + 1) % 16 == 0 {
      ghost var done := buf[..p];
      buf[p] := '\n';
      p := p + 1;
      assert buf[..p] == done + ['\n'];
    }
    OneMorePiece(data, i, buf[..p]);
  }

  // ----- reading a dump back

  predicate IsHexDigit(c: char) {
    '0' <= c <= '9' || 'a' <= c <= 'f'
  }

  function DigitValue(c: char): (v: byte)
    ensures v < 16
  {
    if '0' <= c <= '9' then (c as int - '0' as int) as byte
    else if 'a' <= c <= 'f' then (c as int - 'a' as int) as byte + 10
    else 0
  }

  /** Two digits make a byte; blanks and line ends separate. */
  function Undump(s: string): seq<byte> {
    if |s| < 2 then []
    else if IsHexDigit(s[0]) then [16 * DigitValue(s[0]) + DigitValue(s[1])] + Undump(s[2..])
    else Undump(s[1..])
  }

  lemma DigitsBack(b: byte)
    ensures var h := Hex2(b); IsHexDigit(h[0]) && 16 * DigitValue(h[0]) + DigitValue(h[1]) == b
  {
  }

  /** The text from byte `i` on. */
  function DumpFrom(data: seq<byte>, i: nat): string
    requires i <= |data|
    decreases |data| - i
  {
    if i == |data| then [] else Piece(data, i) + DumpFrom(data, i + 1)
  }

  /** The text cut before byte `i`. */
  function CutText(data: seq<byte>, i: nat): string
    requires i <= |data|
  {
    Dump(data, i) + DumpFrom(data, i)
  }

  /** The piece of byte `i` can be read at the end of the first part or at the start of the second. */
  lemma PieceMoves(data: seq<byte>, i: nat)
    requires i < |data|
    ensures CutText(data, i + 1) == CutText(data, i)
  {
    Associative(Dump(data, i), Piece(data, i), DumpFrom(data, i + 1));
  }

  lemma {:induction false} Steady<T>(s: seq<T>, n: nat)
    requires n < |s| && forall k :: 0 < k < |s| ==> s[k] == s[k - 1]
    ensures s[n] == s[0]
  {
    if n > 0 {
      Steady(s, n - 1);
    }
  }

  /** Wherever the text is cut, it is the same text. */
  lemma DumpSplits(data: seq<byte>)
    ensures CutText(data, 0) == CutText(data, |data|)
  {
    var cuts := seq(|data| + 1, i requires 0 <= i <= |data| => CutText(data, i));
    forall k | 0 < k < |cuts| ensures cuts[k] == cuts[k - 1] {
      PieceMoves(data, k - 1);
    }
    Steady(cuts, |data|);
  }

  lemma CutAtEnds(data: seq<byte>)
    ensures CutText(data, 0) == DumpFrom(data, 0) && CutText(data, |data|) == Dump(data, |data|)
  {
  }

  lemma UndumpPiece(data: seq<byte>, i: nat, rest: string)
    requires i < |data|
    ensures Undump(Piece(data, i) + rest) == [data[i]] + Undump(rest)
  {
    var piece := Piece(data, i);
    var s := piece + rest;
    DigitsBack(data[i]);
    assert s[0] == Hex2(data[i])[0] && s[1] == Hex2(data[i])[1];
    if (i + 1) % 16 == 0 {
      assert s[2..] == [' '] + (['\n'] + rest);
      UndumpSeparator(' ', ['\n'] + rest);
      UndumpSeparator('\n', rest);
    } else {
      assert s[2..] == [' '] + rest;
      UndumpSeparator(' ', rest);
    }
  }

  lemma UndumpSeparator(c: char, rest: string)
    requires c == ' ' || c == '\n'
    ensures Undump([c] + rest) == Undump(rest)
  {
    assert ([c] + rest)[1..] == rest;
  }

  lemma {:induction false} UndumpFrom(data: seq<byte>, i: nat)
    requires i <= |data|
    ensures Undump(DumpFrom(data, i)) == data[i..]
    decreases |data| - i
  {
    if i < |data| {
      UndumpFrom(data, i + 1);
      UndumpPiece(data, i, DumpFrom(data, i + 1));
    }
  }

  /** The dump of any bytes decodes back to them. */
  lemma {:induction false} UndumpDump(data: seq<byte>)
    ensures Undump(Dump(data, |data|)) == data
  {
    DumpSplits(data);
    CutAtEnds(data);
    UndumpFrom(data, 0);
  }

  // ----- what stands where

  /** Digits are lower case. */
  lemma HexDigitIs(v: nat)
    requires v < 16
    ensures HexDigit(v) == "0123456789abcdef"[v]
  {
    assert "0123456789abcdef"[v] == if v < 10 then ('0' as int + v) as char else ('a' as int + v - 10) as char;
  }

  lemma {:induction false} DumpGrows(data: seq<byte>, i: nat, n: nat)
    requires i <= n <= |data|
    ensures Dump(data, i) <= Dump(data, n)
  {
    if i < n {
      DumpGrows(data, i, n - 1);
    }
  }

  lemma InTheMiddle<T>(a: seq<T>, b: seq<T>, whole: seq<T>, j: nat)
    requires a + b <= whole && j < |b|
    ensures |a| + j < |whole| && whole[|a| + j] == b[j]
  {
    assert (a + b)[|a| + j] == b[j];
  }

  /** Character `j` of a byte's piece. */
  lemma PieceAt(data: seq<byte>, i: nat, n: nat, j: nat)
    requires i < n <= |data| && j < |Piece(data, i)|
    ensures 3 * i + i / 16 + j < |Dump(data, n)| && Dump(data, n)[3 * i + i / 16 + j] == Piece(data, i)[j]
  {
    DumpGrows(data, i + 1, n);
    InTheMiddle(Dump(data, i), Piece(data, i), Dump(data, n), j);
  }

  lemma DigitsAt(data: seq<byte>, i: nat, n: nat)
    requires i < n <= |data|
    ensures var p, text := 3 * i + i / 16, Dump(data, n);
            p + 3 <= |text| && text[p] == Hex2(data[i])[0] && text[p + 1] == Hex2(data[i])[1] && text[p + 2] == ' '
  {
    PieceAt(data, i, n, 0);
    PieceAt(data, i, n, 1);
    PieceAt(data, i, n, 2);
  }

  lemma LineEndAt(data: seq<byte>, i: nat, n: nat)
    requires i < n <= |data| && (i + 1) % 16 == 0
    ensures var p, text := 3 * i + i / 16 + 3, Dump(data, n); p < |text| && text[p] == '\n'
  {
    PieceAt(data, i, n, 3);
  }

  lemma NoLineEndAt(data: seq<byte>, i: nat)
    requires i < |data| && (i + 1) % 16 != 0
    ensures var p, text := 3 * i + i / 16 + 3, Dump(data, |data|); p < |text| ==> text[p] != '\n'
  {
    assert (i + 1) / 16 == i / 16;
    if i + 1 < |data| {
      DigitsAt(data, i + 1, |data|);
      DigitsBack(data[i + 1]);
    }
  }

  /** Byte `i` stands at `3 * i + i / 16`, two digits and a blank, and a line end comes
      after it if and only if it is the last of sixteen. */
  lemma DumpAt(data: seq<byte>, i: nat)
    requires i < |data|
    ensures var p, text := 3 * i + i / 16, Dump(data, |data|);
            && p + 3 <= |text| && text[p + 2] == ' '
            && text[p] == "0123456789abcdef"[data[i] / 16] && text[p + 1] == "0123456789abcdef"[data[i] % 16]
            && (p + 3 < |text| && text[p + 3] == '\n' <==> (i + 1) % 16 == 0)
  {
    DigitsAt(data, i, |data|);
    HexDigitIs(data[i] as int / 16);
    HexDigitIs(data[i] as int % 16);
    if (i + 1) % 16 == 0 {
      LineEndAt(data, i, |data|);
    } else {
      NoLineEndAt(data, i);
    }
  }
}
