/** The rendering of a service can be read back: it says what the service says. A
    reader for decimals, UUIDs and each kind of line undoes the printer, and a
    listing says, without any text, what should have been printed. */
module GattReadBack {
  import opened Types
  import opened Gatt
  import opened DumpHex
  import opened GattDump

  // ----- what a rendering should say

  /** One line of a rendering. */
  datatype Line =
    | ServiceShown(uuid: seq<byte>, serviceType: int)
    | IncludedShown(counter: int, serviceType: int, uuid: seq<byte>)
    | CharacteristicShown(notifies: bool, counter: int, uuid: seq<byte>)
    | DescriptorShown(uuid: seq<byte>)
    | NumberedShown(counter: int, uuid: seq<byte>)

  /** What is said about each entry of a list, with a counter that goes up from `k`. */
  function Said<T>(says: (nat, T) -> Line, list: seq<T>, k: nat): (r: seq<Line>)
    ensures |r| == |list|
  {
    seq(|list|, i requires 0 <= i < |list| => says(i + k, list[i]))
  }

  function IncludedAt(k: nat, s: IncludedService): Line {
    IncludedShown(k, s.serviceType, s.uuid)
  }

  /** The single descriptor if it is set, otherwise the list, if it is said to be used. */
  function DescriptorsOf(c: Characteristic): seq<Line> {
    if c.descriptor.isSet then [DescriptorShown(c.descriptor.uuid)]
    else if c.multiDescCount == 0 then []
    else Said(NumberedAt, c.descriptors, 1)
  }

  function NumberedAt(k: nat, d: Descriptor): Line {
    NumberedShown(k % 256, d.uuid)
  }

  function CharacteristicLines(s: Service, i: nat): seq<Line>
    requires i < |s.characteristics|
  {
    var c := s.characteristics[i];
    [CharacteristicShown(c.descriptor.isSet && c.descriptor.isNotify, i % 256, c.uuid)] + DescriptorsOf(c)
  }

  /** The lines of the characteristics from index `i` on. */
  function CharacteristicsFrom(s: Service, i: nat): seq<Line>
    requires i <= |s.characteristics|
    decreases |s.characteristics| - i
  {
    if i == |s.characteristics| then [] else CharacteristicLines(s, i) + CharacteristicsFrom(s, i + 1)
  }

  /** Everything there is to say about a service: itself, then what it includes, then
      each characteristic followed by its descriptors. */
  function Listing(s: Service): seq<Line> {
    [ServiceShown(s.uuid, s.serviceType)]
    + Said(IncludedAt, s.included, 0) + CharacteristicsFrom(s, 0)
  }

  // ----- reading decimals

  predicate IsDigit(c: char) {
    '0' <= c <= '9'
  }

  function LeadingDigits(s: string): (n: nat)
    ensures n <= |s|
  {
    if s == [] || !IsDigit(s[0]) then 0 else 1 + LeadingDigits(s[1..])
  }

  function NaturalValue(digits: string): int {
    if digits == [] then 0
    else 10 * NaturalValue(digits[..|digits| - 1]) + (digits[|digits| - 1] as int - '0' as int)
  }

  /** A number at the start of a text, and the text after it. */
  function ReadNatural(s: string): (int, string) {
    var n := LeadingDigits(s);
    (NaturalValue(s[..n]), s[n..])
  }

  function ReadDecimal(s: string): (int, string) {
    if s != [] && s[0] == '-' then
      var (n, rest) := ReadNatural(s[1..]);
      (-n, rest)
    else ReadNatural(s)
  }

  lemma {:induction false} NaturalBack(n: nat)
    ensures NaturalValue(Natural(n)) == n && forall c :: c in Natural(n) ==> IsDigit(c)
  {
    if n >= 10 {
      NaturalBack(n / 10);
      var digits := Natural(n);
      assert digits[..|digits| - 1] == Natural(n / 10);
    } else {
      assert Natural(n)[..0] == [];
    }
  }

  lemma {:induction false} DigitsThenOther(digits: string, rest: string)
    requires forall c :: c in digits ==> IsDigit(c)
    requires rest == [] || !IsDigit(rest[0])
    ensures LeadingDigits(digits + rest) == |digits|
  {
    if digits == [] {
      assert digits + rest == rest;
    } else {
      DigitsThenOther(digits[1..], rest);
      assert (digits + rest)[1..] == digits[1..] + rest;
    }
  }

  lemma NaturalRead(n: nat, rest: string)
    requires rest == [] || !IsDigit(rest[0])
    ensures ReadNatural(Natural(n) + rest) == (n, rest)
    ensures (Natural(n) + rest)[0] != '-'
  {
    var digits := Natural(n);
    NaturalBack(n);
    DigitsThenOther(digits, rest);
    assert digits[0] in digits;
    assert (digits + rest)[..|digits|] == digits && (digits + rest)[|digits|..] == rest;
  }

  lemma DecimalBack(n: int, rest: string)
    requires rest == [] || !IsDigit(rest[0])
    ensures ReadDecimal(Decimal(n) + rest) == (n, rest)
  {
    if n < 0 {
      NaturalRead(-n, rest);
      assert (Decimal(n) + rest)[1..] == Natural(-n) + rest;
    } else {
      NaturalRead(n, rest);
    }
  }

  // ----- reading UUIDs

  const UUID_CHARS: nat := 47

  /** Sixteen bytes at the start of a text, and the text after them. */
  function ReadUuid(s: string): (seq<byte>, string) {
    if |s| < UUID_CHARS then ([], [])
    else (seq(16, i requires 0 <= i < 16 => 16 * DigitValue(s[3 * i]) + DigitValue(s[3 * i + 1])), s[UUID_CHARS..])
  }

  lemma {:induction false} UuidTextAt(u: seq<byte>, i: nat)
    requires i < |u|
    ensures UuidText(u)[3 * i] == Hex2(u[i])[0] && UuidText(u)[3 * i + 1] == Hex2(u[i])[1]
    ensures i + 1 < |u| ==> UuidText(u)[3 * i + 2] == ' '
  {
    if |u| > 1 {
      assert UuidText(u) == Hex2(u[0]) + [' '] + UuidText(u[1..]);
      if i > 0 {
        UuidTextAt(u[1..], i - 1);
      }
    }
  }

  lemma UuidBack(u: Uuid, rest: string)
    ensures ReadUuid(UuidText(u) + rest) == (u, rest)
  {
    var s := UuidText(u) + rest;
    assert s[UUID_CHARS..] == rest;
    forall i | 0 <= i < 16 ensures 16 * DigitValue(s[3 * i]) + DigitValue(s[3 * i + 1]) == u[i] {
      UuidTextAt(u, i);
      DigitsBack(u[i]);
      assert s[3 * i] == UuidText(u)[3 * i] && s[3 * i + 1] == UuidText(u)[3 * i + 1];
    }
    assert ReadUuid(s).0 == u;
  }

  /** A UUID is printed in the order of its bytes, two digits each and blanks between. */
  lemma UuidInOrder(u: Uuid, i: nat)
    requires i < 16
    ensures |UuidText(u)| == UUID_CHARS
    ensures UuidText(u)[3 * i] == "0123456789abcdef"[u[i] / 16]
    ensures UuidText(u)[3 * i + 1] == "0123456789abcdef"[u[i] % 16]
    ensures i < 15 ==> UuidText(u)[3 * i + 2] == ' '
  {
    UuidTextAt(u, i);
    HexDigitIs(u[i] as int / 16);
    HexDigitIs(u[i] as int % 16);
  }

  // ----- reading lines

  /** The text after an expected beginning. */
  function Past(expected: string, s: string): (rest: string)
    ensures |rest| <= |s|
  {
    if expected <= s then s[|expected|..] else []
  }

  lemma PastIt(expected: string, rest: string)
    ensures Past(expected, expected + rest) == rest
  {
  }

  const SERVICE: string := "Service 0 uuid "
  const INCLUDED: string := "Included Services "
  const NOTIFYING: string := "\tGatt Characteristics with Notifications "
  const PLAIN: string := "\tGatt Characteristics "
  const SINGLE: string := "\t\tDescriptor UUID "
  const NUMBERED: string := "\t\tDescriptor "

  function ReadService(s: string): (Line, string) {
    var (u, a) := ReadUuid(Past(SERVICE, s));
    var (t, b) := ReadDecimal(Past(" serviceType ", a));
    (ServiceShown(u, t), Past("\n", b))
  }

  function ReadIncluded(s: string): (Line, string) {
    var (k, a) := ReadDecimal(Past(INCLUDED, s));
    ReadIncludedAfter(k, a)
  }

  /** What comes after the counter. */
  function ReadIncludedAfter(k: int, s: string): (Line, string) {
    var (t, b) := ReadDecimal(Past(" service Type ", s));
    var (u, c) := ReadUuid(Past(" uuid ", b));
    (IncludedShown(k, t, u), Past("\n", c))
  }

  function ReadCharacteristic(notifies: bool, s: string): (Line, string) {
    var (k, a) := ReadDecimal(Past(if notifies then NOTIFYING else PLAIN, s));
    var (u, b) := ReadUuid(Past(" uuid ", a));
    (CharacteristicShown(notifies, k, u), Past("\n", b))
  }

  function ReadSingle(s: string): (Line, string) {
    var (u, a) := ReadUuid(Past(SINGLE, s));
    (DescriptorShown(u), Past("\n", a))
  }

  function ReadNumbered(s: string): (Line, string) {
    var (k, a) := ReadDecimal(Past(NUMBERED, s));
    var (u, b) := ReadUuid(Past(" UUID ", a));
    (NumberedShown(k, u), Past("\n", b))
  }

  /** The first line of a text, and the text after it. */
  function ReadLine(s: string): (Line, string) {
    if SERVICE <= s then ReadService(s)
    else if INCLUDED <= s then ReadIncluded(s)
    else if NOTIFYING <= s then ReadCharacteristic(true, s)
    else if PLAIN <= s then ReadCharacteristic(false, s)
    else if SINGLE <= s then ReadSingle(s)
    else ReadNumbered(s)
  }

  /** All lines of a text, given how to read one. */
  function ReadLines(read: string -> (Line, string), s: string): seq<Line>
    decreases |s|
  {
    if s == [] then []
    else
      var (line, rest) := read(s);
      [line] + if |rest| < |s| then ReadLines(read, rest) else []
  }

  // ----- each kind of line can be read back

  lemma ServiceBack(s: Service, rest: string)
    ensures ReadLine(ServiceLine(s) + rest) == (ServiceShown(s.uuid, s.serviceType), rest)
  {
    var u, t := UuidText(s.uuid), Decimal(s.serviceType);
    var d := "\n" + rest;
    var c := t + d;
    var b := " serviceType " + c;
    var a := u + b;
    assert ServiceLine(s) + rest == SERVICE + a;
    PastIt(SERVICE, a);
    UuidBack(s.uuid, b);
    PastIt(" serviceType ", c);
    DecimalBack(s.serviceType, d);
    PastIt("\n", rest);
  }

  lemma IncludedAfterRead(k: int, x: IncludedService, rest: string)
    ensures var d := " uuid " + (UuidText(x.uuid) + ("\n" + rest));
            ReadIncludedAfter(k, " service Type " + (Decimal(x.serviceType) + d))
            == (IncludedShown(k, x.serviceType, x.uuid), rest)
  {
    var f := "\n" + rest;
    var e := UuidText(x.uuid) + f;
    var d := " uuid " + e;
    PastIt(" service Type ", Decimal(x.serviceType) + d);
    DecimalBack(x.serviceType, d);
    PastIt(" uuid ", e);
    UuidBack(x.uuid, f);
    PastIt("\n", rest);
  }

  lemma IncludedParts(k: nat, x: IncludedService, rest: string)
    ensures IncludedLine(k, x) + rest ==
            INCLUDED + (Decimal(k) + (" service Type " + (Decimal(x.serviceType) + (" uuid " + (UuidText(x.uuid) +
                                                                                                ("\n" + rest))))))
  {
  }

  lemma IncludedRead(k: nat, x: IncludedService, rest: string)
    ensures INCLUDED <= IncludedLine(k, x) + rest
    ensures ReadIncluded(IncludedLine(k, x) + rest) == (IncludedShown(k, x.serviceType, x.uuid), rest)
  {
    var b := " service Type " + (Decimal(x.serviceType) + (" uuid " + (UuidText(x.uuid) + ("\n" + rest))));
    IncludedParts(k, x, rest);
    PastIt(INCLUDED, Decimal(k) + b);
    DecimalBack(k, b);
    IncludedAfterRead(k, x, rest);
  }

  lemma IncludedKind(s: string)
    requires INCLUDED <= s
    ensures ReadLine(s) == ReadIncluded(s)
  {
    assert s[0] == INCLUDED[0] == 'I' && SERVICE[0] == 'S';
  }

  lemma IncludedBack(k: nat, x: IncludedService, rest: string)
    ensures ReadLine(IncludedLine(k, x) + rest) == (IncludedShown(k, x.serviceType, x.uuid), rest)
  {
    IncludedRead(k, x, rest);
    IncludedKind(IncludedLine(k, x) + rest);
  }

  lemma StartsWithDigit(k: nat)
    ensures |Decimal(k)| > 0 && IsDigit(Decimal(k)[0])
  {
    NaturalBack(k);
    assert Decimal(k)[0] in Decimal(k);
  }

  lemma CharacteristicBack(k: nat, c: Characteristic, rest: string)
    ensures var notifies := c.descriptor.isSet && c.descriptor.isNotify;
            ReadLine(CharacteristicLine(k, c) + rest) == (CharacteristicShown(notifies, k, c.uuid), rest)
  {
    var notifies := c.descriptor.isSet && c.descriptor.isNotify;
    var head, n, u := CharacteristicHead(notifies), Decimal(k), UuidText(c.uuid);
    var f := "\n" + rest;
    var e := u + f;
    var d := " uuid " + e;
    var a := n + d;
    assert CharacteristicLine(k, c) + rest == head + a;
    CharacteristicKind(notifies, k, a, d);
    PastIt(head, a);
    DecimalBack(k, d);
    PastIt(" uuid ", e);
    UuidBack(c.uuid, f);
    PastIt("\n", rest);
  }

  /** After the plain beginning comes a digit, so the two kinds cannot be confused. */
  lemma CharacteristicKind(notifies: bool, k: nat, a: string, d: string)
    requires a == Decimal(k) + d
    ensures ReadLine(CharacteristicHead(notifies) + a) == ReadCharacteristic(notifies, CharacteristicHead(notifies) + a)
  {
    var s := CharacteristicHead(notifies) + a;
    StartsWithDigit(k);
    assert s[0] == '\t' && SERVICE[0] == 'S' && INCLUDED[0] == 'I';
    if !notifies {
      assert s[22] == Decimal(k)[0] && NOTIFYING[22] == 'w';
    }
  }

  lemma SingleBack(x: Descriptor, rest: string)
    ensures ReadLine(DescriptorLine(x) + rest) == (DescriptorShown(x.uuid), rest)
  {
    var f := "\n" + rest;
    var e := UuidText(x.uuid) + f;
    assert DescriptorLine(x) + rest == SINGLE + e;
    DescriptorKind(SINGLE + e);
    PastIt(SINGLE, e);
    UuidBack(x.uuid, f);
    PastIt("\n", rest);
  }

  lemma DescriptorKind(s: string)
    requires NUMBERED <= s
    ensures ReadLine(s) == if SINGLE <= s then ReadSingle(s) else ReadNumbered(s)
  {
    assert s[0] == NUMBERED[0] == '\t' && SERVICE[0] == 'S' && INCLUDED[0] == 'I';
    assert s[1] == NUMBERED[1] == '\t' && NOTIFYING[1] == 'G' && PLAIN[1] == 'G';
  }

  lemma NumberedRead(k: nat, x: Descriptor, rest: string)
    ensures NumberedLine(k, x) + rest == NUMBERED + (Decimal(k) + (" UUID " + (UuidText(x.uuid) + ("\n" + rest))))
    ensures ReadNumbered(NumberedLine(k, x) + rest) == (NumberedShown(k, x.uuid), rest)
  {
    var f := "\n" + rest;
    var e := UuidText(x.uuid) + f;
    var d := " UUID " + e;
    var a := Decimal(k) + d;
    assert NumberedLine(k, x) + rest == NUMBERED + a;
    PastIt(NUMBERED, a);
    DecimalBack(k, d);
    PastIt(" UUID ", e);
    UuidBack(x.uuid, f);
    PastIt("\n", rest);
  }

  /** After the beginning of a numbered line comes a digit. */
  lemma NumberedKind(k: nat, d: string)
    ensures ReadLine(NUMBERED + (Decimal(k) + d)) == ReadNumbered(NUMBERED + (Decimal(k) + d))
  {
    var s := NUMBERED + (Decimal(k) + d);
    StartsWithDigit(k);
    assert s[13] == Decimal(k)[0] && SINGLE[13] == 'U';
    DescriptorKind(s);
  }

  lemma NumberedBack(k: nat, x: Descriptor, rest: string)
    ensures ReadLine(NumberedLine(k, x) + rest) == (NumberedShown(k, x.uuid), rest)
  {
    NumberedRead(k, x, rest);
    NumberedKind(k, " UUID " + (UuidText(x.uuid) + ("\n" + rest)));
  }

  // ----- the whole rendering

  function ReadAll(s: string): seq<Line> {
    ReadLines(ReadLine, s)
  }

  lemma OneMoreLine(line: Line, text: string, rest: string)
    requires |text| > 0 && ReadLine(text + rest) == (line, rest)
    ensures ReadAll(text + rest) == [line] + ReadAll(rest)
  {
  }

  lemma NothingRead(lines: seq<Line>)
    ensures [] + lines == lines
  {
  }

  /** If each entry can be read back, whatever comes after it, then so can a list. */
  lemma {:induction false} ListBack<T>(read: string -> seq<Line>, show: (nat, T) -> string, says: (nat, T) -> Line,
                                       list: seq<T>, k: nat, rest: string)
    requires forall j: nat, x: T, more: string :: read(show(j, x) + more) == [says(j, x)] + read(more)
    ensures read(RenderList(show, list, k) + rest) == Said(says, list, k) + read(rest)
  {
    if list == [] {
      NothingLeft(rest);
      NothingRead(read(rest));
    } else {
      var tail := RenderList(show, list[1..], k + 1);
      Associative(show(k, list[0]), tail, rest);
      assert read(show(k, list[0]) + (tail + rest)) == [says(k, list[0])] + read(tail + rest);
      ListBack(read, show, says, list[1..], k + 1, rest);
      assert Said(says, list, k) == [says(k, list[0])] + Said(says, list[1..], k + 1);
      Associative([says(k, list[0])], Said(says, list[1..], k + 1), read(rest));
    }
  }

  lemma NumberedListBack(list: seq<Descriptor>, rest: string)
    ensures ReadAll(RenderList(DescriptorAt, list, 1) + rest) == Said(NumberedAt, list, 1) + ReadAll(rest)
  {
    forall j: nat, x: Descriptor, more: string
      ensures ReadAll(DescriptorAt(j, x) + more) == [NumberedAt(j, x)] + ReadAll(more)
    {
      NumberedBack(j % 256, x, more);
      OneMoreLine(NumberedAt(j, x), DescriptorAt(j, x), more);
    }
    ListBack(ReadAll, DescriptorAt, NumberedAt, list, 1, rest);
  }

  lemma IncludedListBack(list: seq<IncludedService>, rest: string)
    ensures ReadAll(RenderList(IncludedLine, list, 0) + rest) == Said(IncludedAt, list, 0) + ReadAll(rest)
  {
    forall j: nat, x: IncludedService, more: string
      ensures ReadAll(IncludedLine(j, x) + more) == [IncludedAt(j, x)] + ReadAll(more)
    {
      IncludedBack(j, x, more);
      OneMoreLine(IncludedAt(j, x), IncludedLine(j, x), more);
    }
    ListBack(ReadAll, IncludedLine, IncludedAt, list, 0, rest);
  }

  lemma DescriptorsBack(c: Characteristic, rest: string)
    ensures ReadAll(RenderDescriptors(c) + rest) == DescriptorsOf(c) + ReadAll(rest)
  {
    if c.descriptor.isSet {
      SingleBack(c.descriptor, rest);
      OneMoreLine(DescriptorShown(c.descriptor.uuid), DescriptorLine(c.descriptor), rest);
    } else if c.multiDescCount != 0 {
      NumberedListBack(c.descriptors, rest);
    } else {
      NothingLeft(rest);
      NothingRead(ReadAll(rest));
    }
  }

  lemma OneCharacteristicBack(s: Service, i: nat, rest: string)
    requires i < |s.characteristics|
    ensures ReadAll(CharacteristicAt(i, s.characteristics[i]) + rest) == CharacteristicLines(s, i) + ReadAll(rest)
  {
    var c := s.characteristics[i];
    var line := CharacteristicShown(c.descriptor.isSet && c.descriptor.isNotify, i % 256, c.uuid);
    var more := RenderDescriptors(c) + rest;
    Associative(CharacteristicLine(i % 256, c), RenderDescriptors(c), rest);
    CharacteristicBack(i % 256, c, more);
    OneMoreLine(line, CharacteristicLine(i % 256, c), more);
    DescriptorsBack(c, rest);
    Associative([line], DescriptorsOf(c), ReadAll(rest));
  }

  lemma {:induction false} CharacteristicsBack(s: Service, i: nat)
    requires i <= |s.characteristics|
    ensures ReadAll(RenderList(CharacteristicAt, s.characteristics[i..], i)) == CharacteristicsFrom(s, i)
    decreases |s.characteristics| - i
  {
    if i < |s.characteristics| {
      var more := RenderList(CharacteristicAt, s.characteristics[i + 1..], i + 1);
      assert s.characteristics[i..][1..] == s.characteristics[i + 1..];
      OneCharacteristicBack(s, i, more);
      CharacteristicsBack(s, i + 1);
    }
  }

  /** Whatever the service, its rendering reads back as exactly what there is to say about
      it: types, UUIDs in byte order, counters modulo 256, which characteristics notify
      and which descriptors belong to which, all in the order of the lists. */
  lemma RenderingReadsBack(s: Service)
    ensures ReadAll(Render(s)) == Listing(s)
  {
    var inc, chars := RenderList(IncludedLine, s.included, 0), RenderList(CharacteristicAt, s.characteristics, 0);
    var line := ServiceShown(s.uuid, s.serviceType);
    Associative(ServiceLine(s), inc, chars);
    ServiceBack(s, inc + chars);
    OneMoreLine(line, ServiceLine(s), inc + chars);
    IncludedListBack(s.included, chars);
    assert s.characteristics[0..] == s.characteristics;
    CharacteristicsBack(s, 0);
    Associative([line], Said(IncludedAt, s.included, 0), CharacteristicsFrom(s, 0));
  }
}
