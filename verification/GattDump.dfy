/** The text rendering of a GATT service, appended to a text buffer. */
module GattDump {
  import opened Types
  import opened Gatt
  import opened CStrings
  import opened DumpHex
  import opened TextBuffers

  const PRINT_UUID_STR_LEN: nat := 49

  // ----- fragments

  /** "%02x" bytes separated by single spaces. */
  function UuidText(u: seq<byte>): (r: string)
    ensures NUL !in r && '\n' !in r
    ensures |r| == if |u| == 0 then 0 else 3 * |u| - 1
  {
    if |u| == 0 then [] else if |u| == 1 then Hex2(u[0]) else Hex2(u[0]) + [' '] + UuidText(u[1..])
  }

  /** "%d" */
  function Natural(n: nat): (r: string)
    ensures 1 <= |r| && NUL !in r && '\n' !in r
  {
    if n < 10 then [HexDigit(n)] else Natural(n / 10) + [HexDigit(n % 10)]
  }

  function Decimal(n: int): (r: string)
    ensures NUL !in r && '\n' !in r
  {
    if n < 0 then ['-'] + Natural(-n) else Natural(n)
  }

  function Pow10(k: nat): (r: nat)
    ensures r >= 1
  {
    if k == 0 then 1 else 10 * Pow10(k - 1)
  }

  lemma {:induction false} NaturalLength(n: nat, k: nat)
    requires k > 0 && n < Pow10(k)
    ensures |Natural(n)| <= k
  {
    if n >= 10 {
      assert k > 1;
      NaturalLength(n / 10, k - 1);
    }
  }

  /** A C `int` prints in at most eleven characters. */
  lemma DecimalLength(n: int)
    requires -0x8000_0000 <= n < 0x8000_0000
    ensures |Decimal(n)| <= 11
  {
    assert Pow10(5) == 100000;
    assert Pow10(10) == 10000000000;
    NaturalLength(if n < 0 then -n else n, 10);
  }

  function ServiceLine(s: Service): string {
    "Service 0 uuid " + UuidText(s.uuid) + " serviceType " + Decimal(s.serviceType) + "\n"
  }

  function IncludedLine(k: nat, s: IncludedService): string {
    "Included Services " + Decimal(k) + " service Type " + Decimal(s.serviceType) + " uuid " + UuidText(s.uuid) + "\n"
  }

  function CharacteristicHead(notifies: bool): (r: string)
    ensures |r| <= 42 && NUL !in r && '\n' !in r
  {
    if notifies then "\tGatt Characteristics with Notifications " else "\tGatt Characteristics "
  }

  function CharacteristicLine(k: nat, c: Characteristic): string {
    CharacteristicHead(c.descriptor.isNotify && c.descriptor.isSet) + Decimal(k) + " uuid " + UuidText(c.uuid) + "\n"
  }

  function DescriptorLine(d: Descriptor): string {
    "\t\tDescriptor UUID " + UuidText(d.uuid) + "\n"
  }

  function NumberedLine(k: nat, d: Descriptor): string {
    "\t\tDescriptor " + Decimal(k) + " UUID " + UuidText(d.uuid) + "\n"
  }

  /** What `append_to_buffer` can take whole: one line, short enough, no NUL. */
  predicate Fragment(f: string) {
    |f| < TMP_SIZE && NUL !in f && |f| > 0 && f[|f| - 1] == '\n' && '\n' !in f[..|f| - 1]
  }

  lemma ServiceFragment(s: Service)
    ensures Fragment(ServiceLine(s))
  {
    DecimalLength(s.serviceType);
  }

  lemma IncludedFragment(k: nat, s: IncludedService)
    requires k < 0x8000_0000
    ensures Fragment(IncludedLine(k, s))
  {
    DecimalLength(k);
    DecimalLength(s.serviceType);
  }

  lemma CharacteristicFragment(k: nat, c: Characteristic)
    requires k < 256
    ensures Fragment(CharacteristicLine(k, c))
  {
    DecimalLength(k);
  }

  lemma DescriptorFragment(k: nat, d: Descriptor)
    requires k < 256
    ensures Fragment(DescriptorLine(d)) && Fragment(NumberedLine(k, d))
  {
    DecimalLength(k);
  }

  // ----- the rendering, list by list

  /** A list in order, each entry shown with its counter. */
  function RenderList<T>(show: (nat, T) -> string, list: seq<T>, k: nat): string {
    if list == [] then [] else show(k, list[0]) + RenderList(show, list[1..], k + 1)
  }

  /** An eight-bit counter goes on from 255 with 0. */
  function DescriptorAt(k: nat, d: Descriptor): string {
    NumberedLine(k % 256, d)
  }

  function RenderDescriptors(c: Characteristic): string {
    if c.descriptor.isSet then DescriptorLine(c.descriptor)
    else if c.multiDescCount != 0 then RenderList(DescriptorAt, c.descriptors, 1)
    else []
  }

  function CharacteristicAt(k: nat, c: Characteristic): string {
    CharacteristicLine(k % 256, c) + RenderDescriptors(c)
  }

  function Render(s: Service): string {
    ServiceLine(s) + RenderList(IncludedLine, s.included, 0) + RenderList(CharacteristicAt, s.characteristics, 0)
  }

  lemma NextItem<T>(show: (nat, T) -> string, list: seq<T>, i: nat, k: nat, rest: string)
    requires i < |list|
    ensures RenderList(show, list[i..], k) + rest == show(k, list[i]) + (RenderList(show, list[i + 1..], k + 1) + rest)
  {
    assert list[i..][1..] == list[i + 1..];
    Associative(show(k, list[i]), RenderList(show, list[i + 1..], k + 1), rest);
  }

  lemma {:induction false} RenderConcat<T>(show: (nat, T) -> string, a: seq<T>, b: seq<T>, k: nat)
    ensures RenderList(show, a + b, k) == RenderList(show, a, k) + RenderList(show, b, k + |a|)
  {
    if a == [] {
      assert a + b == b;
      NothingLeft(RenderList(show, b, k));
    } else {
      RenderConcat(show, a[1..], b, k + 1);
      assert (a + b)[1..] == a[1..] + b;
      Associative(show(k, a[0]), RenderList(show, a[1..], k + 1), RenderList(show, b, k + |a|));
    }
  }

  lemma NothingLeft(rest: string)
    ensures [] + rest == rest
  {
  }

  // ----- the source's loops

  /** Eight-bit counter `c` stands for `i`. */
  predicate Counts8(c: nat, i: nat) {
    c == i % 256
  }

  /** `c++` on a `uint8_t`. */
  method Increment8(c: nat, ghost i: nat) returns (next: nat)
    requires Counts8(c, i)
    ensures Counts8(next, i + 1)
  {
    next := (c + 1) % 256;
  }

  /** `snprintf` with a limit of `max` characters including the NUL. */
  method PrintUuid(out: array<char>, uuid: Uuid, max: nat)
    requires 0 < max <= out.Length
    modifies out
    ensures CStr(out[..]) == (if 47 < max then UuidText(uuid) else UuidText(uuid)[..max - 1])
  {
    var text := UuidText(uuid);
    var kept := if |text| < max then text else text[..max - 1];
    WriteAt(out, 0, kept);
    assert out[..|kept|] == out[0..|kept|];
    CStrIs(out[..], |kept|);
  }

  /** A buffer being appended to: `total` is what it will hold once `rest` follows. */
  ghost predicate Progress(log: TextBuffer, total: string, rest: string)
    reads log, log.buf
  {
    log.Valid() && log.Text() + rest == total
  }

  lemma SplitRest(text: string, line: string, rest: string, total: string)
    requires text + (line + rest) == total
    ensures (text + line) + rest == total
  {
    assert text + (line + rest) == (text + line) + rest;
  }

  method AppendLine(log: TextBuffer, line: string, ghost rest: string, ghost total: string)
    requires Progress(log, total, line + rest) && Fragment(line)
    modifies log, log.buf
    ensures Progress(log, total, rest) && (log.buf == old(log.buf) || fresh(log.buf))
    ensures log.offset < log.size && log.buf[log.offset] == NUL
  {
    SplitRest(log.Text(), line, rest, total);
    log.Append(line);
  }

  /** The scratch array for one printed UUID, apart from the buffer. */
  predicate Scratch(buff: array<char>, log: TextBuffer)
    reads log
  {
    buff.Length == PRINT_UUID_STR_LEN && buff != log.buf
  }

  method AppendService(log: TextBuffer, buff: array<char>, s: Service,
      ghost rest: string, ghost total: string)
    requires Scratch(buff, log) && Progress(log, total, ServiceLine(s) + rest)
    modifies log, log.buf, buff
    ensures Progress(log, total, rest) && (log.buf == old(log.buf) || fresh(log.buf))
  {
    PrintUuid(buff, s.uuid, PRINT_UUID_STR_LEN);
    ServiceFragment(s);
    AppendLine(log, "Service 0 uuid " + CStr(buff[..]) + " serviceType " + Decimal(s.serviceType) + "\n", rest, total);
  }

  method AppendIncluded(log: TextBuffer, buff: array<char>, k: nat, svc: IncludedService,
      ghost rest: string, ghost total: string)
    requires k < 0x8000_0000 && Scratch(buff, log) && Progress(log, total, IncludedLine(k, svc) + rest)
    modifies log, log.buf, buff
    ensures Progress(log, total, rest) && (log.buf == old(log.buf) || fresh(log.buf))
  {
    PrintUuid(buff, svc.uuid, PRINT_UUID_STR_LEN);
    IncludedFragment(k, svc);
    var line := "Included Services " + Decimal(k) + " service Type " + Decimal(svc.serviceType) +
                " uuid " + CStr(buff[..]) + "\n";
    AppendLine(log, line, rest, total);
  }

  method AppendCharacteristic(log: TextBuffer, buff: array<char>, k: nat, c: Characteristic,
      ghost rest: string, ghost total: string)
    requires k < 256 && Scratch(buff, log) && Progress(log, total, CharacteristicLine(k, c) + rest)
    modifies log, log.buf, buff
    ensures Progress(log, total, rest) && (log.buf == old(log.buf) || fresh(log.buf))
  {
    PrintUuid(buff, c.uuid, PRINT_UUID_STR_LEN);
    CharacteristicFragment(k, c);
    var line := CharacteristicHead(c.descriptor.isNotify && c.descriptor.isSet) +
                Decimal(k) + " uuid " + CStr(buff[..]) + "\n";
    AppendLine(log, line, rest, total);
  }

  method AppendDescriptor(log: TextBuffer, buff: array<char>, d: Descriptor,
      ghost rest: string, ghost total: string)
    requires Scratch(buff, log) && Progress(log, total, DescriptorLine(d) + rest)
    modifies log, log.buf, buff
    ensures Progress(log, total, rest) && (log.buf == old(log.buf) || fresh(log.buf))
  {
    PrintUuid(buff, d.uuid, PRINT_UUID_STR_LEN);
    DescriptorFragment(0, d);
    AppendLine(log, "\t\tDescriptor UUID " + CStr(buff[..]) + "\n", rest, total);
  }

  method AppendNumbered(log: TextBuffer, buff: array<char>, k: nat, d: Descriptor,
      ghost i: nat, ghost rest: string, ghost total: string)
    requires Counts8(k, i) && Scratch(buff, log) && Progress(log, total, DescriptorAt(i, d) + rest)
    modifies log, log.buf, buff
    ensures Progress(log, total, rest) && (log.buf == old(log.buf) || fresh(log.buf))
  {
    PrintUuid(buff, d.uuid, PRINT_UUID_STR_LEN);
    DescriptorFragment(k, d);
    AppendLine(log, "\t\tDescriptor " + Decimal(k) + " UUID " + CStr(buff[..]) + "\n", rest, total);
  }

  method AppendNextNumbered(log: TextBuffer, buff: array<char>, k: nat, list: seq<Descriptor>, i: nat,
      ghost rest: string, ghost total: string)
    requires i < |list| && Counts8(k, i + 1) && Scratch(buff, log)
    requires Progress(log, total, RenderList(DescriptorAt, list[i..], i + 1) + rest)
    modifies log, log.buf, buff
    ensures Progress(log, total, RenderList(DescriptorAt, list[i + 1..], i + 2) + rest)
    ensures log.buf == old(log.buf) || fresh(log.buf)
  {
    NextItem(DescriptorAt, list, i, i + 1, rest);
    AppendNumbered(log, buff, k, list[i], i + 1, RenderList(DescriptorAt, list[i + 1..], i + 2) + rest, total);
  }

  method DumpIncluded(log: TextBuffer, buff: array<char>, list: seq<IncludedService>,
      ghost rest: string, ghost total: string)
    requires |list| <= 0x8000_0000 && Scratch(buff, log)
    requires Progress(log, total, RenderList(IncludedLine, list, 0) + rest)
    modifies log, log.buf, buff
    ensures Progress(log, total, rest) && (log.buf == old(log.buf) || fresh(log.buf))
  {
    var count := 0;
    while count < |list|
      invariant count <= |list| && Scratch(buff, log)
      invariant log.buf == old(log.buf) || fresh(log.buf)
      invariant Progress(log, total, RenderList(IncludedLine, list[count..], count) + rest)
    {
      NextItem(IncludedLine, list, count, count, rest);
      AppendIncluded(log, buff, count, list[count], RenderList(IncludedLine, list[count + 1..], count + 1) + rest,
                     total);
      count := count + 1;
    }
    NothingLeft(rest);
  }

  /** The descriptor list of one characteristic; its eight-bit counter starts at 1. */
  method DumpNumbered(log: TextBuffer, buff: array<char>, list: seq<Descriptor>,
      ghost rest: string, ghost total: string)
    requires Scratch(buff, log) && Progress(log, total, RenderList(DescriptorAt, list, 1) + rest)
    modifies log, log.buf, buff
    ensures Progress(log, total, rest) && (log.buf == old(log.buf) || fresh(log.buf))
  {
    var descNum := 1;
    var i := 0;
    while i < |list|
      invariant i <= |list| && Scratch(buff, log) && Counts8(descNum, i + 1)
      invariant log.buf == old(log.buf) || fresh(log.buf)
      invariant Progress(log, total, RenderList(DescriptorAt, list[i..], i + 1) + rest)
    {
      AppendNextNumbered(log, buff, descNum, list, i, rest, total);
      descNum := Increment8(descNum, i + 1);
      i := i + 1;
    }
    NothingLeft(rest);
  }

  method DumpDescriptors(log: TextBuffer, buff: array<char>, c: Characteristic,
      ghost rest: string, ghost total: string)
    requires Scratch(buff, log) && Progress(log, total, RenderDescriptors(c) + rest)
    modifies log, log.buf, buff
    ensures Progress(log, total, rest) && (log.buf == old(log.buf) || fresh(log.buf))
  {
    if c.descriptor.isSet {
      AppendDescriptor(log, buff, c.descriptor, rest, total);
    } else if c.multiDescCount != 0 {
      DumpNumbered(log, buff, c.descriptors, rest, total);
    } else {
      NothingLeft(rest);
    }
  }

  method DumpCharacteristic(log: TextBuffer, buff: array<char>, k: nat, c: Characteristic,
      ghost i: nat, ghost rest: string, ghost total: string)
    requires Counts8(k, i) && Scratch(buff, log) && Progress(log, total, CharacteristicAt(i, c) + rest)
    modifies log, log.buf, buff
    ensures Progress(log, total, rest) && (log.buf == old(log.buf) || fresh(log.buf))
  {
    ghost var descriptors := RenderDescriptors(c);
    Associative(CharacteristicLine(k, c), descriptors, rest);
    AppendCharacteristic(log, buff, k, c, descriptors + rest, total);
    DumpDescriptors(log, buff, c, rest, total);
  }

  method DumpCharacteristics(log: TextBuffer, buff: array<char>, list: seq<Characteristic>, ghost total: string)
    requires Scratch(buff, log) && Progress(log, total, RenderList(CharacteristicAt, list, 0) + [])
    modifies log, log.buf, buff
    ensures Progress(log, total, []) && (log.buf == old(log.buf) || fresh(log.buf))
  {
    var charCount := 0;
    var i := 0;
    while i < |list|
      invariant i <= |list| && Scratch(buff, log) && Counts8(charCount, i)
      invariant log.buf == old(log.buf) || fresh(log.buf)
      invariant Progress(log, total, RenderList(CharacteristicAt, list[i..], i) + [])
    {
      NextItem(CharacteristicAt, list, i, i, []);
      ghost var following := RenderList(CharacteristicAt, list[i + 1..], i + 1) + [];
      DumpCharacteristic(log, buff, charCount, list[i], i, following, total);
      charCount := Increment8(charCount, i);
      i := i + 1;
    }
    NothingLeft([]);
  }

  /** `utilsDumpServer`: a missing service leaves the buffer alone and returns NULL;
      otherwise the buffer grows by exactly the rendering. */
  method DumpServer(server: Option<Service>, log: TextBuffer) returns (dumped: bool)
    requires log.Valid()
    requires server.Some? ==> |server.value.included| <= 0x8000_0000
    modifies log, log.buf
    ensures log.Valid() && dumped == server.Some?
    ensures server.None? ==> log.buf == old(log.buf) && log.Text() == old(log.Text())
    ensures server.Some? ==>
              && log.Text() == old(log.Text()) + Render(server.value)
              && log.offset == old(log.offset) + |Render(server.value)|
  {
    if server.None? {
      return false;
    }
    var s := server.value;
    ghost var text, first := log.Text(), ServiceLine(s);
    ghost var included, tail := RenderList(IncludedLine, s.included, 0),
      RenderList(CharacteristicAt, s.characteristics, 0);
    ghost var total := text + Render(s);
    Associative(first, included, tail);
    NothingLeft(tail);
    var buff := new char[PRINT_UUID_STR_LEN];
    AppendService(log, buff, s, included + tail, total);
    DumpIncluded(log, buff, s.included, tail, total);
    assert tail + [] == tail;
    DumpCharacteristics(log, buff, s.characteristics, total);
    assert log.Text() == total by { assert log.Text() + [] == log.Text(); }
    return true;
  }

  // ----- what the rendering says

  function Lines(s: string): nat {
    if s == [] then 0 else (if s[0] == '\n' then 1 else 0) + Lines(s[1..])
  }

  lemma {:induction false} LinesConcat(a: string, b: string)
    ensures Lines(a + b) == Lines(a) + Lines(b)
  {
    if a == [] {
      assert a + b == b;
    } else {
      LinesConcat(a[1..], b);
      assert (a + b)[1..] == a[1..] + b;
    }
  }

  lemma {:induction false} NoLines(s: string)
    requires '\n' !in s
    ensures Lines(s) == 0
  {
    if s != [] { NoLines(s[1..]); }
  }

  lemma FragmentIsOneLine(f: string)
    requires Fragment(f)
    ensures Lines(f) == 1
  {
    assert f == f[..|f| - 1] + ['\n'];
    LinesConcat(f[..|f| - 1], ['\n']);
    NoLines(f[..|f| - 1]);
  }

  function Total<T>(count: T -> nat, list: seq<T>): nat {
    if list == [] then 0 else count(list[0]) + Total(count, list[1..])
  }

  lemma {:induction false} ListLines<T>(show: (nat, T) -> string, count: T -> nat, list: seq<T>, k: nat, bound: nat)
    requires k + |list| <= bound
    requires forall j: nat, x :: j < bound ==> Lines(show(j, x)) == count(x)
    ensures Lines(RenderList(show, list, k)) == Total(count, list)
  {
    if list != [] {
      LinesConcat(show(k, list[0]), RenderList(show, list[1..], k + 1));
      ListLines(show, count, list[1..], k + 1, bound);
    }
  }

  function One<T>(x: T): nat { 1 }

  lemma {:induction false} TotalOfOnes<T>(list: seq<T>)
    ensures Total((x: T) => One(x), list) == |list|
  {
    if list != [] { TotalOfOnes(list[1..]); }
  }

  lemma DescriptorAtIsOneLine(k: nat, d: Descriptor)
    ensures Lines(DescriptorAt(k, d)) == 1
  {
    DescriptorFragment(k % 256, d);
    FragmentIsOneLine(NumberedLine(k % 256, d));
  }

  /** How many descriptors of a characteristic are shown. */
  function Shown(c: Characteristic): nat {
    if c.descriptor.isSet then 1 else if c.multiDescCount != 0 then |c.descriptors| else 0
  }

  lemma CharacteristicAtLines(k: nat, c: Characteristic)
    ensures Lines(CharacteristicAt(k, c)) == 1 + Shown(c)
  {
    CharacteristicFragment(k % 256, c);
    FragmentIsOneLine(CharacteristicLine(k % 256, c));
    LinesConcat(CharacteristicLine(k % 256, c), RenderDescriptors(c));
    DescriptorsLines(c);
  }

  lemma DescriptorsLines(c: Characteristic)
    ensures Lines(RenderDescriptors(c)) == Shown(c)
  {
    if c.descriptor.isSet {
      DescriptorFragment(0, c.descriptor);
      FragmentIsOneLine(DescriptorLine(c.descriptor));
    } else if c.multiDescCount != 0 {
      forall j: nat, d ensures Lines(DescriptorAt(j, d)) == 1 { DescriptorAtIsOneLine(j, d); }
      ListLines(DescriptorAt, (x: Descriptor) => One(x), c.descriptors, 1, |c.descriptors| + 1);
      TotalOfOnes(c.descriptors);
    }
  }

  /** One line for the service, one for each included service, one for each
      characteristic and one for each shown descriptor, and no other. */
  lemma RenderedLines(s: Service)
    requires |s.included| <= 0x8000_0000
    ensures Lines(Render(s)) == 1 + |s.included| + Total((c: Characteristic) => 1 + Shown(c), s.characteristics)
  {
    var inc, chars := RenderList(IncludedLine, s.included, 0), RenderList(CharacteristicAt, s.characteristics, 0);
    ServiceFragment(s);
    FragmentIsOneLine(ServiceLine(s));
    LinesConcat(ServiceLine(s), inc);
    LinesConcat(ServiceLine(s) + inc, chars);
    forall j: nat, x | j < 0x8000_0000 ensures Lines(IncludedLine(j, x)) == 1 {
      IncludedFragment(j, x);
      FragmentIsOneLine(IncludedLine(j, x));
    }
    ListLines(IncludedLine, (x: IncludedService) => One(x), s.included, 0, 0x8000_0000);
    TotalOfOnes(s.included);
    forall j: nat, c ensures Lines(CharacteristicAt(j, c)) == 1 + Shown(c) { CharacteristicAtLines(j, c); }
    ListLines(CharacteristicAt, (c: Characteristic) => 1 + Shown(c), s.characteristics, 0, |s.characteristics|);
  }

  /** The rendering is in list order, and the entry at index `i` is shown with the
      counter `i`; for characteristics that is modulo 256. */
  lemma {:induction false} ListInOrder<T>(show: (nat, T) -> string, list: seq<T>, i: nat)
    requires i < |list|
    ensures RenderList(show, list, 0) ==
              RenderList(show, list[..i], 0) + (show(i, list[i]) + RenderList(show, list[i + 1..], i + 1))
  {
    assert list == list[..i] + list[i..];
    RenderConcat(show, list[..i], list[i..], 0);
    NextItem(show, list, i, i, []);
  }
}
