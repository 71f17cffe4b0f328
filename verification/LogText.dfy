/** The text form of change-log entries: UTF-8 and base64 (section 4 of RFC 4648) for tag values, decimal
    numbers for the rest, with spaces and commas between. */
module LogText {
  import opened Wrappers
  import opened PhotoData
  import opened ContainersUtils
  import opened ChangeLog

  type Byte = b: int | 0 <= b < 256

  // ----- UTF-8 -----

  function EncodedChar(c: char): (bytes: seq<Byte>)
    ensures 1 <= |bytes| <= 4
  {
    var n := c as int;
    if n < 0x80 then [n]
    else if n < 0x800 then [0xC0 + n / 64, 0x80 + n % 64]
    else if n < 0x1_0000 then [0xE0 + n / 4096, 0x80 + n / 64 % 64, 0x80 + n % 64]
    else [0xF0 + n / 262144, 0x80 + n / 4096 % 64, 0x80 + n / 64 % 64, 0x80 + n % 64]
  }

  function Utf8(s: string): seq<Byte> {
    if s == "" then [] else EncodedChar(s[0]) + Utf8(s[1..])
  }

  /** The length of a character's encoding, told by its first byte. */
  function CharLength(first: Byte): nat {
    if first < 0xC0 then 1 else if first < 0xE0 then 2 else if first < 0xF0 then 3 else 4
  }

  const REPLACEMENT := 0xFFFD as char

  function ScalarOf(n: int): char {
    if 0 <= n < 0xD800 || 0xE000 <= n < 0x11_0000 then n as char else REPLACEMENT
  }

  function DecodedChar(bytes: seq<Byte>): char
    requires 1 <= |bytes| <= 4
  {
    match |bytes|
    case 1 => ScalarOf(bytes[0])
    case 2 => ScalarOf(Less(bytes[0], 0xC0) * 64 + Less(bytes[1], 0x80))
    case 3 => ScalarOf(Less(bytes[0], 0xE0) * 4096 + Less(bytes[1], 0x80) * 64 + Less(bytes[2], 0x80))
    case _ =>
      ScalarOf(Less(bytes[0], 0xF0) * 262144 + Less(bytes[1], 0x80) * 4096 + Less(bytes[2], 0x80) * 64
               + Less(bytes[3], 0x80))
  }

  function Less(b: int, marker: int): int {
    b - marker
  }

  function FromUtf8(bytes: seq<Byte>): string {
    if bytes == [] then ""
    else
      var n := CharLength(bytes[0]);
      if n > |bytes| then [REPLACEMENT] else [DecodedChar(bytes[..n])] + FromUtf8(bytes[n..])
  }

  lemma {:induction false} CharRoundTrip(c: char)
    ensures CharLength(EncodedChar(c)[0]) == |EncodedChar(c)| && DecodedChar(EncodedChar(c)) == c
  {
    var n := c as int;
    Sextets(n);
    if n < 0x80 {
      assert EncodedChar(c) == [n];
    } else if n < 0x800 {
      assert EncodedChar(c) == [0xC0 + n / 64, 0x80 + n % 64];
    } else if n < 0x1_0000 {
      assert EncodedChar(c) == [0xE0 + n / 4096, 0x80 + n / 64 % 64, 0x80 + n % 64];
    } else {
      assert EncodedChar(c) == [0xF0 + n / 262144, 0x80 + n / 4096 % 64, 0x80 + n / 64 % 64, 0x80 + n % 64];
    }
  }

  /** A number and its parts of six bits. */
  lemma {:induction false} Sextets(n: int)
    requires 0 <= n
    ensures n == n / 64 * 64 + n % 64
    ensures n == n / 4096 * 4096 + n / 64 % 64 * 64 + n % 64
    ensures n == n / 262144 * 262144 + n / 4096 % 64 * 4096 + n / 64 % 64 * 64 + n % 64
  {
    var a, b := n / 64, n / 4096;
    assert a / 64 == b;
    assert b / 64 == n / 262144;
  }

  lemma {:induction false} Utf8RoundTrip(s: string)
    ensures FromUtf8(Utf8(s)) == s
  {
    if s != "" {
      var first, rest := EncodedChar(s[0]), Utf8(s[1..]);
      CharRoundTrip(s[0]);
      Utf8RoundTrip(s[1..]);
      assert (first + rest)[0] == first[0];
      assert (first + rest)[..|first|] == first && (first + rest)[|first|..] == rest;
    }
  }

  // ----- base64 -----

  const PAD := '='

  /** The 64 digits, in their order: letters, numerals, plus and slash. */
  function Digit(n: int): (c: char)
    requires 0 <= n < 64
    ensures c != PAD && c != ' ' && c != ',' && DigitValue(c) == n
  {
    if n < 26 then ('A' as int + n) as char
    else if n < 52 then ('a' as int + (n - 26)) as char
    else if n < 62 then ('0' as int + (n - 52)) as char
    else if n == 62 then '+'
    else '/'
  }

  function DigitValue(c: char): (n: int)
    ensures 0 <= n < 64
  {
    if 'A' <= c <= 'Z' then c as int - 'A' as int
    else if 'a' <= c <= 'z' then c as int - 'a' as int + 26
    else if '0' <= c <= '9' then c as int - '0' as int + 52
    else if c == '+' then 62
    else if c == '/' then 63
    else 0
  }

  /** Three bytes as four digits, and back. */
  function Quad(x: Byte, y: Byte, z: Byte): (q: string)
    ensures |q| == 4 && ' ' !in q && ',' !in q && PAD !in q
  {
    [Digit(x / 4), Digit(x % 4 * 16 + y / 16), Digit(y % 16 * 4 + z / 64), Digit(z % 64)]
  }

  function Triple(q: string): (bytes: seq<Byte>)
    requires |q| >= 4
    ensures |bytes| == 3
  {
    var a, b, c, d := DigitValue(q[0]), DigitValue(q[1]), DigitValue(q[2]), DigitValue(q[3]);
    [a * 4 + b / 16, b % 16 * 16 + c / 4, c % 4 * 64 + d]
  }

  lemma {:induction false} Parts(high: int, low: int, base: int)
    requires 0 <= low < base && (base == 4 || base == 16)
    ensures (high * base + low) / base == high && (high * base + low) % base == low
  {
  }

  lemma {:induction false} QuadRoundTrip(x: Byte, y: Byte, z: Byte)
    ensures Triple(Quad(x, y, z)) == [x, y, z]
  {
    Parts(x % 4, y / 16, 16);
    Parts(y % 16, z / 64, 4);
  }

  function Base64(bytes: seq<Byte>): string {
    match |bytes|
    case 0 => ""
    case 1 => Quad(bytes[0], 0, 0)[..2] + [PAD, PAD]
    case 2 => Quad(bytes[0], bytes[1], 0)[..3] + [PAD]
    case _ => Quad(bytes[0], bytes[1], bytes[2]) + Base64(bytes[3..])
  }

  function FromBase64(s: string): seq<Byte> {
    if |s| < 4 then []
    else if s[2] == PAD then Triple(s)[..1]
    else if s[3] == PAD then Triple(s)[..2]
    else Triple(s) + FromBase64(s[4..])
  }

  /** Padding reads as zero digits, which is what the missing bytes would give. */
  lemma {:induction false} OneByte(x: Byte)
    ensures FromBase64(Quad(x, 0, 0)[..2] + [PAD, PAD]) == [x]
  {
    var q := Quad(x, 0, 0);
    assert q[2] == Digit(0) && q[3] == Digit(0);
    QuadRoundTrip(x, 0, 0);
  }

  lemma {:induction false} TwoBytes(x: Byte, y: Byte)
    ensures FromBase64(Quad(x, y, 0)[..3] + [PAD]) == [x, y]
  {
    var q := Quad(x, y, 0);
    assert q[3] == Digit(0) && (q[..3] + [PAD])[2] == q[2];
    QuadRoundTrip(x, y, 0);
  }

  lemma {:induction false} Base64RoundTrip(bytes: seq<Byte>)
    ensures FromBase64(Base64(bytes)) == bytes
    decreases bytes, 1
  {
    if |bytes| == 1 {
      OneByte(bytes[0]);
    } else if |bytes| == 2 {
      TwoBytes(bytes[0], bytes[1]);
    } else if |bytes| >= 3 {
      MoreBytes(bytes);
    }
  }

  lemma {:induction false} MoreBytes(bytes: seq<Byte>)
    requires |bytes| >= 3
    ensures FromBase64(Base64(bytes)) == bytes
    decreases bytes, 0
  {
    Base64RoundTrip(bytes[3..]);
    ThreeBytes(bytes[0], bytes[1], bytes[2], Base64(bytes[3..]));
    QuadFirst(bytes);
    FrontAndRest(bytes);
  }

  lemma {:induction false} QuadFirst(bytes: seq<Byte>)
    requires |bytes| >= 3
    ensures Base64(bytes) == Quad(bytes[0], bytes[1], bytes[2]) + Base64(bytes[3..])
  {
  }

  lemma {:induction false} FrontAndRest(bytes: seq<Byte>)
    requires |bytes| >= 3
    ensures [bytes[0], bytes[1], bytes[2]] + bytes[3..] == bytes
  {
  }

  lemma {:induction false} ThreeBytes(x: Byte, y: Byte, z: Byte, rest: string)
    ensures FromBase64(Quad(x, y, z) + rest) == [x, y, z] + FromBase64(rest)
  {
    var q := Quad(x, y, z);
    assert (q + rest)[4..] == rest;
    QuadRoundTrip(x, y, z);
  }

  lemma {:induction false} Base64IsOneItem(bytes: seq<Byte>)
    ensures ' ' !in Base64(bytes) && ',' !in Base64(bytes)
  {
    if |bytes| >= 3 {
      Base64IsOneItem(bytes[3..]);
    }
  }

  // ----- numbers -----

  predicate AllDigits(s: string) {
    s != "" && forall i | 0 <= i < |s| :: '0' <= s[i] <= '9'
  }

  function Numeral(d: int): char
    requires 0 <= d < 10
  {
    (d + '0' as int) as char
  }

  function PrintedNat(n: nat): (s: string)
    ensures AllDigits(s)
  {
    (if n < 10 then "" else PrintedNat(n / 10)) + [Numeral(n % 10)]
  }

  function Printed(n: int): (s: string)
    ensures ' ' !in s && ',' !in s
  {
    if n < 0 then "-" + PrintedNat(-n) else PrintedNat(n)
  }

  function NatOf(s: string): int {
    if s == "" then 0 else NatOf(s[..|s| - 1]) * 10 + (s[|s| - 1] as int - '0' as int)
  }

  /** toInt: 0 for what is not a number. */
  function ToInt(s: string): int {
    if AllDigits(s) then NatOf(s)
    else if s != "" && s[0] == '-' && AllDigits(s[1..]) then -NatOf(s[1..])
    else 0
  }

  lemma {:induction false} NatRoundTrip(n: nat)
    ensures NatOf(PrintedNat(n)) == n
  {
    var front := if n < 10 then "" else PrintedNat(n / 10);
    if n >= 10 {
      NatRoundTrip(n / 10);
    }
    assert NatOf(front) == n / 10;
    assert (front + [Numeral(n % 10)])[..|front|] == front;
  }

  lemma {:induction false} NumberRoundTrip(n: int)
    ensures ToInt(Printed(n)) == n
  {
    if n < 0 {
      NatRoundTrip(-n);
      assert Printed(n)[0] == '-';
      assert Printed(n)[1..] == PrintedNat(-n);
    } else {
      NatRoundTrip(n);
    }
  }

  // ----- items -----

  /** QString::split. */
  function Split(s: string, separator: char): (items: seq<string>)
    ensures |items| >= 1
  {
    if s == "" then [""]
    else
      var rest := Split(s[1..], separator);
      if s[0] == separator then [""] + rest else [[s[0]] + rest[0]] + rest[1..]
  }

  lemma {:induction false} SplitOfItem(s: string, separator: char)
    requires separator !in s
    ensures Split(s, separator) == [s]
  {
    if s != "" {
      SplitOfItem(s[1..], separator);
      assert [s[0]] + s[1..] == s;
    }
  }

  lemma {:induction false} SplitAtFirst(s: string, separator: char, rest: string)
    requires separator !in s
    ensures Split(s + [separator] + rest, separator) == [s] + Split(rest, separator)
  {
    var all := s + [separator] + rest;
    if s == "" {
      assert all[1..] == rest;
    } else {
      SplitAtFirst(s[1..], separator, rest);
      assert all[1..] == s[1..] + [separator] + rest;
      assert [s[0]] + s[1..] == s;
    }
  }

  lemma {:induction false} SplitInTwo(a: string, separator: char, b: string)
    requires separator !in a && separator !in b
    ensures Split(a + [separator] + b, separator) == [a, b]
  {
    SplitAtFirst(a, separator, b);
    SplitOfItem(b, separator);
  }

  lemma {:induction false} SplitInThree(a: string, separator: char, b: string, c: string)
    requires separator !in a && separator !in b && separator !in c
    ensures Split(a + [separator] + (b + [separator] + c), separator) == [a, b, c]
  {
    SplitAtFirst(a, separator, b + [separator] + c);
    SplitInTwo(b, separator, c);
  }

  // ----- tags -----

  function EncodeTag(raw: string): string {
    Base64(Utf8(raw))
  }

  function EncodeTag2(tag: TagType, raw: string): string {
    Printed(tag) + " " + EncodeTag(raw)
  }

  function EncodeTag3(tag: TagType, oldRaw: string, newRaw: string): string {
    Printed(tag) + " " + (EncodeTag(oldRaw) + " " + EncodeTag(newRaw))
  }

  /** None where the source's assertion on the number of items fails. */
  function DecodeTag(encoded: string): Option<string> {
    if |Split(encoded, ' ')| == 1 then Some(FromUtf8(FromBase64(encoded))) else None
  }

  function DecodeTag2(encoded: string): Option<(TagType, string)> {
    var items := Split(encoded, ' ');
    if |items| != 2 then None
    else match DecodeTag(items[1])
      case Some(raw) => Some((ToInt(items[0]), raw))
      case None => None
  }

  function DecodeTag3(encoded: string): Option<(TagType, string, string)> {
    var items := Split(encoded, ' ');
    if |items| != 3 then None
    else match (DecodeTag(items[1]), DecodeTag(items[2]))
      case (Some(oldRaw), Some(newRaw)) => Some((ToInt(items[0]), oldRaw, newRaw))
      case _ => None
  }

  lemma {:induction false} ValueRoundTrip(raw: string)
    ensures ' ' !in EncodeTag(raw) && DecodeTag(EncodeTag(raw)) == Some(raw)
  {
    Base64IsOneItem(Utf8(raw));
    SplitOfItem(EncodeTag(raw), ' ');
    Base64RoundTrip(Utf8(raw));
    Utf8RoundTrip(raw);
  }

  /** A tag with its value is read back from its text, whatever the value, spaces and the empty one
      included; the assertions on the number of items hold. */
  lemma {:induction false} TagRoundTrip(tag: TagType, raw: string)
    ensures DecodeTag2(EncodeTag2(tag, raw)) == Some((tag, raw))
  {
    ValueRoundTrip(raw);
    NumberRoundTrip(tag);
    SplitInTwo(Printed(tag), ' ', EncodeTag(raw));
  }

  lemma {:induction false} TagChangeRoundTrip(tag: TagType, oldRaw: string, newRaw: string)
    ensures DecodeTag3(EncodeTag3(tag, oldRaw, newRaw)) == Some((tag, oldRaw, newRaw))
  {
    ValueRoundTrip(oldRaw);
    ValueRoundTrip(newRaw);
    NumberRoundTrip(tag);
    SplitInThree(Printed(tag), ' ', EncodeTag(oldRaw), EncodeTag(newRaw));
  }

  // ----- groups -----

  function RoleNumber(role: Role): int {
    match role case Alone => 0 case Representative => 1 case Member => 2
  }

  function RoleOf(n: int): Role {
    if n == 1 then Representative else if n == 2 then Member else Alone
  }

  function EncodeGroup(group: int, role: Role): string {
    Printed(group) + "," + Printed(RoleNumber(role))
  }

  function EncodeGroups(oldGroup: int, newGroup: int, oldRole: Role, newRole: Role): string {
    (Printed(oldGroup) + " " + Printed(newGroup)) + ","
    + (Printed(RoleNumber(oldRole)) + " " + Printed(RoleNumber(newRole)))
  }

  /** None where an item is missing. */
  function DecodeGroup(data: string): Option<(int, Role)> {
    var items := Split(data, ',');
    if |items| < 2 then None else Some((ToInt(items[0]), RoleOf(ToInt(items[1]))))
  }

  function DecodeGroups(data: string): Option<(int, int, Role, Role)> {
    var items := Split(data, ',');
    if |items| < 2 then None
    else
      var ids, types := Split(items[0], ' '), Split(items[1], ' ');
      if |ids| < 2 || |types| < 2 then None
      else Some((ToInt(ids[0]), ToInt(ids[1]), RoleOf(ToInt(types[0])), RoleOf(ToInt(types[1]))))
  }

  lemma {:induction false} GroupRoundTrip(group: int, role: Role)
    ensures DecodeGroup(EncodeGroup(group, role)) == Some((group, role))
  {
    NumberRoundTrip(group);
    NumberRoundTrip(RoleNumber(role));
    SplitInTwo(Printed(group), ',', Printed(RoleNumber(role)));
  }

  lemma {:induction false} PairRoundTrip(a: int, b: int)
    ensures Split(Printed(a) + " " + Printed(b), ' ') == [Printed(a), Printed(b)]
    ensures ToInt(Printed(a)) == a && ToInt(Printed(b)) == b
  {
    NumberRoundTrip(a);
    NumberRoundTrip(b);
    SplitInTwo(Printed(a), ' ', Printed(b));
  }

  lemma {:induction false} GroupChangeRoundTrip(oldGroup: int, newGroup: int, oldRole: Role, newRole: Role)
    ensures
      DecodeGroups(EncodeGroups(oldGroup, newGroup, oldRole, newRole)) == Some((oldGroup, newGroup, oldRole, newRole))
  {
    var ids := Printed(oldGroup) + " " + Printed(newGroup);
    var types := Printed(RoleNumber(oldRole)) + " " + Printed(RoleNumber(newRole));
    PairRoundTrip(oldGroup, newGroup);
    PairRoundTrip(RoleNumber(oldRole), RoleNumber(newRole));
    SplitInTwo(ids, ',', types);
  }

  // ----- entries -----

  function Encoded(data: Payload): string {
    match data
    case OneTag(tag, raw) => EncodeTag2(tag, raw)
    case TwoTags(tag, oldRaw, newRaw) => EncodeTag3(tag, oldRaw, newRaw)
    case OneGroup(group, role) => EncodeGroup(group, role)
    case TwoGroups(oldGroup, newGroup, oldRole, newRole) => EncodeGroups(oldGroup, newGroup, oldRole, newRole)
  }

  /** How dataToStr reads the data of an entry. */
  function Decoded(operation: Operation, field: Field, data: string): Option<Payload> {
    match field
    case TagsField =>
      if operation == Modify then
        match DecodeTag3(data) { case Some(d) => Some(TwoTags(d.0, d.1, d.2)) case None => None }
      else
        match DecodeTag2(data) { case Some(d) => Some(OneTag(d.0, d.1)) case None => None }
    case GroupField =>
      if operation == Modify then
        match DecodeGroups(data) { case Some(d) => Some(TwoGroups(d.0, d.1, d.2, d.3)) case None => None }
      else
        match DecodeGroup(data) { case Some(d) => Some(OneGroup(d.0, d.1)) case None => None }
  }

  /** An entry whose operation and field say how its data reads. */
  ghost predicate Readable(e: LogEntry) {
    Decoded(e.operation, e.field, Encoded(e.data)) == Some(e.data)
  }

  lemma {:induction false} TagsDifferenceIsReadable(photo: int, was: Tags, now: Tags)
    ensures forall e | e in TagsDifference(photo, was, now) :: Readable(e)
  {
    TagEntriesAreReadable(photo, Remove, Pairs(was, RemovedKeys(was, now)));
    ChangeEntriesAreReadable(photo, Triples(was, now, ChangedKeys(was, now, RawDiffers)));
    TagEntriesAreReadable(photo, Add, Pairs(now, RemovedKeys(now, was)));
  }

  lemma {:induction false} TagEntriesAreReadable(photo: int, operation: Operation, tags: seq<(TagType, TagValue)>)
    requires operation != Modify
    ensures forall e | e in TagEntries(photo, operation, tags) :: Readable(e)
  {
    forall e | e in TagEntries(photo, operation, tags)
      ensures Readable(e)
    {
      TagRoundTrip(e.data.tag, e.data.raw);
    }
  }

  lemma {:induction false} ChangeEntriesAreReadable(photo: int, tags: seq<(TagType, TagValue, TagValue)>)
    ensures forall e | e in ChangeEntries(photo, tags) :: Readable(e)
  {
    forall e | e in ChangeEntries(photo, tags)
      ensures Readable(e)
    {
      TagChangeRoundTrip(e.data.changedTag, e.data.oldRaw, e.data.newRaw);
    }
  }

  lemma {:induction false} GroupDifferenceIsReadable(photo: int, was: GroupInfo, now: GroupInfo)
    ensures forall e | e in GroupDifference(photo, was, now) :: Readable(e)
  {
    forall e | e in GroupDifference(photo, was, now) ensures Readable(e) {
      GroupEntryIsReadable(e);
    }
  }

  lemma {:induction false} GroupEntryIsReadable(e: LogEntry)
    requires e.field == GroupField && if e.operation == Modify then e.data.TwoGroups? else e.data.OneGroup?
    ensures Readable(e)
  {
    if e.operation == Modify {
      GroupChangeRoundTrip(e.data.oldGroup, e.data.newGroup, e.data.oldRole, e.data.newRole);
    } else {
      GroupRoundTrip(e.data.group, e.data.role);
    }
  }

  /** Every entry that an update logs is read back from its text as it was meant. */
  lemma {:induction false} LoggedTextIsReadable(photo: int, current: Row, delta: Delta)
    ensures forall e | e in Difference(photo, current, delta) :: Readable(e)
  {
    if delta.tags.Some? {
      TagsDifferenceIsReadable(photo, current.tags, delta.tags.value);
    }
    if delta.group.Some? {
      GroupDifferenceIsReadable(photo, current.group, delta.group.value);
    }
  }

  // ----- known texts -----

  /** The alphabet of section 4 of RFC 4648. */
  lemma {:induction false} KnownDigits()
    ensures Digit(0) == 'A' && Digit(25) == 'Z' && Digit(26) == 'a' && Digit(51) == 'z'
    ensures Digit(52) == '0' && Digit(61) == '9' && Digit(62) == '+' && Digit(63) == '/'
    ensures forall n | 0 <= n < 63 && n != 25 && n != 51 && n != 61 && n != 62 ::
      Digit(n + 1) as int == Digit(n) as int + 1
  {
  }

  /** Four digits are the number that the three bytes are, the highest first. */
  lemma {:induction false} QuadIsNumber(x: Byte, y: Byte, z: Byte)
    ensures var q := Quad(x, y, z);
      DigitValue(q[0]) * 262144 + DigitValue(q[1]) * 4096 + DigitValue(q[2]) * 64 + DigitValue(q[3]) ==
      x * 65536 + y * 256 + z
  {
  }

  /** Examples of section 10 of RFC 4648, of one byte and of two. */
  lemma {:induction false} KnownByte()
    ensures Base64([102]) == "Zg=="
  {
    assert Quad(102, 0, 0)[..2] == "Zg";
  }

  lemma {:induction false} KnownBytes()
    ensures Base64([102, 111]) == "Zm8="
  {
    assert Quad(102, 111, 0)[..3] == "Zm8";
  }

  /** Of longer ones, the first three bytes go before the others. */
  lemma {:induction false} Base64InThrees(bytes: seq<Byte>)
    requires |bytes| >= 3
    ensures Base64(bytes) == Base64(bytes[..3]) + Base64(bytes[3..])
  {
    assert bytes[..3][3..] == [];
  }

  /** The examples of section 7 of RFC 3629 of characters of one to four bytes. */
  lemma {:induction false} KnownUtf8()
    ensures EncodedChar(0x41 as char) == [0x41] && EncodedChar(0x391 as char) == [0xCE, 0x91]
    ensures EncodedChar(0x2262 as char) == [0xE2, 0x89, 0xA2]
    ensures EncodedChar(0x233B4 as char) == [0xF0, 0xA3, 0x8E, 0xB4]
  {
  }

  lemma {:induction false} KnownValue()
    ensures EncodeTag("f") == "Zg=="
  {
    assert Utf8("f") == [102];
    KnownByte();
  }

  lemma {:induction false} KnownNumbers()
    ensures Printed(1) == "1" && Printed(2) == "2" && Printed(3) == "3" && Printed(7) == "7" && Printed(10) == "10"
  {
    assert PrintedNat(1) == "1";
    assert PrintedNat(10) == PrintedNat(1) + "0";
  }

  /** The texts of entries: the tag, then its values, the old one first. */
  lemma {:induction false} TagTexts(tag: TagType, was: string, now: string)
    ensures Encoded(OneTag(tag, now)) == Printed(tag) + " " + EncodeTag(now)
    ensures Encoded(TwoTags(tag, was, now)) == Printed(tag) + " " + EncodeTag(was) + " " + EncodeTag(now)
  {
  }

  /** Numbers and roles of groups, the old ones first. */
  lemma {:induction false} KnownGroupText()
    ensures Encoded(OneGroup(3, Member)) == "3,2"
  {
    KnownNumbers();
  }

  lemma {:induction false} KnownGroupsText()
    ensures Encoded(TwoGroups(3, 7, Member, Representative)) == "3 7,2 1"
  {
    KnownNumbers();
    assert Printed(3) + " " + Printed(7) == "3 7" && Printed(2) + " " + Printed(1) == "2 1";
  }
}
