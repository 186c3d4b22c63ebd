/** Idempotency keys: internal/adapters/runner/idempotency.go. A byte is a bv8; section 5.4 of
    RFC 9562 fixes the version and variant bits. */
module Idempotency {
  import opened Wrappers

  type Bytes16 = s: seq<bv8> | |s| == 16 witness seq(16, _ => 0)

  // ---- Hexadecimal digits ----

  /** The lower-case digit of a four-bit value. */
  function HexDigit(n: bv8): (c: char)
    requires n < 16
  {
    if n == 0 then '0' else if n == 1 then '1' else if n == 2 then '2' else if n == 3 then '3'
    else if n == 4 then '4' else if n == 5 then '5' else if n == 6 then '6' else if n == 7 then '7'
    else if n == 8 then '8' else if n == 9 then '9' else if n == 10 then 'a' else if n == 11 then 'b'
    else if n == 12 then 'c' else if n == 13 then 'd' else if n == 14 then 'e' else 'f'
  }

  /** The value of a digit of either case. */
  function HexValue(c: char): Option<bv8> {
    match c
    case '0' => Some(0) case '1' => Some(1) case '2' => Some(2) case '3' => Some(3)
    case '4' => Some(4) case '5' => Some(5) case '6' => Some(6) case '7' => Some(7)
    case '8' => Some(8) case '9' => Some(9)
    case 'a' => Some(10) case 'b' => Some(11) case 'c' => Some(12)
    case 'd' => Some(13) case 'e' => Some(14) case 'f' => Some(15)
    case 'A' => Some(10) case 'B' => Some(11) case 'C' => Some(12)
    case 'D' => Some(13) case 'E' => Some(14) case 'F' => Some(15)
    case _ => None
  }

  function EncodeHex(bytes: seq<bv8>): (s: string)
    ensures |s| == 2 * |bytes|
  {
    if bytes == [] then "" else [HexDigit(bytes[0] >> 4), HexDigit(bytes[0] & 0x0f)] + EncodeHex(bytes[1..])
  }

  /** hex.DecodeString: fails on an odd length or on a character that is not a digit. */
  function DecodeHex(s: string): Option<seq<bv8>> {
    if s == "" then Some([])
    else if |s| == 1 then None
    else
      var high, low, rest := HexValue(s[0]), HexValue(s[1]), DecodeHex(s[2..]);
      if high.Some? && low.Some? && rest.Some? then Some([(high.value << 4) | low.value] + rest.value) else None
  }

  /** The sixteen digits of either case, and what they stand for. */
  lemma HexIs(c: char)
    ensures HexValue(c).Some? <==> '0' <= c <= '9' || 'a' <= c <= 'f' || 'A' <= c <= 'F'
    ensures HexValue(c).Some? ==>
              HexValue(c).value as int
              == if c <= '9' then c as int - 48 else if c <= 'F' then c as int - 55 else c as int - 87
  {
  }

  /** Two digits stand for a byte, the first one counting sixteen times. */
  lemma PairDecodes(c: char, d: char)
    requires HexValue(c).Some? && HexValue(d).Some?
    ensures DecodeHex([c, d]).Some? && |DecodeHex([c, d]).value| == 1
    ensures DecodeHex([c, d]).value[0] as int == 16 * HexValue(c).value as int + HexValue(d).value as int
  {
    assert [c, d][2..] == [];
    HexIs(c);
    HexIs(d);
    ShiftsJoin(HexValue(c).value, HexValue(d).value);
  }

  lemma ShiftsJoin(high: bv8, low: bv8)
    requires high < 16 && low < 16
    ensures ((high << 4) | low) as int == 16 * high as int + low as int
  {
    assert (high << 4) | low == 16 * high + low;
  }

  lemma NibblesRejoin(b: bv8)
    ensures HexValue(HexDigit(b >> 4)) == Some(b >> 4) && HexValue(HexDigit(b & 0x0f)) == Some(b & 0x0f)
    ensures ((b >> 4) << 4) | (b & 0x0f) == b
  {
  }

  lemma {:induction false} DecodeEncode(bytes: seq<bv8>)
    ensures DecodeHex(EncodeHex(bytes)) == Some(bytes)
  {
    if bytes != [] {
      NibblesRejoin(bytes[0]);
      DecodeEncode(bytes[1..]);
      var s := EncodeHex(bytes);
      assert s[2..] == EncodeHex(bytes[1..]);
      assert HexValue(s[0]) == Some(bytes[0] >> 4) && HexValue(s[1]) == Some(bytes[0] & 0x0f);
      assert [bytes[0]] + bytes[1..] == bytes;
    }
  }

  lemma {:induction false} EncodeHexConcat(a: seq<bv8>, b: seq<bv8>)
    ensures EncodeHex(a + b) == EncodeHex(a) + EncodeHex(b)
  {
    if a == [] {
      assert a + b == b;
    } else {
      assert (a + b)[1..] == a[1..] + b;
      EncodeHexConcat(a[1..], b);
    }
  }

  predicate IsHex(c: char) {
    HexValue(c).Some?
  }

  /** Decoding succeeds exactly on an even number of digits. */
  lemma {:induction false} DecodeHexIff(s: string)
    ensures DecodeHex(s).Some? <==> |s| % 2 == 0 && forall c | c in s :: IsHex(c)
    decreases |s|
  {
    if 2 <= |s| {
      DecodeHexIff(s[2..]);
      assert s == [s[0], s[1]] + s[2..];
      assert forall c :: c in s <==> c == s[0] || c == s[1] || c in s[2..];
      assert HexValue(s[0]).Some? == IsHex(s[0]) && HexValue(s[1]).Some? == IsHex(s[1]);
    } else if |s| == 1 {
      assert DecodeHex(s).None?;
    }
  }

  // ---- Dashes ----

  /** strings.ReplaceAll(s, "-", ""). */
  function WithoutDashes(s: string): string {
    if s == "" then "" else (if s[0] == '-' then "" else [s[0]]) + WithoutDashes(s[1..])
  }

  lemma {:induction false} WithoutDashesConcat(a: string, b: string)
    ensures WithoutDashes(a + b) == WithoutDashes(a) + WithoutDashes(b)
  {
    if a == "" {
      assert a + b == b;
    } else {
      assert (a + b)[1..] == a[1..] + b;
      WithoutDashesConcat(a[1..], b);
    }
  }

  lemma {:induction false} WithoutDashesContains(s: string, c: char)
    ensures c in WithoutDashes(s) <==> c in s && c != '-'
  {
    if s != "" {
      assert s == [s[0]] + s[1..];
      WithoutDashesContains(s[1..], c);
    }
  }

  lemma {:induction false} NothingToRemove(s: string)
    requires '-' !in s
    ensures WithoutDashes(s) == s
  {
    if s != "" {
      NothingToRemove(s[1..]);
    }
  }

  lemma {:induction false} EncodeHexIsHex(bytes: seq<bv8>)
    ensures forall c | c in EncodeHex(bytes) :: IsHex(c) && c != '-'
  {
    if bytes != [] {
      EncodeHexIsHex(bytes[1..]);
    }
  }

  // ---- Keys ----

  /** The bits of byte i that stay random. */
  function RandomBits(i: nat): bv8 {
    if i == 6 then 0x0f else if i == 8 then 0x3f else 0xff
  }

  function ForcedBits(i: nat): bv8 {
    if i == 6 then 0x40 else if i == 8 then 0x80 else 0x00
  }

  /** The random bytes with version 4 and the variant put in. */
  function Forced(random: Bytes16): Bytes16 {
    seq(16, i requires 0 <= i < 16 => (random[i] & RandomBits(i)) | ForcedBits(i))
  }

  function Dashed(a: string, b: string, c: string, d: string, e: string): string {
    a + "-" + b + "-" + c + "-" + d + "-" + e
  }

  function FormatKey(value: Bytes16): string {
    Dashed(EncodeHex(value[0..4]), EncodeHex(value[4..6]), EncodeHex(value[6..8]),
           EncodeHex(value[8..10]), EncodeHex(value[10..16]))
  }

  /** Fills a local array and masks two of its bytes in place. `random` is what the system's random
      source yields, None when reading it fails. */
  method NewIdempotencyKey(random: Option<Bytes16>) returns (key: Option<string>)
    ensures key == if random.Some? then Some(FormatKey(Forced(random.value))) else None
  {
    if random.None? {
      return None;
    }
    var value := new bv8[16](i requires 0 <= i < 16 => random.value[i]);
    value[6] := (value[6] & 0x0f) | 0x40;
    value[8] := (value[8] & 0x3f) | 0x80;
    assert value[..] == Forced(random.value);
    assert value[0..4] == value[..][0..4] && value[4..6] == value[..][4..6] && value[6..8] == value[..][6..8]
        && value[8..10] == value[..][8..10] && value[10..16] == value[..][10..16];
    return Some(Dashed(EncodeHex(value[0..4]), EncodeHex(value[4..6]), EncodeHex(value[6..8]),
                       EncodeHex(value[8..10]), EncodeHex(value[10..16])));
  }

  predicate IsUUIDVersion(value: string, version: char) {
    && |value| == 36
    && value[8] == '-' && value[13] == '-' && value[18] == '-' && value[23] == '-'
    && value[14] == version && value[19] in "89abAB"
    && DecodeHex(WithoutDashes(value)).Some?
  }

  predicate IsUUIDv4(value: string) {
    IsUUIDVersion(value, '4')
  }

  lemma GroupWithoutDashes(group: string, rest: string)
    requires '-' !in group
    ensures WithoutDashes(group + "-" + rest) == group + WithoutDashes(rest)
  {
    NothingToRemove(group);
    WithoutDashesConcat(group, "-" + rest);
    assert group + "-" + rest == group + ("-" + rest);
    assert ("-" + rest)[1..] == rest;
    assert "" + WithoutDashes(rest) == WithoutDashes(rest);
  }

  lemma DashedWithoutDashes(a: string, b: string, c: string, d: string, e: string)
    requires '-' !in a && '-' !in b && '-' !in c && '-' !in d && '-' !in e
    ensures WithoutDashes(Dashed(a, b, c, d, e)) == a + b + c + d + e
  {
    var four := d + "-" + e;
    var three := c + "-" + four;
    var two := b + "-" + three;
    GroupWithoutDashes(d, e);
    GroupWithoutDashes(c, four);
    GroupWithoutDashes(b, three);
    GroupWithoutDashes(a, two);
    NothingToRemove(e);
    assert Dashed(a, b, c, d, e) == a + "-" + two;
    assert a + (b + (c + (d + e))) == a + b + c + d + e;
  }

  /** Taking the dashes out of a key and decoding it gives back the sixteen bytes. */
  lemma KeyDecodes(value: Bytes16)
    ensures DecodeHex(WithoutDashes(FormatKey(value))) == Some(value)
  {
    var a, b, c, d, e := value[0..4], value[4..6], value[6..8], value[8..10], value[10..16];
    EncodeHexIsHex(a); EncodeHexIsHex(b); EncodeHexIsHex(c); EncodeHexIsHex(d); EncodeHexIsHex(e);
    DashedWithoutDashes(EncodeHex(a), EncodeHex(b), EncodeHex(c), EncodeHex(d), EncodeHex(e));
    EncodeHexConcat(a, b);
    EncodeHexConcat(a + b, c);
    EncodeHexConcat(a + b + c, d);
    EncodeHexConcat(a + b + c + d, e);
    assert value == a + b + c + d + e;
    DecodeEncode(value);
  }

  lemma ForcedDigits(random: Bytes16)
    ensures HexDigit(Forced(random)[6] >> 4) == '4'
    ensures HexDigit(Forced(random)[8] >> 4) in "89ab"
  {
    var version, variant := Forced(random)[6] >> 4, Forced(random)[8] >> 4;
    assert version == 4;
    assert variant == 8 || variant == 9 || variant == 10 || variant == 11;
  }

  /** The four bits that name the version are 0100 and the two that name the variant 10; every other bit of
      the sixteen bytes is the random one. */
  lemma ForcedIs(random: Bytes16)
    ensures Forced(random)[6] >> 4 == 4 && Forced(random)[6] & 0x0f == random[6] & 0x0f
    ensures Forced(random)[8] >> 6 == 2 && Forced(random)[8] & 0x3f == random[8] & 0x3f
    ensures forall i | 0 <= i < 16 && i != 6 && i != 8 :: Forced(random)[i] == random[i]
  {
  }

  predicate LowerDigits(s: string) {
    forall i | 0 <= i < |s| :: '0' <= s[i] <= '9' || 'a' <= s[i] <= 'f'
  }

  lemma {:induction false} EncodedInLowerDigits(bytes: seq<bv8>)
    ensures LowerDigits(EncodeHex(bytes))
  {
    if bytes != [] {
      EncodedInLowerDigits(bytes[1..]);
    }
  }

  /** Dashes after 8, 12, 16 and 20 lower-case digits, and 12 more digits behind them. */
  predicate InGroups(key: string) {
    && |key| == 36 && key[8] == key[13] == key[18] == key[23] == '-'
    && LowerDigits(key[..8]) && LowerDigits(key[9..13]) && LowerDigits(key[14..18]) && LowerDigits(key[19..23])
    && LowerDigits(key[24..])
  }

  /** The form a key is printed in. */
  lemma KeyIsInGroups(value: Bytes16)
    ensures InGroups(FormatKey(value))
  {
    EncodedInLowerDigits(value[0..4]); EncodedInLowerDigits(value[4..6]); EncodedInLowerDigits(value[6..8]);
    EncodedInLowerDigits(value[8..10]); EncodedInLowerDigits(value[10..16]);
    GroupsAre(EncodeHex(value[0..4]), EncodeHex(value[4..6]), EncodeHex(value[6..8]),
              EncodeHex(value[8..10]), EncodeHex(value[10..16]));
  }

  lemma GroupsAre(a: string, b: string, c: string, d: string, e: string)
    requires |a| == 8 && |b| == |c| == |d| == 4 && |e| == 12
    ensures var key := Dashed(a, b, c, d, e);
            && |key| == 36 && key[8] == key[13] == key[18] == key[23] == '-'
            && key[..8] == a && key[9..13] == b && key[14..18] == c && key[19..23] == d && key[24..] == e
  {
  }

  /** The round trip: every generated key is accepted as a version 4 UUID and decodes to the random
      bytes with nothing but the six forced bits changed. */
  lemma KeyRoundTrip(random: Bytes16)
    ensures IsUUIDv4(FormatKey(Forced(random)))
    ensures DecodeHex(WithoutDashes(FormatKey(Forced(random)))) == Some(Forced(random))
    ensures forall i | 0 <= i < 16 :: Forced(random)[i] & RandomBits(i) == random[i] & RandomBits(i)
  {
    var value := Forced(random);
    KeyDecodes(value);
    ForcedDigits(random);
    var key := FormatKey(value);
    assert EncodeHex(value[6..8])[0] == HexDigit(value[6] >> 4);
    assert EncodeHex(value[8..10])[0] == HexDigit(value[8] >> 4);
    assert key[14] == EncodeHex(value[6..8])[0] && key[19] == EncodeHex(value[8..10])[0];
    assert key[19] in "89abAB" by { assert forall c | c in "89ab" :: c in "89abAB"; }
  }

  /** Two keys are equal exactly when the other 122 bits agree. */
  lemma KeysEqualIff(a: Bytes16, b: Bytes16)
    ensures FormatKey(Forced(a)) == FormatKey(Forced(b))
       <==> forall i | 0 <= i < 16 :: a[i] & RandomBits(i) == b[i] & RandomBits(i)
  {
    KeyDecodes(Forced(a));
    KeyDecodes(Forced(b));
    KeyRoundTrip(a);
    KeyRoundTrip(b);
    if forall i | 0 <= i < 16 :: a[i] & RandomBits(i) == b[i] & RandomBits(i) {
      assert Forced(a) == Forced(b);
    }
  }

  // ---- What the validator accepts ----

  predicate Separated(value: string) {
    |value| == 36 && value[8] == '-' && value[13] == '-' && value[18] == '-' && value[23] == '-'
  }

  /** Exactly the accepted strings: beside the fixed places, digits and an even number of dashes. */
  lemma AcceptedIff(value: string, version: char)
    ensures IsUUIDVersion(value, version)
       <==> && Separated(value) && value[14] == version && value[19] in "89abAB"
            && (forall c | c in value :: IsHex(c) || c == '-')
            && |WithoutDashes(value)| % 2 == 0
  {
    DecodeHexIff(WithoutDashes(value));
    forall c | c in value || c in WithoutDashes(value) ensures c in WithoutDashes(value) <==> c in value && c != '-' {
      WithoutDashesContains(value, c);
    }
  }

  /** A UUID in the form of section 4 of RFC 9562: dashes in the four places and nowhere else. */
  predicate WellFormed(value: string, version: char) {
    && Separated(value) && value[14] == version && value[19] in "89abAB"
    && forall i | 0 <= i < 36 && i !in {8, 13, 18, 23} :: IsHex(value[i])
  }

  /** An accepted string is a well-formed UUID if and only if it has no dash in another place. */
  lemma WellFormedIff(value: string, version: char)
    ensures WellFormed(value, version)
       <==> IsUUIDVersion(value, version) && forall i | 0 <= i < 36 && i !in {8, 13, 18, 23} :: value[i] != '-'
  {
    AcceptedIff(value, version);
    if Separated(value) && forall i | 0 <= i < 36 && i !in {8, 13, 18, 23} :: value[i] != '-' {
      var a, b, c, d, e := value[..8], value[9..13], value[14..18], value[19..23], value[24..];
      assert value == Dashed(a, b, c, d, e);
      DashedWithoutDashes(a, b, c, d, e);
    }
  }

  function Digits(x: char, n: nat): string {
    seq(n, _ => x)
  }

  function LastGroups(x: char): string {
    Dashed(Digits(x, 4), Digits(x, 4), "4" + Digits(x, 3), "8" + Digits(x, 3), Digits(x, 12))
  }

  /** xx--xxxx-xxxx-4xxx-8xxx-xxxxxxxxxxxx, with a dash too many in two places. */
  function TwoExtraDashes(x: char): string {
    Digits(x, 2) + "-" + ("" + "-" + LastGroups(x))
  }

  lemma ExtraDashesShape(x: char)
    requires IsHex(x)
    ensures Separated(TwoExtraDashes(x)) && TwoExtraDashes(x)[14] == '4' && TwoExtraDashes(x)[19] == '8'
    ensures TwoExtraDashes(x)[2] == '-'
    ensures forall c | c in TwoExtraDashes(x) :: IsHex(c) || c == '-'
  {
    var head, tail := Digits(x, 2) + "-" + "" + "-", LastGroups(x);
    assert TwoExtraDashes(x) == head + tail;
    assert tail[4] == tail[9] == tail[14] == tail[19] == '-' && tail[10] == '4' && tail[15] == '8';
  }

  lemma ExtraDashesLength(x: char)
    requires IsHex(x)
    ensures |WithoutDashes(TwoExtraDashes(x))| == 30
  {
    var tail := LastGroups(x);
    DashedWithoutDashes(Digits(x, 4), Digits(x, 4), "4" + Digits(x, 3), "8" + Digits(x, 3), Digits(x, 12));
    GroupWithoutDashes("", tail);
    GroupWithoutDashes(Digits(x, 2), "" + "-" + tail);
  }

  /** Two more dashes go unnoticed. */
  lemma ExtraDashesAreAccepted(x: char)
    requires IsHex(x)
    ensures IsUUIDv4(TwoExtraDashes(x)) && !WellFormed(TwoExtraDashes(x), '4')
  {
    ExtraDashesShape(x);
    ExtraDashesLength(x);
    AcceptedIff(TwoExtraDashes(x), '4');
    assert !IsHex('-');
  }
}
