/** The hex formatting and parsing the receivers rely on: `Number.prototype.toString(16)`,
    `String.prototype.padStart`, `Buffer.prototype.toString('hex')`, `substring(0, 8)` and
    `parseInt(s, 16)`, each as a function, with the round trips that make the formatted
    identifiers usable as dictionary keys. */
module Hex {
  import opened CanFrame

  /** A parse result: `None` where JavaScript would give `NaN`. */
  datatype Option<T> = None | Some(value: T)

  predicate IsHexChar(c: char) {
    '0' <= c <= '9' || 'a' <= c <= 'f' || 'A' <= c <= 'F'
  }

  predicate AllHex(s: string) {
    forall i :: 0 <= i < |s| ==> IsHexChar(s[i])
  }

  predicate NoLowerCase(s: string) {
    forall i :: 0 <= i < |s| ==> !('a' <= s[i] <= 'z')
  }

  function DigitValue(c: char): (d: nat)
    requires IsHexChar(c)
    ensures d < 16
  {
    if '0' <= c <= '9' then c as int - '0' as int
    else if 'a' <= c <= 'f' then c as int - 'a' as int + 10
    else c as int - 'A' as int + 10
  }

  /** The hex digit of `d`; `upper` selects the letters `toUpperCase()` leaves. */
  function Digit(d: nat, upper: bool): (c: char)
    requires d < 16
    ensures IsHexChar(c) && DigitValue(c) == d
    ensures upper ==> !('a' <= c <= 'z')
    ensures !upper ==> !('A' <= c <= 'Z')
  {
    if d < 10 then ('0' as int + d) as char
    else if upper then ('A' as int + d - 10) as char
    else ('a' as int + d - 10) as char
  }

  /** `n.toString(16)`, followed by `toUpperCase()` when `upper`: the shortest
      hex numeral of `n`, which has no leading zero unless `n` is 0. */
  function NatHex(n: nat, upper: bool): (s: string)
    ensures |s| >= 1 && AllHex(s)
    ensures upper ==> NoLowerCase(s)
    ensures n > 0 ==> s[0] != '0'
    decreases n
  {
    if n < 16 then [Digit(n, upper)]
    else NatHex(n / 16, upper) + [Digit(n % 16, upper)]
  }

  /** The value of a string of hex digits, most significant digit first. */
  function HexValue(s: string): nat
    requires AllHex(s)
  {
    if s == [] then 0 else HexValue(s[..|s| - 1]) * 16 + DigitValue(s[|s| - 1])
  }

  /** `toString(16)` is a numeral for `n`. */
  lemma {:induction false} NatHexValue(n: nat, upper: bool)
    ensures HexValue(NatHex(n, upper)) == n
    decreases n
  {
    if n >= 16 {
      var s := NatHex(n, upper);
      NatHexValue(n / 16, upper);
      assert s[..|s| - 1] == NatHex(n / 16, upper);
    }
  }

  /** Leading zeros do not change the value of a numeral. */
  lemma {:induction false} LeadingZerosValue(z: string, s: string)
    requires forall i :: 0 <= i < |z| ==> z[i] == '0'
    requires AllHex(s)
    ensures AllHex(z + s) && HexValue(z + s) == HexValue(s)
    decreases |z| + |s|
  {
    var t := z + s;
    if s == [] {
      assert t == z;
      if z != [] {
        var z' := z[..|z| - 1];
        LeadingZerosValue(z', []);
        assert z' + [] == z' == t[..|t| - 1];
      }
    } else {
      var s' := s[..|s| - 1];
      LeadingZerosValue(z, s');
      assert t[..|t| - 1] == z + s';
    }
  }

  /** `s.padStart(width, fill)`: `s` left-padded with `fill` up to `width`
      characters, and returned whole when it is already that long. */
  function PadStart(s: string, width: nat, fill: char): string {
    if |s| >= width then s else seq(width - |s|, _ => fill) + s
  }

  /** The padded string is `width` long unless `s` already was longer, ends
      with `s`, and is `fill` before that. */
  lemma PadStartShape(s: string, width: nat, fill: char)
    ensures var r := PadStart(s, width, fill);
      && |r| == (if |s| < width then width else |s|)
      && r[|r| - |s|..] == s
      && forall i :: 0 <= i < |r| - |s| ==> r[i] == fill
  {
  }

  /** The key a receiver files a frame under:
      `0x${id.toString(16).toUpperCase().padStart(width, '0')}`.
      Width 0 is the unpadded form `0x${id.toString(16).toUpperCase()}`. */
  function IdKey(id: nat, width: nat): string {
    "0x" + PadStart(NatHex(id, true), width, '0')
  }

  /** A key is `0x` followed by at least `width` (and at least one) upper-case
      hex digits. */
  lemma IdKeyShape(id: nat, width: nat)
    ensures var k := IdKey(id, width);
      && |k| >= 3 && |k| >= width + 2 && k[..2] == "0x"
      && NoLowerCase(k[2..]) && AllHex(k[2..])
  {
    var p := PadStart(NatHex(id, true), width, '0');
    PadStartShape(NatHex(id, true), width, '0');
    assert IdKey(id, width)[2..] == p;
  }

  /** The longest prefix of `s` made of hex digits: the part `parseInt` reads. */
  function HexPrefix(s: string): (p: string)
    ensures AllHex(p) && p <= s
    ensures |p| < |s| ==> !IsHexChar(s[|p|])
  {
    if s == [] || !IsHexChar(s[0]) then [] else [s[0]] + HexPrefix(s[1..])
  }

  /** `parseInt(s, 16)`: a `0x` or `0X` prefix is skipped, then the longest run of
      hex digits is read; `None` stands for `NaN` (not even one digit).
      Leading white space and a sign are not modelled. */
  function ParseInt16(s: string): Option<nat>
  {
    var body := if |s| >= 2 && s[0] == '0' && (s[1] == 'x' || s[1] == 'X') then s[2..] else s;
    var digits := HexPrefix(body);
    if digits == [] then None else Some(HexValue(digits))
  }

  /** Parsing a formatted key gives back the identifier, whatever the padding. */
  lemma IdKeyParses(id: nat, width: nat)
    ensures ParseInt16(IdKey(id, width)) == Some(id)
  {
    var h := NatHex(id, true);
    var p := PadStart(h, width, '0');
    PaddedNumeralValue(h, width);
    NatHexValue(id, true);
    HexPrefixOfNumeral(p);
    var k := IdKey(id, width);
    assert k == "0x" + p;
    assert k[0] == '0' && k[1] == 'x' && k[2..] == p;
  }

  /** Zero padding keeps a numeral a numeral of the same value. */
  lemma PaddedNumeralValue(h: string, width: nat)
    requires AllHex(h)
    ensures AllHex(PadStart(h, width, '0'))
    ensures HexValue(PadStart(h, width, '0')) == HexValue(h)
  {
    var p := PadStart(h, width, '0');
    PadStartShape(h, width, '0');
    var z := p[..|p| - |h|];
    assert p == z + h;
    LeadingZerosValue(z, h);
  }

  /** `parseInt` reads the whole of a string of hex digits. */
  lemma {:induction false} HexPrefixOfNumeral(s: string)
    requires AllHex(s)
    ensures HexPrefix(s) == s
  {
    if s != [] {
      HexPrefixOfNumeral(s[1..]);
      assert s == [s[0]] + s[1..];
    }
  }

  /** Distinct identifiers get distinct keys, even under different paddings. */
  lemma IdKeyInjective(a: nat, wa: nat, b: nat, wb: nat)
    requires IdKey(a, wa) == IdKey(b, wb)
    ensures a == b
  {
    IdKeyParses(a, wa);
    IdKeyParses(b, wb);
  }

  /** The two hex digits of one byte. */
  function ByteHex(b: byte, upper: bool): (s: string)
    ensures |s| == 2 && AllHex(s)
  {
    [Digit(b as nat / 16, upper), Digit(b as nat % 16, upper)]
  }

  /** `buf.toString('hex')`, followed by `toUpperCase()` when `upper`. */
  function BytesHex(data: seq<byte>, upper: bool): (s: string)
    ensures |s| == 2 * |data| && AllHex(s)
  {
    if data == [] then [] else ByteHex(data[0], upper) + BytesHex(data[1..], upper)
  }

  /** `toString('hex')` writes lower-case digits, and `toUpperCase()` leaves no
      lower-case letter. */
  lemma {:induction false} BytesHexCase(data: seq<byte>, upper: bool)
    ensures upper ==> NoLowerCase(BytesHex(data, upper))
    ensures !upper ==> forall i :: 0 <= i < |BytesHex(data, upper)| ==> !('A' <= BytesHex(data, upper)[i] <= 'Z')
  {
    if data != [] {
      BytesHexCase(data[1..], upper);
      var s := BytesHex(data, upper);
      var b := ByteHex(data[0], upper);
      var t := BytesHex(data[1..], upper);
      assert s == b + t;
      forall i | 0 <= i < |s|
        ensures upper ==> !('a' <= s[i] <= 'z')
        ensures !upper ==> !('A' <= s[i] <= 'Z')
      {
        if i >= 2 {
          assert s[i] == t[i - 2];
        }
      }
    }
  }

  lemma {:induction false} BytesHexAppend(a: seq<byte>, b: seq<byte>, upper: bool)
    ensures BytesHex(a + b, upper) == BytesHex(a, upper) + BytesHex(b, upper)
  {
    if a == [] {
      assert a + b == b;
    } else {
      assert (a + b)[1..] == a[1..] + b;
      BytesHexAppend(a[1..], b, upper);
    }
  }

  /** Reading a hex string back two digits at a time. */
  function HexBytes(s: string): (data: seq<byte>)
    requires AllHex(s) && |s| % 2 == 0
    ensures |data| == |s| / 2
  {
    if s == [] then [] else [(DigitValue(s[0]) * 16 + DigitValue(s[1])) as byte] + HexBytes(s[2..])
  }

  /** The payload hex loses nothing: it decodes to the payload. */
  lemma {:induction false} BytesHexRoundTrip(data: seq<byte>, upper: bool)
    ensures HexBytes(BytesHex(data, upper)) == data
  {
    if data != [] {
      var s := BytesHex(data, upper);
      assert s[2..] == BytesHex(data[1..], upper);
      BytesHexRoundTrip(data[1..], upper);
    }
  }

  /** `hex.substring(0, 8)`: the first eight characters, or all of a shorter string. */
  function Txid(hex: string): string
  {
    hex[..if |hex| < 8 then |hex| else 8]
  }

  /** The `txid` of a payload is the hex of its first four bytes, or of all of
      them when there are fewer, with no padding. */
  lemma TxidIsFirstFourBytes(data: seq<byte>, upper: bool)
    ensures Txid(BytesHex(data, upper)) == BytesHex(data[..if |data| < 4 then |data| else 4], upper)
  {
    var k := if |data| < 4 then |data| else 4;
    assert data == data[..k] + data[k..];
    BytesHexAppend(data[..k], data[k..], upper);
  }
}
