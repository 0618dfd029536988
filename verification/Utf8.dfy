/** UTF-8 as Python's strict codec reads and writes it (RFC 3629, section 3). */
module Utf8 {
  import opened Text

  type Byte = n: nat | n < 256
  type Bytes = seq<Byte>

  /** The bytes of one character. */
  function EncodeChar(c: char): (b: Bytes)
    ensures 1 <= |b| <= 4
    ensures (c as int) < 0x80 ==> b == [c as int]
  {
    var n := c as int;
    if n < 0x80 then [n]
    else if n < 0x800 then [0xC0 + n / 64, 0x80 + n % 64]
    else if n < 0x1_0000 then [0xE0 + n / 4096, 0x80 + n / 64 % 64, 0x80 + n % 64]
    else [0xF0 + n / 262144, 0x80 + n / 4096 % 64, 0x80 + n / 64 % 64, 0x80 + n % 64]
  }

  /** Python's `s.encode("utf-8")`. */
  function Encode(s: string): Bytes {
    if s == "" then [] else EncodeChar(s[0]) + Encode(s[1..])
  }

  predicate Continues(b: Bytes, i: nat) {
    i < |b| && 0x80 <= b[i] < 0xC0
  }

  /** The six bits a continuation byte carries. */
  function Six(b: Byte): nat
    requires 0x80 <= b
  {
    b - 0x80
  }

  function Scalar(n: nat, length: nat): Option<(char, nat)> {
    if n < 0xD800 || 0xE000 <= n < 0x11_0000 then Some((n as char, length)) else None
  }

  /** The character at the front of `b` and how many bytes it takes. Overlong forms,
      surrogates, values above U+10FFFF and cut-off sequences are refused. */
  function DecodeChar(b: Bytes): (r: Option<(char, nat)>)
    requires b != []
    ensures r.Some? ==> 1 <= r.value.1 <= |b|
  {
    if b[0] < 0x80 then Some((b[0] as char, 1))
    else if b[0] < 0xC2 then None
    else if b[0] < 0xE0 then
      if Continues(b, 1) then var lead: nat := b[0] - 0xC0; Scalar(lead * 64 + Six(b[1]), 2) else None
    else if b[0] < 0xF0 then
      if Continues(b, 1) && Continues(b, 2) then
        var lead: nat := b[0] - 0xE0;
        var n := lead * 4096 + Six(b[1]) * 64 + Six(b[2]);
        if n < 0x800 then None else Scalar(n, 3)
      else None
    else if b[0] < 0xF5 then
      if Continues(b, 1) && Continues(b, 2) && Continues(b, 3) then
        var lead: nat := b[0] - 0xF0;
        var n := lead * 262144 + Six(b[1]) * 4096 + Six(b[2]) * 64 + Six(b[3]);
        if n < 0x1_0000 then None else Scalar(n, 4)
      else None
    else None
  }

  /** Python's `b.decode("utf-8")`; `None` stands for `UnicodeDecodeError`. */
  function Decode(b: Bytes): Option<string> {
    if b == [] then Some("") else
      match DecodeChar(b)
      case None => None
      case Some((c, k)) =>
        var rest := Decode(b[k..]);
        if rest.None? then None else Some([c] + rest.value)
  }

  /** A number is its six-bit groups. */
  lemma SixBitGroups(n: nat)
    ensures n == n / 64 * 64 + n % 64
    ensures n == n / 4096 * 4096 + n / 64 % 64 * 64 + n % 64
    ensures n == n / 262144 * 262144 + n / 4096 % 64 * 4096 + n / 64 % 64 * 64 + n % 64
  {
    assert n / 4096 == n / 64 / 64 && n / 262144 == n / 4096 / 64;
  }

  /** Six-bit groups are recovered from the number they make. */
  lemma GroupsOf(high: nat, low: nat)
    requires low < 64
    ensures (high * 64 + low) / 64 == high && (high * 64 + low) % 64 == low
  {
  }

  lemma DecodeCharOfEncodeChar(c: char, rest: Bytes)
    ensures DecodeChar(EncodeChar(c) + rest) == Some((c, |EncodeChar(c)|))
  {
    var n := c as int;
    var e := EncodeChar(c);
    var b := e + rest;
    assert forall i :: 0 <= i < |e| ==> b[i] == e[i];
    SixBitGroups(n);
    if n < 0x80 {
    } else if n < 0x800 {
      assert Six(b[1]) == n % 64;
    } else if n < 0x1_0000 {
      assert Six(b[1]) == n / 64 % 64 && Six(b[2]) == n % 64;
    } else {
      assert Six(b[1]) == n / 4096 % 64 && Six(b[2]) == n / 64 % 64 && Six(b[3]) == n % 64;
    }
  }

  lemma EncodeTwo(x: nat, y: nat)
    requires 2 <= x < 32 && y < 64
    ensures x * 64 + y < 0x800
    ensures EncodeChar((x * 64 + y) as char) == [0xC0 + x, 0x80 + y]
  {
    GroupsOf(x, y);
  }

  lemma EncodeThree(x: nat, y: nat, z: nat)
    requires x < 16 && y < 64 && z < 64
    requires var n := (x * 64 + y) * 64 + z; n >= 0x800 && (n < 0xD800 || 0xE000 <= n)
    ensures EncodeChar(((x * 64 + y) * 64 + z) as char) == [0xE0 + x, 0x80 + y, 0x80 + z]
  {
    var n := (x * 64 + y) * 64 + z;
    GroupsOf(x * 64 + y, z);
    GroupsOf(x, y);
    assert n / 4096 == n / 64 / 64;
  }

  lemma EncodeFour(x: nat, y: nat, z: nat, w: nat)
    requires x < 5 && y < 64 && z < 64 && w < 64
    requires 0x1_0000 <= ((x * 64 + y) * 64 + z) * 64 + w < 0x11_0000
    ensures EncodeChar((((x * 64 + y) * 64 + z) * 64 + w) as char) == [0xF0 + x, 0x80 + y, 0x80 + z, 0x80 + w]
  {
    var n := ((x * 64 + y) * 64 + z) * 64 + w;
    GroupsOf((x * 64 + y) * 64 + z, w);
    GroupsOf(x * 64 + y, z);
    GroupsOf(x, y);
    assert n / 4096 == n / 64 / 64 && n / 262144 == n / 4096 / 64;
  }

  lemma EncodeCharOfDecodeChar(b: Bytes)
    requires b != [] && DecodeChar(b).Some?
    ensures EncodeChar(DecodeChar(b).value.0) == b[..DecodeChar(b).value.1]
  {
    var k := DecodeChar(b).value.1;
    if k == 2 {
      EncodeTwo(b[0] - 0xC0, Six(b[1]));
    } else if k == 3 {
      EncodeThree(b[0] - 0xE0, Six(b[1]), Six(b[2]));
    } else if k == 4 {
      EncodeFour(b[0] - 0xF0, Six(b[1]), Six(b[2]), Six(b[3]));
    }
  }

  /** Every string survives encoding and decoding. */
  lemma {:induction false} DecodeEncode(s: string)
    ensures Decode(Encode(s)) == Some(s)
  {
    if s != "" {
      var e := EncodeChar(s[0]);
      DecodeCharOfEncodeChar(s[0], Encode(s[1..]));
      assert Encode(s)[|e|..] == Encode(s[1..]);
      DecodeEncode(s[1..]);
      assert [s[0]] + s[1..] == s;
    }
  }

  /** Bytes that decode are the encoding of what they decode to. */
  lemma {:induction false} EncodeDecode(b: Bytes)
    requires Decode(b).Some?
    ensures Encode(Decode(b).value) == b
  {
    if b != [] {
      var (c, k) := DecodeChar(b).value;
      var rest := Decode(b[k..]).value;
      assert Decode(b).value == [c] + rest;
      calc {
        Encode([c] + rest);
        { assert ([c] + rest)[1..] == rest; }
        EncodeChar(c) + Encode(rest);
        { EncodeCharOfDecodeChar(b); EncodeDecode(b[k..]); }
        b[..k] + b[k..];
        b;
      }
    }
  }

  predicate Ascii(s: string) {
    forall c :: c in s ==> (c as int) < 0x80
  }

  lemma {:induction false} EncodeConcat(s: string, t: string)
    ensures Encode(s + t) == Encode(s) + Encode(t)
  {
    if s == "" {
      assert s + t == t;
    } else {
      assert (s + t)[1..] == s[1..] + t;
      EncodeConcat(s[1..], t);
    }
  }

  /** ASCII text becomes one low byte a character. */
  lemma {:induction false} EncodeAscii(s: string)
    requires Ascii(s)
    ensures |Encode(s)| == |s| && forall i :: 0 <= i < |s| ==> Encode(s)[i] == s[i] as int
  {
    if s != "" {
      assert forall c :: c in s[1..] ==> c in s;
      assert s[0] in s && EncodeChar(s[0]) == [s[0] as int];
      EncodeAscii(s[1..]);
    }
  }

  /** Bytes below 0x80 always decode. */
  lemma {:induction false} LowBytesDecode(b: Bytes)
    requires forall i :: 0 <= i < |b| ==> b[i] < 0x80
    ensures Decode(b).Some?
  {
    if b != [] {
      LowBytesDecode(b[1..]);
    }
  }
}
