/** The signature header the worker prints on a forward, and the Stripe validator that
    reads headers of that form. HMAC-SHA256 (RFC 2104) is a parameter. */
module StripeSignature {
  import opened Text
  import opened Utf8

  type Mac = (Bytes, Bytes) -> Bytes

  /** `hexdigest()`. */
  function HexDigest(b: Bytes): (s: string)
    ensures |s| == 2 * |b|
    ensures forall c :: c in s ==> '0' <= c <= '9' || 'a' <= c <= 'f'
  {
    if b == [] then "" else Hex(b[0], 2) + HexDigest(b[1..])
  }

  /** A digest is read back pair by pair: digits `2 * i` and `2 * i + 1` are byte `i`. */
  lemma {:induction false} HexDigestReads(b: Bytes, i: nat)
    requires i < |b|
    ensures UnHex(HexDigest(b)[2 * i..2 * i + 2]) == Some(b[i])
  {
    var s, rest := HexDigest(b), HexDigest(b[1..]);
    if i == 0 {
      assert s[..2] == Hex(b[0], 2);
      assert Pow16(2) == 16 * Pow16(1) == 256;
      UnHexHex(b[0], 2);
    } else {
      HexDigestReads(b[1..], i - 1);
      assert s[2 * i..2 * i + 2] == rest[2 * (i - 1)..2 * (i - 1) + 2];
    }
  }

  /** So two digests agree exactly when the bytes do. */
  lemma HexDigestInjective(a: Bytes, b: Bytes)
    ensures HexDigest(a) == HexDigest(b) <==> a == b
  {
    if HexDigest(a) == HexDigest(b) {
      forall i | 0 <= i < |a| ensures a[i] == b[i] {
        HexDigestReads(a, i);
        HexDigestReads(b, i);
      }
    }
  }

  /** `sign_forward`. */
  function SignForward(mac: Mac, secret: Bytes, timestamp: nat, body: Bytes): string {
    HexDigest(mac(secret, Encode(Decimal(timestamp) + ".") + body))
  }

  /** `f"t={ts},v1={sig}"`. */
  function SignatureHeader(mac: Mac, secret: string, timestamp: nat, body: Bytes): string {
    "t=" + Decimal(timestamp) + ",v1=" + SignForward(mac, Encode(secret), timestamp, body)
  }

  // ------------------------------------------------------------- the validator

  /** `Raised` is the `TypeError` of `compare_digest` on text that is not ASCII. */
  datatype Result = Missing | Invalid | Valid | Raised

  /** The two lookups and the test for an empty header. */
  function HeaderIn(headers: map<string, string>): (header: string)
    ensures "Stripe-Signature" !in headers ==>
              header == if "stripe-signature" in headers then headers["stripe-signature"] else ""
    ensures "Stripe-Signature" in headers && "stripe-signature" !in headers ==> header == headers["Stripe-Signature"]
    ensures "Stripe-Signature" in headers && "stripe-signature" in headers ==>
              header == if headers["stripe-signature"] != "" then headers["stripe-signature"] else headers["Stripe-Signature"]
  {
    if "stripe-signature" in headers && headers["stripe-signature"] != "" then headers["stripe-signature"]
    else if "Stripe-Signature" in headers then headers["Stripe-Signature"]
    else ""
  }

  /** The stripped key and value of a chunk; `None` when it has no `=`. */
  function Field(chunk: string): Option<(string, string)> {
    var i := Find(chunk, '=');
    if i == |chunk| then None else Some((Strip(chunk[..i]), Strip(chunk[i + 1..])))
  }

  predicate IsField(chunk: string, key: string, value: string) {
    Field(chunk) == Some((key, value))
  }

  /** The value of the last `t` chunk. */
  function Timestamp(chunks: seq<string>): Option<string> {
    if chunks == [] then None else
      var f := Field(chunks[|chunks| - 1]);
      if f.Some? && f.value.0 == "t" then Some(f.value.1) else Timestamp(chunks[..|chunks| - 1])
  }

  /** The values of the `v1` chunks, in order. */
  function Signatures(chunks: seq<string>): seq<string> {
    if chunks == [] then [] else
      var f := Field(chunks[|chunks| - 1]);
      Signatures(chunks[..|chunks| - 1]) + if f.Some? && f.value.0 == "v1" then [f.value.1] else []
  }

  function Expected(mac: Mac, secret: string, timestamp: string, text: string): (s: string)
    ensures Ascii(s)
  {
    HexDigest(mac(Encode(secret), Encode(timestamp + "." + text)))
  }

  /** Some signature is the expected one and `compare_digest` gets as far as it. */
  ghost predicate Matches(signatures: seq<string>, expected: string) {
    exists j :: 0 <= j < |signatures| && signatures[j] == expected && forall i :: 0 <= i < j ==> Ascii(signatures[i])
  }

  /** `compare_digest` meets a signature that is not ASCII before it meets a match. */
  ghost predicate Chokes(signatures: seq<string>, expected: string) {
    exists j :: 0 <= j < |signatures| && !Ascii(signatures[j]) && forall i :: 0 <= i < j ==> signatures[i] != expected
  }

  lemma OneMoreChunk(chunks: seq<string>, n: nat)
    requires n < |chunks|
    ensures var f := Field(chunks[n]);
            && Timestamp(chunks[..n + 1]) == (if f.Some? && f.value.0 == "t" then Some(f.value.1) else Timestamp(chunks[..n]))
            && Signatures(chunks[..n + 1]) == Signatures(chunks[..n]) + if f.Some? && f.value.0 == "v1" then [f.value.1] else []
  {
    assert chunks[..n + 1][..n] == chunks[..n];
  }

  /** The loop over the header's chunks. */
  method ReadChunks(chunks: seq<string>) returns (timestamp: Option<string>, signatures: seq<string>)
    ensures timestamp == Timestamp(chunks) && signatures == Signatures(chunks)
  {
    timestamp, signatures := None, [];
    for n := 0 to |chunks|
      invariant timestamp == Timestamp(chunks[..n]) && signatures == Signatures(chunks[..n])
    {
      OneMoreChunk(chunks, n);
      var eq := Find(chunks[n], '=');
      if eq < |chunks[n]| {
        var k, v := Strip(chunks[n][..eq]), Strip(chunks[n][eq + 1..]);
        if k == "t" {
          timestamp := Some(v);
        } else if k == "v1" {
          signatures := signatures + [v];
        }
      }
    }
    assert chunks[..|chunks|] == chunks;
  }

  /** The loop over the signatures. */
  method Compare(signatures: seq<string>, expected: string) returns (r: Result)
    requires Ascii(expected)
    ensures r == Valid || r == Invalid || r == Raised
    ensures r == Valid <==> Matches(signatures, expected)
    ensures r == Raised <==> Chokes(signatures, expected)
  {
    for n := 0 to |signatures|
      invariant forall i :: 0 <= i < n ==> Ascii(signatures[i]) && signatures[i] != expected
    {
      if !Ascii(signatures[n]) {
        return Raised;
      }
      if expected == signatures[n] {
        return Valid;
      }
    }
    return Invalid;
  }

  /** `StripeValidator.validate` accepts exactly when the last timestamp and some
      signature agree with the body. */
  method Validate(mac: Mac, body: Bytes, headers: map<string, string>, secret: string) returns (r: Result)
    ensures r == Missing <==> HeaderIn(headers) == ""
    ensures r == Valid <==> HeaderIn(headers) != "" && Accepts(mac, Split(HeaderIn(headers), ','), body, secret)
    ensures r == Raised <==> HeaderIn(headers) != "" && Raises(mac, Split(HeaderIn(headers), ','), body, secret)
  {
    var header := HeaderIn(headers);
    if header == "" {
      return Missing;
    }
    var timestamp, signatures := ReadChunks(Split(header, ','));
    var text := Decode(body);
    if timestamp.None? || timestamp.value == "" || signatures == [] || text.None? {
      return Invalid;
    }
    var expected := Expected(mac, secret, timestamp.value, text.value);
    r := Compare(signatures, expected);
  }

  ghost predicate Accepts(mac: Mac, chunks: seq<string>, body: Bytes, secret: string) {
    && Timestamp(chunks).Some? && Timestamp(chunks).value != ""
    && Decode(body).Some?
    && Matches(Signatures(chunks), Expected(mac, secret, Timestamp(chunks).value, Decode(body).value))
  }

  ghost predicate Raises(mac: Mac, chunks: seq<string>, body: Bytes, secret: string) {
    && Timestamp(chunks).Some? && Timestamp(chunks).value != ""
    && Decode(body).Some?
    && Chokes(Signatures(chunks), Expected(mac, secret, Timestamp(chunks).value, Decode(body).value))
  }

  // ------------------------------------------------------------------ agreement

  /** The validator's digest of a UTF-8 body is the worker's. */
  lemma ExpectedIsSigned(mac: Mac, secret: string, timestamp: nat, body: Bytes)
    requires Decode(body).Some?
    ensures Expected(mac, secret, Decimal(timestamp), Decode(body).value) == SignForward(mac, Encode(secret), timestamp, body)
  {
    var text := Decode(body).value;
    EncodeConcat(Decimal(timestamp) + ".", text);
    EncodeDecode(body);
  }

  /** A key and a value without spaces at their ends read back from a chunk, however
      the chunk pads them. */
  lemma PaddedField(a: string, key: string, b: string, c: string, value: string, d: string)
    requires AllSpace(a) && AllSpace(b) && AllSpace(c) && AllSpace(d)
    requires key != "" && '=' !in key && !IsSpace(key[0]) && !IsSpace(key[|key| - 1])
    requires value != "" && !IsSpace(value[0]) && !IsSpace(value[|value| - 1])
    ensures IsField(a + key + b + "=" + (c + value + d), key, value)
  {
    var left, right := a + key + b, c + value + d;
    var chunk := left + "=" + right;
    assert '=' !in left by {
      assert forall x :: x in left ==> x in a || x in key || x in b;
    }
    assert chunk[..|left|] == left && chunk[|left| + 1..] == right;
    FindUnique(chunk, '=', |left|);
    StripPadded(a, key, b);
    StripPadded(c, value, d);
  }

  lemma {:induction false} LastTimestamp(chunks: seq<string>, k: nat, value: string)
    requires k < |chunks| && IsField(chunks[k], "t", value)
    requires forall i :: k < i < |chunks| ==> !(Field(chunks[i]).Some? && Field(chunks[i]).value.0 == "t")
    ensures Timestamp(chunks) == Some(value)
  {
    if k < |chunks| - 1 {
      LastTimestamp(chunks[..|chunks| - 1], k, value);
    }
  }

  lemma {:induction false} SignatureListed(chunks: seq<string>, k: nat, value: string) returns (j: nat)
    requires k < |chunks| && IsField(chunks[k], "v1", value)
    ensures j < |Signatures(chunks)| && Signatures(chunks)[j] == value
  {
    if k < |chunks| - 1 {
      j := SignatureListed(chunks[..|chunks| - 1], k, value);
    } else {
      j := |Signatures(chunks)| - 1;
    }
  }

  lemma {:induction false} SignaturesFromChunks(chunks: seq<string>)
    requires forall i, v :: 0 <= i < |chunks| && IsField(chunks[i], "v1", v) ==> Ascii(v)
    ensures forall v :: v in Signatures(chunks) ==> Ascii(v)
  {
    if chunks != [] {
      var front, last := chunks[..|chunks| - 1], chunks[|chunks| - 1];
      SignaturesFromChunks(front);
      assert Field(last).Some? ==> IsField(last, Field(last).value.0, Field(last).value.1);
    }
  }

  /** A header is accepted when its last timestamp chunk and one of its signature chunks
      are the worker's, whatever other schemes, other signatures, order and padding it
      has around them, as long as the signatures are ASCII. */
  lemma DecoratedHeaderAccepted(mac: Mac, secret: string, timestamp: nat, body: Bytes, chunks: seq<string>, t: nat, v: nat)
    requires Decode(body).Some?
    requires t < |chunks| && v < |chunks| && forall c :: c in chunks ==> ',' !in c
    requires IsField(chunks[t], "t", Decimal(timestamp))
    requires forall i :: t < i < |chunks| ==> !(Field(chunks[i]).Some? && Field(chunks[i]).value.0 == "t")
    requires IsField(chunks[v], "v1", SignForward(mac, Encode(secret), timestamp, body))
    requires forall i, s :: 0 <= i < |chunks| && IsField(chunks[i], "v1", s) ==> Ascii(s)
    ensures Accepts(mac, Split(Join(chunks, ','), ','), body, secret)
  {
    SplitJoin(chunks, ',');
    LastTimestamp(chunks, t, Decimal(timestamp));
    SignaturesFromChunks(chunks);
    var j := SignatureListed(chunks, v, SignForward(mac, Encode(secret), timestamp, body));
    ExpectedIsSigned(mac, secret, timestamp, body);
  }

  lemma DecimalPlain(n: nat)
    ensures ',' !in Decimal(n) && !IsSpace(Decimal(n)[0]) && !IsSpace(Decimal(n)[|Decimal(n)| - 1])
  {
    var s := Decimal(n);
    assert s[0] in s && s[|s| - 1] in s;
  }

  lemma DigestPlain(b: Bytes)
    requires b != []
    ensures var s := HexDigest(b); ',' !in s && s != "" && !IsSpace(s[0]) && !IsSpace(s[|s| - 1])
  {
    var s := HexDigest(b);
    assert s[0] in s && s[|s| - 1] in s;
  }

  lemma PlainField(key: string, value: string)
    requires key != "" && '=' !in key && !IsSpace(key[0]) && !IsSpace(key[|key| - 1])
    requires value != "" && !IsSpace(value[0]) && !IsSpace(value[|value| - 1])
    ensures IsField(key + "=" + value, key, value)
  {
    PaddedField("", key, "", "", value, "");
    assert "" + key + "" + "=" + ("" + value + "") == key + "=" + value;
  }

  lemma TwoChunks(a: string, timestamp: string, b: string, signature: string)
    requires IsField(a, "t", timestamp) && IsField(b, "v1", signature)
    ensures Timestamp([a, b]) == Some(timestamp) && Signatures([a, b]) == [signature]
  {
    assert [a, b][..1] == [a] && [a][..0] == [];
    assert Timestamp([a]) == Some(timestamp) && Signatures([a]) == [];
  }

  /** The chunks of the worker's header are its timestamp and its signature. */
  lemma HeaderChunks(mac: Mac, secret: string, timestamp: nat, body: Bytes)
    requires forall k, m :: mac(k, m) != []
    ensures var sig := SignForward(mac, Encode(secret), timestamp, body);
            var chunks := Split(SignatureHeader(mac, secret, timestamp, body), ',');
            Timestamp(chunks) == Some(Decimal(timestamp)) && Signatures(chunks) == [sig]
  {
    DecimalPlain(timestamp);
    DigestPlain(mac(Encode(secret), Encode(Decimal(timestamp) + ".") + body));
    PlainHeader(Decimal(timestamp), SignForward(mac, Encode(secret), timestamp, body));
  }

  lemma StampField(stamp: string)
    requires stamp != "" && !IsSpace(stamp[0]) && !IsSpace(stamp[|stamp| - 1])
    ensures IsField("t=" + stamp, "t", stamp)
  {
    PlainField("t", stamp);
    assert "t" + "=" + stamp == "t=" + stamp;
  }

  lemma SignatureField(sig: string)
    requires sig != "" && !IsSpace(sig[0]) && !IsSpace(sig[|sig| - 1])
    ensures IsField("v1=" + sig, "v1", sig)
  {
    PlainField("v1", sig);
    assert "v1" + "=" + sig == "v1=" + sig;
  }

  lemma PlainHeader(stamp: string, sig: string)
    requires stamp != "" && !IsSpace(stamp[0]) && !IsSpace(stamp[|stamp| - 1]) && ',' !in stamp
    requires sig != "" && !IsSpace(sig[0]) && !IsSpace(sig[|sig| - 1]) && ',' !in sig
    ensures var chunks := Split("t=" + stamp + ",v1=" + sig, ',');
            Timestamp(chunks) == Some(stamp) && Signatures(chunks) == [sig]
  {
    TwoChunksSplit(stamp, sig);
    StampField(stamp);
    SignatureField(sig);
    TwoChunks("t=" + stamp, stamp, "v1=" + sig, sig);
  }

  lemma TwoChunksJoin(a: string, b: string)
    ensures Join([a, b], ',') == a + "," + b
  {
    assert [a, b][1..] == [b];
  }

  lemma TwoChunksSplit(stamp: string, sig: string)
    requires ',' !in stamp && ',' !in sig
    ensures Split("t=" + stamp + ",v1=" + sig, ',') == ["t=" + stamp, "v1=" + sig]
  {
    var a, b := "t=" + stamp, "v1=" + sig;
    TwoChunksJoin(a, b);
    assert a + "," + b == "t=" + stamp + ",v1=" + sig;
    SplitJoin([a, b], ',');
  }

  /** What a header was signed over. */
  function Signed(timestamp: nat, body: Bytes): Bytes {
    Encode(Decimal(timestamp) + ".") + body
  }

  /** The worker's header reads back: its timestamp as the number it is, its one signature
      as the digest, byte by byte. */
  lemma HeaderReads(mac: Mac, secret: string, timestamp: nat, body: Bytes)
    requires forall k, m :: mac(k, m) != []
    ensures var chunks := Split(SignatureHeader(mac, secret, timestamp, body), ',');
            var digest := mac(Encode(secret), Signed(timestamp, body));
            && Timestamp(chunks).Some? && Reads(Timestamp(chunks).value) == timestamp
            && |Signatures(chunks)| == 1 && |Signatures(chunks)[0]| == 2 * |digest|
            && forall i :: 0 <= i < |digest| ==> UnHex(Signatures(chunks)[0][2 * i..2 * i + 2]) == Some(digest[i])
  {
    HeaderChunks(mac, secret, timestamp, body);
    DecimalReads(timestamp);
    var digest := mac(Encode(secret), Signed(timestamp, body));
    forall i | 0 <= i < |digest| ensures UnHex(HexDigest(digest)[2 * i..2 * i + 2]) == Some(digest[i]) {
      HexDigestReads(digest, i);
    }
  }

  /** A header signed under one secret over one body is accepted under another secret for
      another body exactly when that body is UTF-8 and the two macs are equal. */
  lemma HeaderAcceptedElsewhere(mac: Mac, secret: string, timestamp: nat, body: Bytes, secret': string, body': Bytes)
    requires forall k, m :: mac(k, m) != []
    ensures Accepts(mac, Split(SignatureHeader(mac, secret, timestamp, body), ','), body', secret')
       <==> && Decode(body').Some?
            && mac(Encode(secret), Signed(timestamp, body)) == mac(Encode(secret'), Signed(timestamp, body'))
  {
    HeaderChunks(mac, secret, timestamp, body);
    var sig := SignForward(mac, Encode(secret), timestamp, body);
    if Decode(body').Some? {
      ExpectedIsSigned(mac, secret', timestamp, body');
      HexDigestInjective(mac(Encode(secret), Signed(timestamp, body)), mac(Encode(secret'), Signed(timestamp, body')));
      assert [sig][0] == sig;
    }
  }

  /** In particular the worker's own header is accepted under the same secret exactly when
      the body is UTF-8: the worker signs any bytes, the validator refuses what it cannot
      decode. */
  lemma WorkerHeaderAccepted(mac: Mac, secret: string, timestamp: nat, body: Bytes)
    requires forall k, m :: mac(k, m) != []
    ensures Accepts(mac, Split(SignatureHeader(mac, secret, timestamp, body), ','), body, secret)
       <==> Decode(body).Some?
  {
    HeaderAcceptedElsewhere(mac, secret, timestamp, body, secret, body);
  }
}
