/** From a captured body to the bytes a forward or a replay sends: inline previews,
    offloaded blobs, and the downgrade when the blob store fails. */
module Capture {
  import opened Text
  import opened Utf8
  import opened Forwards
  import opened ForwardRepository

  /** The part of a captured request that carries its body. */
  datatype Captured = Captured(id: Uuid, endpointId: Uuid, bodyPreview: Option<string>, bodySize: nat, blobKey: Option<string>)

  // ------------------------------------------------------------ body preview

  /** The quote `repr(bytes)` chooses: single, unless only that one occurs. */
  function Quote(b: Bytes): char {
    if 39 in b && 34 !in b then '"' else '\''
  }

  /** One byte inside `repr(bytes)`. */
  function ReprByte(x: Byte, quote: char): (s: string)
    ensures Ascii(s)
  {
    if x == 92 || (x == quote as int && x < 128) then ['\\', x as char]
    else if x == 9 then "\\t"
    else if x == 10 then "\\n"
    else if x == 13 then "\\r"
    else if x < 32 || x >= 127 then "\\x" + Hex(x, 2)
    else [x as char]
  }

  function ReprBytes(b: Bytes, quote: char): (s: string)
    ensures Ascii(s)
  {
    if b == [] then "" else ReprByte(b[0], quote) + ReprBytes(b[1..], quote)
  }

  /** The bytes a Python bytes literal with this text between its quotes denotes (Python
      language reference, section 2.4.1); `None` when it is not one `repr` writes. */
  function ReadRepr(s: string): (b: Option<Bytes>)
    decreases |s|
  {
    if s == "" then Some([])
    else if s[0] != '\\' then (if s[0] as int < 0x80 then After([s[0] as int], ReadRepr(s[1..])) else None)
    else if |s| >= 2 && s[1] == '\\' then After([92], ReadRepr(s[2..]))
    else if |s| >= 2 && s[1] == '\'' then After([39], ReadRepr(s[2..]))
    else if |s| >= 2 && s[1] == '"' then After([34], ReadRepr(s[2..]))
    else if |s| >= 2 && s[1] == 't' then After([9], ReadRepr(s[2..]))
    else if |s| >= 2 && s[1] == 'n' then After([10], ReadRepr(s[2..]))
    else if |s| >= 2 && s[1] == 'r' then After([13], ReadRepr(s[2..]))
    else if |s| >= 4 && s[1] == 'x' && UnHex(s[2..4]).Some? then
      assert Pow16(2) == 16 * Pow16(1) == 256;
      After([UnHex(s[2..4]).value], ReadRepr(s[4..]))
    else None
  }

  function After(front: Bytes, rest: Option<Bytes>): Option<Bytes> {
    if rest.None? then None else Some(front + rest.value)
  }

  lemma ReprByteReads(x: Byte, quote: char, rest: string)
    requires quote == '\'' || quote == '"'
    ensures ReadRepr(ReprByte(x, quote) + rest) == After([x], ReadRepr(rest))
  {
    var s := ReprByte(x, quote) + rest;
    assert s[|ReprByte(x, quote)|..] == rest;
    if s[0] == '\\' && s[1] == 'x' {
      assert s[2..4] == Hex(x, 2);
      assert Pow16(2) == 16 * Pow16(1) == 256;
      UnHexHex(x, 2);
    }
  }

  /** The preview of a binary body is a faithful writing of its bytes. */
  lemma {:induction false} ReprReads(b: Bytes, quote: char)
    requires quote == '\'' || quote == '"'
    ensures ReadRepr(ReprBytes(b, quote)) == Some(b)
  {
    if b != [] {
      ReprByteReads(b[0], quote, ReprBytes(b[1..], quote));
      ReprReads(b[1..], quote);
      assert [b[0]] + b[1..] == b;
    }
  }

  /** It writes printable characters as they are, but for the backslash and the chosen
      quote, three control characters by their short names, and the rest in lower-case
      hexadecimal. */
  lemma ReprByteForm(x: Byte, quote: char)
    requires quote == '\'' || quote == '"'
    ensures var s := ReprByte(x, quote);
            if 32 <= x <= 126 then s == if x == 92 || x == quote as int then ['\\', x as char] else [x as char]
            else if x in {9, 10, 13} then |s| == 2
            else |s| == 4 && s[..2] == "\\x" && forall c :: c in s[2..] ==> '0' <= c <= '9' || 'a' <= c <= 'f'
  {
  }

  /** Quotes are written as they are unless both kinds occur; then only apostrophes are
      escaped. */
  lemma QuotesPlain(b: Bytes, x: Byte)
    requires x in b && (x == 39 || x == 34)
    ensures ReprByte(x, Quote(b)) == if x == 39 && 34 in b then "\\'" else [x as char]
  {
  }

  /** `_decode_body_safe`: the text, or `repr(body)[2:-1]` when it is not UTF-8. */
  function DecodeBodySafe(b: Bytes): string {
    if Decode(b).Some? then Decode(b).value else ReprBytes(b, Quote(b))
  }

  /** The preview is the body's text, or else spells its bytes. */
  lemma PreviewFaithful(b: Bytes)
    ensures if Decode(b).Some? then Encode(DecodeBodySafe(b)) == b else ReadRepr(DecodeBodySafe(b)) == Some(b)
  {
    if Decode(b).Some? {
      EncodeDecode(b);
    } else {
      ReprReads(b, Quote(b));
    }
  }

  /** `CapturedRequest.create`. */
  function CreateCaptured(id: Uuid, endpointId: Uuid, body: Bytes, threshold: int): Captured {
    if |body| <= threshold then Captured(id, endpointId, Some(DecodeBodySafe(body)), |body|, None)
    else Captured(id, endpointId, None, |body|, Some(BlobKey(endpointId, id)))
  }

  function BlobKey(endpointId: Uuid, id: Uuid): string {
    UuidText(endpointId) + "/" + UuidText(id)
  }

  /** A blob's key reads back: the endpoint, a slash, the request. */
  lemma BlobKeyReads(endpointId: Uuid, id: Uuid)
    ensures var k := BlobKey(endpointId, id);
            |k| == 73 && ParseUuid(k[..36]) == Some(endpointId) && k[36] == '/' && ParseUuid(k[37..]) == Some(id)
  {
    var k := BlobKey(endpointId, id);
    assert k[..36] == UuidText(endpointId) && k[37..] == UuidText(id);
    ParseUuidText(endpointId);
    ParseUuidText(id);
  }

  lemma BlobKeyInjective(e: Uuid, i: Uuid, e': Uuid, i': Uuid)
    requires BlobKey(e, i) == BlobKey(e', i')
    ensures e == e' && i == i'
  {
    var k := BlobKey(e, i);
    assert k[..36] == UuidText(e) && k[..36] == UuidText(e');
    assert k[37..] == UuidText(i) && k[37..] == UuidText(i');
    UuidTextInjective(e, e');
    UuidTextInjective(i, i');
  }

  /** The body a forward or a replay sends. */
  function Recovered(c: Captured, blobs: map<string, Bytes>): Bytes {
    if c.blobKey.Some? then (if c.blobKey.value in blobs then blobs[c.blobKey.value] else [])
    else Encode(if c.bodyPreview.Some? then c.bodyPreview.value else "")
  }

  // --------------------------------------------------------------- round trip

  /** How a body came to be stored: inline, in the blob store, or dropped because the
      blob store failed. */
  datatype Kept = Inline | Offloaded | Dropped

  ghost predicate StoredAs(c: Captured, blobs: map<string, Bytes>, body: Bytes, threshold: int, kept: Kept) {
    && c.bodySize == |body|
    && match kept
       case Inline => |body| <= threshold && c.bodyPreview == Some(DecodeBodySafe(body)) && c.blobKey == None
       case Offloaded => |body| > threshold && c.bodyPreview == None && c.blobKey == Some(BlobKey(c.endpointId, c.id))
                         && c.blobKey.value in blobs && blobs[c.blobKey.value] == body
       case Dropped => |body| > threshold && c.bodyPreview == None && c.blobKey == None
  }

  /** What `create` makes of a body, and what a failing blob store makes of that. */
  lemma NewlyStored(id: Uuid, endpointId: Uuid, body: Bytes, threshold: int, blobs: map<string, Bytes>)
    ensures var c := CreateCaptured(id, endpointId, body, threshold);
            if c.blobKey == None then StoredAs(c, blobs, body, threshold, Inline)
            else
              && StoredAs(Captured(id, endpointId, None, c.bodySize, None), blobs, body, threshold, Dropped)
              && StoredAs(c, blobs[c.blobKey.value := body], body, threshold, Offloaded)
  {
  }

  lemma OtherBlob(c: Captured, blobs: map<string, Bytes>, body: Bytes, threshold: int, kept: Kept, key: string, other: Bytes)
    requires StoredAs(c, blobs, body, threshold, kept) && c.blobKey != Some(key)
    ensures StoredAs(c, blobs[key := other], body, threshold, kept)
  {
  }

  /** An inline body that is not UTF-8 is not what its preview encodes to. */
  lemma ReprNotFaithful(body: Bytes)
    requires Decode(body).None?
    ensures Encode(ReprBytes(body, Quote(body))) != body
  {
    var s := ReprBytes(body, Quote(body));
    EncodeAscii(s);
    assert forall i :: 0 <= i < |s| ==> s[i] in s;
    if forall i :: 0 <= i < |body| ==> body[i] < 0x80 {
      LowBytesDecode(body);
    }
  }

  /** What is sent equals what was captured exactly when the body was inline UTF-8, or
      was offloaded, or was dropped and empty. */
  lemma DeliveredExactly(c: Captured, blobs: map<string, Bytes>, body: Bytes, threshold: int, kept: Kept)
    requires StoredAs(c, blobs, body, threshold, kept)
    ensures Recovered(c, blobs) == body <==>
              match kept
              case Inline => Decode(body).Some?
              case Offloaded => true
              case Dropped => body == []
  {
    if kept.Inline? {
      if Decode(body).Some? {
        EncodeDecode(body);
      } else {
        ReprNotFaithful(body);
      }
    }
  }

  // ----------------------------------------------------------------- use case

  lemma AddedRemoved<V>(m: map<Uuid, V>, id: Uuid, v: V)
    requires id !in m
    ensures m[id := v] - {id} == m
  {
  }

  /** What goes wrong while the forward is created: nothing, an exception before its
      insert, or one from the database at the insert. */
  datatype Fault = NoFault | BeforeInsert | AtInsert

  ghost predicate AllStored(requests: map<Uuid, Captured>, blobs: map<string, Bytes>, bodies: map<Uuid, Bytes>,
                            kept: map<Uuid, Kept>, threshold: int) {
    && requests.Keys == bodies.Keys == kept.Keys
    && (forall id :: id in requests ==> requests[id].id == id && StoredAs(requests[id], blobs, bodies[id], threshold, kept[id]))
  }

  lemma OneMoreStored(requests: map<Uuid, Captured>, blobs: map<string, Bytes>, bodies: map<Uuid, Bytes>,
                      kept: map<Uuid, Kept>, threshold: int, c: Captured, body: Bytes, how: Kept)
    requires AllStored(requests, blobs, bodies, kept, threshold) && StoredAs(c, blobs, body, threshold, how)
    ensures AllStored(requests[c.id := c], blobs, bodies[c.id := body], kept[c.id := how], threshold)
  {
  }

  ghost predicate AllLinked(rows: map<Uuid, Forward>, requests: map<Uuid, Captured>) {
    forall f :: f in rows ==> rows[f].requestId in requests && requests[rows[f].requestId].endpointId == rows[f].endpointId
  }

  class CaptureRequest {
    const threshold: int
    const table: ForwardTable
    var blobs: map<string, Bytes>
    var requests: map<Uuid, Captured>
    ghost var bodies: map<Uuid, Bytes>
    ghost var kept: map<Uuid, Kept>

    /** Every request ever captured is still stored as it was. */
    ghost predicate Valid()
      reads this
    {
      AllStored(requests, blobs, bodies, kept, threshold)
    }

    /** Every stored forward names a stored request of its own endpoint. */
    ghost predicate Linked()
      reads this, table
    {
      AllLinked(table.rows, requests)
    }

    constructor (threshold: int, table: ForwardTable)
      ensures Valid() && requests == map[] && this.table == table && this.threshold == threshold
    {
      this.threshold, this.table := threshold, table;
      blobs, requests, bodies, kept := map[], map[], map[], map[];
    }

    /** The storing half of `CaptureRequest.execute`; `id` is the fresh `uuid4`, and
        `putRaises` the blob-store failure it survives. */
    method KeepBody(id: Uuid, endpointId: Uuid, body: Bytes, putRaises: bool) returns (captured: Captured)
      requires Valid() && id !in requests
      modifies this
      ensures Valid()
      ensures bodies == old(bodies)[id := body] && requests == old(requests)[id := captured]
      ensures kept == old(kept)[id := if |body| <= threshold then Inline else if putRaises then Dropped else Offloaded]
      ensures captured.id == id && captured.endpointId == endpointId && captured.bodySize == |body|
      ensures !(captured.bodyPreview.Some? && captured.blobKey.Some?)
    {
      captured := CreateCaptured(id, endpointId, body, threshold);
      NewlyStored(id, endpointId, body, threshold, blobs);
      ghost var how := Inline;
      if captured.blobKey.Some? {
        if putRaises {
          captured := Captured(captured.id, captured.endpointId, None, captured.bodySize, None);
          how := Dropped;
        } else {
          OthersKept(captured, body);
          blobs := blobs[captured.blobKey.value := body];
          how := Offloaded;
        }
      }
      OneMoreStored(requests, blobs, bodies, kept, threshold, captured, body, how);
      requests := requests[id := captured];
      bodies, kept := bodies[id := body], kept[id := how];
    }

    /** `CaptureRequest.execute` for an endpoint that exists, with the commit of its one
        session: store the request, then a pending forward for it when the endpoint has
        a forward URL. The use case swallows an exception there, but one from the insert
        leaves the session unable to commit, so the request goes with it; a blob stays. */
    method Execute(id: Uuid, endpointId: Uuid, body: Bytes, putRaises: bool,
                   forwardUrl: Option<string>, forwardId: Uuid, now: Time, fault: Fault)
      returns (captured: Captured, pending: Option<Uuid>, committed: bool)
      requires Valid() && table.Valid() && Linked() && id !in requests
      modifies this, table
      ensures Valid() && table.Valid() && Linked()
      ensures captured.id == id && captured.endpointId == endpointId
      ensures var forwards := forwardUrl.Some? && forwardUrl.value != "";
              && (committed <==> !(forwards && (fault == AtInsert || (fault == NoFault && forwardId in old(table.rows)))))
              && (pending.Some? <==> committed && forwards && fault == NoFault)
      ensures committed ==>
                && bodies == old(bodies)[id := body] && requests == old(requests)[id := captured]
                && kept == old(kept)[id := if |body| <= threshold then Inline else if putRaises then Dropped else Offloaded]
      ensures !committed ==> bodies == old(bodies) && requests == old(requests) && kept == old(kept)
      ensures pending.Some? ==>
                && pending.value == forwardId && forwardId in table.rows
                && Untouched(table.rows[forwardId], forwardId, id, endpointId, forwardUrl.value, now)
                && table.rows == old(table.rows)[forwardId := table.rows[forwardId]]
      ensures pending.None? ==> table.rows == old(table.rows)
    {
      captured := KeepBody(id, endpointId, body, putRaises);
      pending, committed := AddPending(id, endpointId, forwardUrl, forwardId, now, fault);
      if !committed {
        Rollback(id);
        AddedRemoved(old(requests), id, captured);
        AddedRemoved(old(bodies), id, body);
        AddedRemoved(old(kept), id, if |body| <= threshold then Inline else if putRaises then Dropped else Offloaded);
      }
    }

    /** The pending forward, and whether the session can still commit. */
    method AddPending(id: Uuid, endpointId: Uuid, forwardUrl: Option<string>, forwardId: Uuid, now: Time, fault: Fault)
      returns (pending: Option<Uuid>, committed: bool)
      requires table.Valid()
      modifies table
      ensures table.Valid()
      ensures var forwards := forwardUrl.Some? && forwardUrl.value != "";
              && (committed <==> !(forwards && (fault == AtInsert || (fault == NoFault && forwardId in old(table.rows)))))
              && (pending.Some? <==> committed && forwards && fault == NoFault)
      ensures table.rows == if pending.Some?
                            then old(table.rows)[forwardId := Create(forwardId, id, endpointId, forwardUrl.value, now)]
                            else old(table.rows)
      ensures pending.Some? ==> pending.value == forwardId
    {
      pending, committed := None, true;
      if forwardUrl.Some? && forwardUrl.value != "" {
        if fault == AtInsert {
          committed := false;
        } else if fault == NoFault {
          committed := table.Save(Create(forwardId, id, endpointId, forwardUrl.value, now));
          if committed {
            pending := Some(forwardId);
          }
        }
      }
    }

    /** The commit that fails undoes the request's insert. */
    method Rollback(id: Uuid)
      requires Valid() && id in requests
      modifies this
      ensures Valid()
      ensures requests == old(requests) - {id} && bodies == old(bodies) - {id} && kept == old(kept) - {id}
    {
      requests, bodies, kept := requests - {id}, bodies - {id}, kept - {id};
    }

    /** A new request's blob overwrites no other request's. */
    lemma OthersKept(c: Captured, body: Bytes)
      requires Valid() && c.id !in requests && c.blobKey == Some(BlobKey(c.endpointId, c.id))
      ensures forall id :: id in requests ==>
                StoredAs(requests[id], blobs[c.blobKey.value := body], bodies[id], threshold, kept[id])
    {
      forall id | id in requests
        ensures StoredAs(requests[id], blobs[c.blobKey.value := body], bodies[id], threshold, kept[id])
      {
        if requests[id].blobKey == c.blobKey {
          BlobKeyInjective(requests[id].endpointId, requests[id].id, c.endpointId, c.id);
        }
        OtherBlob(requests[id], blobs, bodies[id], threshold, kept[id], c.blobKey.value, body);
      }
    }

    /** The body sent for any stored request, however many were captured since. */
    method Body(id: Uuid) returns (sent: Bytes)
      requires Valid() && id in requests
      ensures sent == bodies[id] <==>
                match kept[id]
                case Inline => Decode(bodies[id]).Some?
                case Offloaded => true
                case Dropped => bodies[id] == []
    {
      sent := Recovered(requests[id], blobs);
      DeliveredExactly(requests[id], blobs, bodies[id], threshold, kept[id]);
    }

    /** The body the worker sends for a stored forward: the one captured for it, under the
        same condition. */
    method ForwardBody(forward: Uuid) returns (sent: Bytes)
      requires Valid() && Linked() && forward in table.rows
      ensures var id := table.rows[forward].requestId;
              && id in requests && id in bodies && id in kept
              && (sent == bodies[id] <==>
                    match kept[id]
                    case Inline => Decode(bodies[id]).Some?
                    case Offloaded => true
                    case Dropped => bodies[id] == [])
    {
      sent := Body(table.rows[forward].requestId);
    }
  }

  /** Updates of forwards that keep their origin, as every statement of the table does,
      keep them linked. */
  lemma LinkedStays(rows: map<Uuid, Forward>, later: map<Uuid, Forward>, requests: map<Uuid, Captured>)
    requires AllLinked(rows, requests)
    requires forall f :: f in later ==>
               f in rows && later[f].requestId == rows[f].requestId && later[f].endpointId == rows[f].endpointId
    ensures AllLinked(later, requests)
  {
  }
}
