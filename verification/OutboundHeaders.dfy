/** The headers of a forwarded request: captured headers less the stripped ones, the
    endpoint's own headers over them, then the worker's. */
module OutboundHeaders {
  import opened Text
  import opened IdempotencyKeys

  type Headers = map<string, string>

  const STRIPPED: set<string> := {
    "connection", "keep-alive", "te", "trailers", "upgrade", "transfer-encoding",
    "proxy-authenticate", "proxy-authorization", "content-length", "host",
    "authorization", "cookie", "set-cookie",
    "stripe-signature", "x-hub-signature-256", "x-shopify-hmac-sha256",
    "x-twilio-signature", "x-slack-signature", "x-zoom-signature"}

  /** The names of the headers the worker sets itself. */
  datatype Names = Names(idempotency: string, forwardId: string, signature: string)

  const WORKER_NAMES := Names("Idempotency-Key", "X-Hooktrace-Forward-Id", "X-Hooktrace-Signature")

  function LowerChar(c: char): char {
    if 'A' <= c <= 'Z' then c - 'A' + 'a' else c
  }

  const CAPITALS := "ABCDEFGHIJKLMNOPQRSTUVWXYZ"
  const SMALLS := "abcdefghijklmnopqrstuvwxyz"

  /** Each capital becomes its small letter. */
  lemma CapitalsLowered(i: nat)
    requires i < 26
    ensures LowerChar(CAPITALS[i]) == SMALLS[i]
  {
  }

  lemma CapitalsListed(i: nat)
    requires i < 26
    ensures CAPITALS[i] == 'A' + i as char
  {
  }

  /** And nothing else changes. */
  lemma OthersKept(c: char)
    requires c !in CAPITALS
    ensures LowerChar(c) == c
  {
    if 'A' <= c <= 'Z' {
      CapitalsListed((c - 'A') as nat);
    }
  }

  /** `k.lower()` on the ASCII names HTTP allows. */
  function Lower(s: string): (t: string)
    ensures |t| == |s|
  {
    seq(|s|, i requires 0 <= i < |s| => LowerChar(s[i]))
  }

  /** The worker's names differ in any spelling, and none is stripped. */
  predicate Distinct(stripped: set<string>, n: Names) {
    && Lower(n.idempotency) !in stripped && Lower(n.forwardId) !in stripped && Lower(n.signature) !in stripped
    && Lower(n.idempotency) != Lower(n.forwardId) && Lower(n.idempotency) != Lower(n.signature)
    && Lower(n.forwardId) != Lower(n.signature)
  }

  /** The request carries one header of this name, names being compared as HTTP
      compares them, without regard to case (RFC 9110, section 5.1). */
  ghost predicate Unambiguous(headers: Headers, name: string) {
    forall k :: k in headers && Lower(k) == Lower(name) ==> k == name
  }

  /** What the target sees under the name `k`: the worker's headers always win, the
      endpoint's win over captured ones, nothing stripped gets through unless the endpoint
      asks for it, and nothing else is lost. */
  predicate Seen(out: Headers, stripped: set<string>, n: Names, captured: Headers, own: Headers,
                 key: string, forwardId: string, signature: Option<string>, k: string) {
    if k == n.signature && signature.Some? then k in out && out[k] == signature.value
    else if k == n.forwardId then k in out && out[k] == forwardId
    else if k == n.idempotency then k in out && out[k] == key
    else if k in own then k in out && out[k] == own[k]
    else if k in captured && Lower(k) !in stripped then k in out && out[k] == captured[k]
    else k !in out
  }

  function Unstripped(stripped: set<string>, captured: Headers): Headers {
    map k | k in captured && Lower(k) !in stripped :: captured[k]
  }

  /** The three layers, later ones over earlier ones. */
  function Layers(stripped: set<string>, n: Names, captured: Headers, own: Headers,
                  key: string, forwardId: string, signature: Option<string>): (out: Headers)
    ensures forall k :: Seen(out, stripped, n, captured, own, key, forwardId, signature, k)
  {
    Unstripped(stripped, captured)
    + own
    + map[n.idempotency := key] + map[n.forwardId := forwardId]
    + (if signature.Some? then map[n.signature := signature.value] else map[])
  }

  /** A header the worker sets is the only one of its name exactly when neither side
      spells that name in other letter cases. */
  lemma LayersUnambiguous(stripped: set<string>, n: Names, captured: Headers, own: Headers,
                          key: string, forwardId: string, signature: Option<string>, name: string)
    requires Distinct(stripped, n)
    requires name in {n.idempotency, n.forwardId} || (name == n.signature && signature.Some?)
    ensures var out := Layers(stripped, n, captured, own, key, forwardId, signature);
            Unambiguous(out, name) <==> Unambiguous(captured, name) && Unambiguous(own, name)
  {
    var out := Layers(stripped, n, captured, own, key, forwardId, signature);
    forall k | Lower(k) == Lower(name) && k != name ensures k in out <==> k in captured || k in own {
      assert k != n.idempotency && k != n.forwardId && k != n.signature;
    }
  }

  /** The headers of `_http_phase`; `stripped` is HEADERS_TO_STRIP_FROM_CAPTURED. */
  method Build(stripped: set<string>, n: Names, captured: Headers, own: Headers, id: Uuid, attempt: nat, signature: Option<string>)
    returns (out: Headers)
    ensures out == Layers(stripped, n, captured, own, IdempotencyKey(id, attempt), UuidText(id), signature)
  {
    out := Unstripped(stripped, captured);
    out := out + own;
    UpdateAdds(out, n.idempotency, IdempotencyKey(id, attempt));
    out := out[n.idempotency := IdempotencyKey(id, attempt)];
    UpdateAdds(out, n.forwardId, UuidText(id));
    out := out[n.forwardId := UuidText(id)];
    if signature.Some? {
      UpdateAdds(out, n.signature, signature.value);
      out := out[n.signature := signature.value];
    } else {
      assert out + map[] == out;
    }
  }

  lemma UpdateAdds(m: Headers, k: string, v: string)
    ensures m[k := v] == m + map[k := v]
  {
  }

  lemma LowerCaseAmbiguity(captured: Headers, name: string)
    requires (forall k :: k in captured ==> Lower(k) == k) && Lower(name) != name
    ensures Unambiguous(captured, name) <==> Lower(name) !in captured
  {
    if Lower(name) in captured {
      assert Lower(Lower(name)) == Lower(name);
    }
  }

  lemma NameNotStripped(name: string)
    requires |name| == 15 || |name| == 22 || (|name| == 21 && Lower(name)[2] != 's')
    ensures Lower(name) !in STRIPPED
  {
    assert forall k :: k in STRIPPED ==> |k| != 15 && |k| != 22 && (|k| == 21 ==> k[2] == 's');
  }

  /** The worker's names are what `Build` asks for, and are not in lower case. */
  lemma WorkerNamesDistinct()
    ensures Distinct(STRIPPED, WORKER_NAMES)
    ensures Lower(WORKER_NAMES.idempotency) != WORKER_NAMES.idempotency
    ensures Lower(WORKER_NAMES.forwardId) != WORKER_NAMES.forwardId
    ensures Lower(WORKER_NAMES.signature) != WORKER_NAMES.signature
  {
    NameNotStripped(WORKER_NAMES.idempotency);
    NameNotStripped(WORKER_NAMES.forwardId);
    NameNotStripped(WORKER_NAMES.signature);
    assert Lower(WORKER_NAMES.idempotency)[0] == 'i';
    assert Lower(WORKER_NAMES.forwardId)[0] == 'x';
    assert Lower(WORKER_NAMES.signature)[0] == 'x';
  }

  /** The ingest route stores captured names in lower case and the worker's names are
      not, so each header the worker sets is alone exactly when the sender did not send
      that name at all and the endpoint does not spell it otherwise. */
  lemma WorkerHeaderAlone(captured: Headers, own: Headers, key: string, forwardId: string, signature: Option<string>, name: string)
    requires forall k :: k in captured ==> Lower(k) == k
    requires name in {WORKER_NAMES.idempotency, WORKER_NAMES.forwardId} || (name == WORKER_NAMES.signature && signature.Some?)
    ensures Unambiguous(Layers(STRIPPED, WORKER_NAMES, captured, own, key, forwardId, signature), name)
       <==> Lower(name) !in captured && Unambiguous(own, name)
  {
    WorkerNamesDistinct();
    LayersUnambiguous(STRIPPED, WORKER_NAMES, captured, own, key, forwardId, signature, name);
    LowerCaseAmbiguity(captured, name);
  }

  /** A captured header that spells the idempotency name otherwise stays beside the
      worker's. */
  lemma OtherSpellingStays(stripped: set<string>, n: Names, other: string, k: string, key: string, forwardId: string)
    requires Distinct(stripped, n) && Lower(other) == Lower(n.idempotency) && other != n.idempotency
    ensures var out := Layers(stripped, n, map[other := k], map[], key, forwardId, None);
            && out == map[other := k, n.idempotency := key, n.forwardId := forwardId]
            && !Unambiguous(out, n.idempotency)
  {
    var out := Layers(stripped, n, map[other := k], map[], key, forwardId, None);
    assert other in out && other != n.forwardId;
  }

  lemma SameName()
    ensures Lower("idempotency-key") == Lower("Idempotency-Key")
  {
    var a, b := "idempotency-key", "Idempotency-Key";
    assert |a| == |b|;
    forall i | 0 <= i < |a| ensures LowerChar(a[i]) == LowerChar(b[i]) {
      assert i == 0 || i == 12 || a[i] == b[i];
    }
  }

  /** Any sender's `idempotency-key` travels beside the worker's: for that one captured
      header the target gets two idempotency headers. */
  lemma SenderKeyTravels(k: string, id: Uuid, attempt: nat)
    ensures var out := Layers(STRIPPED, WORKER_NAMES, map["idempotency-key" := k], map[],
                              IdempotencyKey(id, attempt), UuidText(id), None);
            && out == map["idempotency-key" := k, "Idempotency-Key" := IdempotencyKey(id, attempt),
                          "X-Hooktrace-Forward-Id" := UuidText(id)]
            && !Unambiguous(out, WORKER_NAMES.idempotency)
  {
    WorkerNamesDistinct();
    SameName();
    OtherSpellingStays(STRIPPED, WORKER_NAMES, "idempotency-key", k, IdempotencyKey(id, attempt), UuidText(id));
  }

  /** The worker's request for `captured`, with the endpoint's own headers. */
  function ForwardHeaders(captured: Headers, own: Headers, id: Uuid, attempt: nat, signature: Option<string>): Headers {
    Layers(STRIPPED, WORKER_NAMES, captured, own, IdempotencyKey(id, attempt), UuidText(id), signature)
  }

  /** What must not leave with the request, and is the endpoint's alone to set. */
  predicate Withheld(name: string) {
    name in {
      "connection", "keep-alive", "te", "trailers", "upgrade", "transfer-encoding", "proxy-authenticate",
      "proxy-authorization", "content-length", "host", "authorization", "cookie", "set-cookie", "stripe-signature",
      "x-hub-signature-256", "x-shopify-hmac-sha256", "x-twilio-signature", "x-slack-signature", "x-zoom-signature"}
  }

  lemma SmallNotWorkers(name: string)
    requires Lower(name) == name
    ensures name !in {"Idempotency-Key", "X-Hooktrace-Forward-Id", "X-Hooktrace-Signature"}
  {
    WorkerNamesDistinct();
  }

  /** With captured names in lower case, a withheld name is sent exactly when the endpoint
      sets it, with the endpoint's value; every other captured header that the endpoint
      does not set is sent as it came. */
  lemma CapturedHeaderSent(captured: Headers, own: Headers, id: Uuid, attempt: nat, signature: Option<string>, name: string)
    requires Lower(name) == name
    ensures var out := ForwardHeaders(captured, own, id, attempt, signature);
            if name in own then name in out && out[name] == own[name]
            else (name in out <==> name in captured && !Withheld(name)) && (name in out ==> out[name] == captured[name])
  {
    SmallNotWorkers(name);
    var out := ForwardHeaders(captured, own, id, attempt, signature);
    assert Seen(out, STRIPPED, WORKER_NAMES, captured, own, IdempotencyKey(id, attempt), UuidText(id), signature, name);
  }

  /** The worker's three headers always arrive as it set them. */
  lemma WorkerHeadersSent(captured: Headers, own: Headers, id: Uuid, attempt: nat, signature: Option<string>)
    ensures var out := ForwardHeaders(captured, own, id, attempt, signature);
            && "Idempotency-Key" in out && out["Idempotency-Key"] == IdempotencyKey(id, attempt)
            && "X-Hooktrace-Forward-Id" in out && out["X-Hooktrace-Forward-Id"] == UuidText(id)
            && (signature.Some? ==> "X-Hooktrace-Signature" in out && out["X-Hooktrace-Signature"] == signature.value)
  {
    WorkerNamesDistinct();
    var out := ForwardHeaders(captured, own, id, attempt, signature);
    var key, forwardId := IdempotencyKey(id, attempt), UuidText(id);
    assert Seen(out, STRIPPED, WORKER_NAMES, captured, own, key, forwardId, signature, "Idempotency-Key");
    assert Seen(out, STRIPPED, WORKER_NAMES, captured, own, key, forwardId, signature, "X-Hooktrace-Forward-Id");
    assert Seen(out, STRIPPED, WORKER_NAMES, captured, own, key, forwardId, signature, "X-Hooktrace-Signature");
  }
}
