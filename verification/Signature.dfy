/** What a webhook's signature covers, and the header that carries one signature for each
    secret. The digest is any function to lower-case hex. */
module Signature {
  import opened Text

  const SCHEME := "v1"

  /** `<scheme>:<timestamp>:<raw body>` */
  function CanonicalString(timestamp: string, rawBody: string): string {
    SCHEME + ":" + timestamp + ":" + rawBody
  }

  /** HMAC over a secret and a message, in lower-case hex. */
  type Hmac = (string, string) -> string

  predicate IsLowerHex(s: string) {
    forall i :: 0 <= i < |s| ==> '0' <= s[i] <= '9' || 'a' <= s[i] <= 'f'
  }

  ghost predicate Hexes(hmac: Hmac) {
    forall secret, message :: IsLowerHex(hmac(secret, message))
  }

  function SignDelivery(hmac: Hmac, rawBody: string, timestamp: string, secret: string): string {
    hmac(secret, CanonicalString(timestamp, rawBody))
  }

  function Signatures(hmac: Hmac, rawBody: string, timestamp: string, secrets: seq<string>): seq<string> {
    seq(|secrets|, i requires 0 <= i < |secrets| => SCHEME + "=" + SignDelivery(hmac, rawBody, timestamp, secrets[i]))
  }

  datatype Headers = Headers(timestamp: string, signature: string)

  function SignatureHeaders(hmac: Hmac, rawBody: string, timestamp: string, secrets: seq<string>): Headers {
    Headers(timestamp, Join(Signatures(hmac, rawBody, timestamp, secrets), ','))
  }

  /** `Math.floor(Date.now() / 1000).toString()` */
  function TimestampOf(nowMs: nat): string {
    Decimal(nowMs / 1_000)
  }

  lemma TimestampHasNoColon(nowMs: nat)
    ensures Without(TimestampOf(nowMs), ':')
  {
    var s := TimestampOf(nowMs);
    assert s == DecimalNat(nowMs / 1_000);
  }

  /** Two requests are signed over the same text exactly when they have the same second and
      the same body: nothing can be moved between the two. */
  lemma SignedTextIsRecoverable(a: nat, x: string, b: nat, y: string)
    ensures CanonicalString(TimestampOf(a), x) == CanonicalString(TimestampOf(b), y) <==>
            a / 1_000 == b / 1_000 && x == y
  {
    TimestampHasNoColon(a);
    TimestampHasNoColon(b);
    var s, t := CanonicalString(TimestampOf(a), x), CanonicalString(TimestampOf(b), y);
    assert s[3..] == TimestampOf(a) + ":" + x && t[3..] == TimestampOf(b) + ":" + y;
    if s == t {
      FirstSeparator(TimestampOf(a), x, TimestampOf(b), y, ':');
      DecimalInjective(a / 1_000, b / 1_000);
    }
  }

  /** A recipient that splits the header on commas finds one entry for each secret, in
      order, and what follows `v1=` in it is the digest of the text under that secret. */
  lemma EverySecretsSignatureIsFound(hmac: Hmac, rawBody: string, timestamp: string, secrets: seq<string>, i: nat)
    requires Hexes(hmac) && i < |secrets|
    ensures var found := Split(SignatureHeaders(hmac, rawBody, timestamp, secrets).signature, ',');
            && |found| == |secrets|
            && SCHEME + "=" <= found[i]
            && found[i][3..] == SignDelivery(hmac, rawBody, timestamp, secrets[i])
  {
    SignaturesHaveNoComma(hmac, rawBody, timestamp, secrets);
    SplitJoined(Signatures(hmac, rawBody, timestamp, secrets), ',');
  }

  lemma SignaturesHaveNoComma(hmac: Hmac, rawBody: string, timestamp: string, secrets: seq<string>)
    requires Hexes(hmac)
    ensures forall p :: p in Signatures(hmac, rawBody, timestamp, secrets) ==> Without(p, ',')
  {
    var all := Signatures(hmac, rawBody, timestamp, secrets);
    forall p | p in all ensures Without(p, ',') {
      var j :| 0 <= j < |all| && all[j] == p;
      assert IsLowerHex(SignDelivery(hmac, rawBody, timestamp, secrets[j]));
    }
  }

  /** What a recipient that holds a secret does with the two headers and the body it got: it
      looks for `v1=` and the digest of `v1:`, the timestamp, `:` and the body. */
  predicate Verifies(hmac: Hmac, headers: Headers, rawBody: string, secret: string) {
    "v1=" + hmac(secret, "v1:" + headers.timestamp + ":" + rawBody) in Split(headers.signature, ',')
  }

  lemma CanonicalReads(timestamp: string, rawBody: string)
    ensures CanonicalString(timestamp, rawBody) == "v1:" + timestamp + ":" + rawBody
  {
    assert SCHEME + ":" == "v1:";
  }

  lemma SameDigest(a: string, b: string)
    ensures "v1=" + a == "v1=" + b <==> a == b
  {
    assert ("v1=" + a)[3..] == a && ("v1=" + b)[3..] == b;
  }

  /** It accepts exactly if that digest is the one of some secret over what was sent: so with
      each of the endpoint's secrets, and with no other text or secret but by a collision. */
  lemma RecipientVerifies(
      hmac: Hmac, sent: string, nowMs: nat, secrets: seq<string>, got: string, secret: string)
    requires Hexes(hmac)
    ensures var ts := TimestampOf(nowMs);
            var headers := SignatureHeaders(hmac, sent, ts, secrets);
            && headers.timestamp == ts && ParseNat(ts) == nowMs / 1_000
            && (Verifies(hmac, headers, got, secret) <==>
                exists i :: 0 <= i < |secrets| &&
                    hmac(secret, "v1:" + ts + ":" + got) == hmac(secrets[i], "v1:" + ts + ":" + sent))
            && (secret in secrets ==> Verifies(hmac, headers, sent, secret))
  {
    var ts := TimestampOf(nowMs);
    ParseDecimalNat(nowMs / 1_000);
    var headers := SignatureHeaders(hmac, sent, ts, secrets);
    HeaderHolds(hmac, sent, ts, secrets, hmac(secret, "v1:" + ts + ":" + got));
    HeaderHolds(hmac, sent, ts, secrets, hmac(secret, "v1:" + ts + ":" + sent));
    if secret in secrets {
      var i :| 0 <= i < |secrets| && secrets[i] == secret;
    }
  }

  /** The header holds `v1=` and a digest exactly if it is that of one of the secrets. */
  lemma HeaderHolds(hmac: Hmac, sent: string, ts: string, secrets: seq<string>, digest: string)
    requires Hexes(hmac)
    ensures "v1=" + digest in Split(SignatureHeaders(hmac, sent, ts, secrets).signature, ',') <==>
            exists i :: 0 <= i < |secrets| && digest == hmac(secrets[i], "v1:" + ts + ":" + sent)
  {
    var all := Signatures(hmac, sent, ts, secrets);
    SignaturesHaveNoComma(hmac, sent, ts, secrets);
    if all != [] {
      SplitJoined(all, ',');
    }
    CanonicalReads(ts, sent);
    forall i | 0 <= i < |secrets|
      ensures all[i] == "v1=" + digest <==> digest == hmac(secrets[i], "v1:" + ts + ":" + sent)
    {
      SameDigest(digest, hmac(secrets[i], "v1:" + ts + ":" + sent));
    }
    if "v1=" + digest in all {
      var i :| 0 <= i < |all| && all[i] == "v1=" + digest;
    }
    if i :| 0 <= i < |secrets| && digest == hmac(secrets[i], "v1:" + ts + ":" + sent) {
      assert all[i] in all;
    }
  }
}
