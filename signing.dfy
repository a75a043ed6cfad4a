/**
 * Request signing (Gatecoin::API#signature): the canonical string, its lower-casing,
 * HMAC-SHA256 over it with the secret key, Base64 of the digest as Ruby's
 * Base64.encode64 emits it, and the removal of every line break.
 *
 * HMAC-SHA256 (RFC 2104) and single-line Base64 (section 4 of RFC 4648) are not
 * modelled; they are supplied as function values in `Primitives`. What encode64 adds
 * on top of single-line Base64 (a line break after every 60 characters and at the
 * end) is modelled, since that is what the stripping undoes.
 */
module Signing {

  type byte = x: int | 0 <= x < 256

  /** The cryptographic primitives the client calls into. */
  datatype Primitives = Primitives(
    hmacSha256: (string, string) -> seq<byte>,  // (key, data) -> digest
    strictBase64: seq<byte> -> string            // single-line Base64, RFC 4648 section 4
  )

  /** The characters of the Base64 alphabet of RFC 4648 section 4, with the pad. */
  predicate Base64Char(c: char) {
    ('A' <= c <= 'Z') || ('a' <= c <= 'z') || ('0' <= c <= '9') || c == '+' || c == '/' || c == '='
  }

  /** The single-line encoder only ever emits Base64 characters. */
  ghost predicate EmitsBase64Alphabet(p: Primitives) {
    forall d, c :: c in p.strictBase64(d) ==> Base64Char(c)
  }

  /** The verb for which the content type is left out of the signed string. */
  const Get: string := "GET"

  // ---------------------------------------------------------------------------
  // Lower-casing (String#downcase, restricted to ASCII letters)
  // ---------------------------------------------------------------------------

  function LowerChar(c: char): (d: char)
    ensures 'A' <= c <= 'Z' ==> d as int == c as int + 32
    ensures !('A' <= c <= 'Z') ==> d == c
  {
    if 'A' <= c <= 'Z' then (c as int + 32) as char else c
  }

  /** `s.downcase`: every character lower-cased, in place, nothing added or removed. */
  function Lower(s: string): (r: string)
    ensures |r| == |s|
    ensures forall i :: 0 <= i < |s| ==> r[i] == LowerChar(s[i])
  {
    if s == [] then [] else [LowerChar(s[0])] + Lower(s[1..])
  }

  /** Lower-casing a concatenation lower-cases each part. */
  lemma {:induction false} LowerAppend(a: string, b: string)
    ensures Lower(a + b) == Lower(a) + Lower(b)
  {
    if a != [] {
      assert (a + b)[1..] == a[1..] + b;
      LowerAppend(a[1..], b);
      assert Lower(a + b) == [LowerChar(a[0])] + Lower(a[1..] + b);
    }
  }

  /** A lower-cased string has no upper-case ASCII letter and lower-casing it again changes nothing. */
  lemma LowerIsLower(s: string)
    ensures forall i :: 0 <= i < |s| ==> !('A' <= Lower(s)[i] <= 'Z')
    ensures Lower(Lower(s)) == Lower(s)
  {
  }

  // ---------------------------------------------------------------------------
  // The canonical string
  // ---------------------------------------------------------------------------

  /** The content type as it enters the signed string: blanked for GET. */
  function SignedContentType(verb: string, contentType: string): (ct: string)
    ensures verb == Get ==> ct == ""
    ensures verb != Get ==> ct == contentType
  {
    if verb == Get then "" else contentType
  }

  /**
   * The signed string: verb, base URL, path, content type (empty for GET) and
   * timestamp laid end to end with no delimiter, then lower-cased as a whole.
   */
  function Canonical(verb: string, url: string, path: string, contentType: string, timestamp: string): (r: string)
    ensures |r| == |verb| + |url| + |path| + |SignedContentType(verb, contentType)| + |timestamp|
  {
    Lower(verb + url + path + SignedContentType(verb, contentType) + timestamp)
  }

  /**
   * Lower-casing the whole canonical string is lower-casing each of its five
   * parts: the equation on `Canonical` itself, kept apart so that its instances
   * are only paid for where a proof asks for them.
   */
  lemma CanonicalParts(verb: string, url: string, path: string, contentType: string, timestamp: string)
    ensures Canonical(verb, url, path, contentType, timestamp)
         == Lower(verb) + Lower(url) + Lower(path) + Lower(SignedContentType(verb, contentType)) + Lower(timestamp)
  {
    var ct := SignedContentType(verb, contentType);
    LowerAppend(verb + url + path + ct, timestamp);
    LowerAppend(verb + url + path, ct);
    LowerAppend(verb + url, path);
    LowerAppend(verb, url);
  }

  // ---------------------------------------------------------------------------
  // Line breaks: what Base64.encode64 inserts and gsub("\n", '') removes
  // ---------------------------------------------------------------------------

  /** `s.gsub("\n", '')`: the characters of `s` other than line feeds, in order. */
  function StripNewlines(s: string): (r: string)
    ensures '\n' !in r
    ensures |r| <= |s|
    ensures forall c :: c != '\n' ==> multiset(r)[c] == multiset(s)[c]
  {
    if s == [] then []
    else
      assert s == [s[0]] + s[1..];
      (if s[0] == '\n' then [] else [s[0]]) + StripNewlines(s[1..])
  }

  lemma {:induction false} StripNewlinesAppend(a: string, b: string)
    ensures StripNewlines(a + b) == StripNewlines(a) + StripNewlines(b)
  {
    if a != [] {
      var first := if a[0] == '\n' then [] else [a[0]];
      assert (a + b)[0] == a[0] && (a + b)[1..] == a[1..] + b;
      calc {
        StripNewlines(a + b);
        first + StripNewlines(a[1..] + b);
        { StripNewlinesAppend(a[1..], b); }
        first + (StripNewlines(a[1..]) + StripNewlines(b));
        (first + StripNewlines(a[1..])) + StripNewlines(b);
        StripNewlines(a) + StripNewlines(b);
      }
    } else {
      assert a + b == b;
    }
  }

  /** Stripping leaves a string without line feeds unchanged, and only such strings. */
  lemma {:induction false} StripNewlinesFixed(s: string)
    ensures StripNewlines(s) == s <==> '\n' !in s
  {
    if s != [] {
      StripNewlinesFixed(s[1..]);
      if s[0] == '\n' {
        assert |StripNewlines(s)| <= |s[1..]| < |s|;
      }
    }
  }

  /** The characters per line of `Base64.encode64` (45 input bytes per line). */
  const LineLength: nat := 60

  /** The line structure `Base64.encode64` puts on a single-line encoding: 60 characters per line, each line ended by a line feed. */
  function LineWrap(s: string): (r: string)
    ensures s != [] ==> |r| > 0 && r[|r| - 1] == '\n'
    decreases |s|
  {
    if s == [] then ""
    else if |s| <= LineLength then s + "\n"
    else s[..LineLength] + "\n" + LineWrap(s[LineLength..])
  }

  /** Stripping the line feeds from a wrapped single-line string gives the string back. */
  lemma {:induction false} StripLineWrap(s: string)
    requires '\n' !in s
    ensures StripNewlines(LineWrap(s)) == s
    decreases |s|
  {
    StripNewlinesFixed(s);
    if s == [] {
    } else if |s| <= LineLength {
      StripNewlinesAppend(s, "\n");
    } else {
      var head, tail := s[..LineLength], s[LineLength..];
      assert s == head + tail;
      assert '\n' !in head;
      StripNewlinesFixed(head);
      StripNewlinesAppend(head + "\n", LineWrap(tail));
      StripNewlinesAppend(head, "\n");
      StripLineWrap(tail);
    }
  }

  /** `Base64.encode64(digest)`: the single-line encoding, wrapped. */
  function Encode64(p: Primitives, digest: seq<byte>): string {
    LineWrap(p.strictBase64(digest))
  }

  // ---------------------------------------------------------------------------
  // The signature
  // ---------------------------------------------------------------------------

  /** `signature(timestamp, verb, content_type, path)` for a client with `secret` and base `url`. */
  function Signature(p: Primitives, secret: string, verb: string, url: string, path: string,
                     contentType: string, timestamp: string): (r: string)
    ensures '\n' !in r
  {
    StripNewlines(Encode64(p, p.hmacSha256(secret, Canonical(verb, url, path, contentType, timestamp))))
  }

  /**
   * The signature as the exchange recomputes it: the single-line Base64 of the
   * HMAC-SHA256, keyed with the secret, of the lower-cased verb, URL, path,
   * content type (empty for GET) and timestamp written one after the other.
   */
  function ExpectedSignature(p: Primitives, secret: string, verb: string, url: string, path: string,
                             contentType: string, timestamp: string): string
  {
    var ct := if verb == Get then "" else contentType;
    p.strictBase64(p.hmacSha256(secret, Lower(verb) + Lower(url) + Lower(path) + Lower(ct) + Lower(timestamp)))
  }

  /** The client's signature is the exchange's expected one, whatever the inputs. */
  lemma SignatureIsExpected(p: Primitives, secret: string, verb: string, url: string, path: string,
                            contentType: string, timestamp: string)
    requires EmitsBase64Alphabet(p)
    ensures Signature(p, secret, verb, url, path, contentType, timestamp)
         == ExpectedSignature(p, secret, verb, url, path, contentType, timestamp)
  {
    CanonicalParts(verb, url, path, contentType, timestamp);
    var encoded := p.strictBase64(p.hmacSha256(secret, Canonical(verb, url, path, contentType, timestamp)));
    assert !Base64Char('\n');
    assert '\n' !in encoded;
    StripLineWrap(encoded);
  }

  /** For GET the content type does not enter the signature: any two choices sign alike. */
  lemma GetSignatureIgnoresContentType(p: Primitives, secret: string, url: string, path: string,
                                       ct1: string, ct2: string, timestamp: string)
    ensures Signature(p, secret, Get, url, path, ct1, timestamp) == Signature(p, secret, Get, url, path, ct2, timestamp)
  {
    assert SignedContentType(Get, ct1) == SignedContentType(Get, ct2) == "";
    CanonicalParts(Get, url, path, ct1, timestamp);
  }

  /** Case is not signed: inputs that agree once lower-cased give the same signature. */
  lemma SignatureIgnoresCase(p: Primitives, secret: string, verb: string,
                             url1: string, path1: string, ct1: string, ts1: string,
                             url2: string, path2: string, ct2: string, ts2: string)
    requires Lower(url1) == Lower(url2) && Lower(path1) == Lower(path2)
    requires Lower(ct1) == Lower(ct2) && Lower(ts1) == Lower(ts2)
    ensures Signature(p, secret, verb, url1, path1, ct1, ts1) == Signature(p, secret, verb, url2, path2, ct2, ts2)
  {
    CanonicalParts(verb, url1, path1, ct1, ts1);
    CanonicalParts(verb, url2, path2, ct2, ts2);
  }
}
