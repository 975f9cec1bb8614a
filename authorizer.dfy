// Request signature checking: hex-decode the configured public key and the
// signature header, sign-check `timestamp || body` with Ed25519 (section
// 5.1.7 of RFC 8032). The Ed25519 arithmetic itself is a parameter.

module Authorizer {
  import opened Base
  import opened Hex

  /** ed25519.Verify(publicKey, message, signature). */
  type Verifier = (Bytes, Bytes, Bytes) -> bool

  /** The signed message: the timestamp bytes immediately followed by the body bytes. */
  function SignedMessage(timestamp: Bytes, body: Bytes): (m: Bytes)
    ensures |m| == |timestamp| + |body|
    ensures m[..|timestamp|] == timestamp && m[|timestamp|..] == body
  {
    timestamp + body
  }

  /**
   * ValidateRequest as service/internal/authorizer.go has it: a key or
   * signature that is not valid hex makes it false; otherwise it is what
   * Ed25519 verification says of the decoded key, the signed message and the
   * decoded signature.
   */
  function ValidateRequest(verify: Verifier, publicKey: Bytes, body: Bytes, signature: Bytes, timestamp: Bytes): (valid: bool)
    ensures HexDecode(publicKey).Failure? ==> !valid
    ensures HexDecode(signature).Failure? ==> !valid
    ensures HexDecode(publicKey).Success? && HexDecode(signature).Success? ==>
      valid == verify(HexDecode(publicKey).value, SignedMessage(timestamp, body), HexDecode(signature).value)
  {
    match HexDecode(publicKey)
    case Failure(_) => false
    case Success(key) =>
      match HexDecode(signature)
      case Failure(_) => false
      case Success(sig) => verify(key, SignedMessage(timestamp, body), sig)
  }

  /**
   * The `(bool, error)` variant internal/handler.go calls: a key or signature
   * that is not valid hex is reported as that decoding error (the key is
   * decoded first), and a signature that does not match is a plain false.
   */
  function ValidateRequestWithError(verify: Verifier, publicKey: Bytes, body: Bytes, signature: Bytes, timestamp: Bytes)
    : (r: (bool, Option<Error>))
    ensures r.1.Some? <==> HexDecode(publicKey).Failure? || HexDecode(signature).Failure?
    ensures r.1.Some? ==> !r.0
    ensures HexDecode(publicKey).Failure? ==> r.1 == Some(HexDecode(publicKey).error)
    ensures HexDecode(publicKey).Success? && HexDecode(signature).Failure? ==> r.1 == Some(HexDecode(signature).error)
  {
    match HexDecode(publicKey)
    case Failure(e) => (false, Some(e))
    case Success(key) =>
      match HexDecode(signature)
      case Failure(e) => (false, Some(e))
      case Success(sig) => (verify(key, SignedMessage(timestamp, body), sig), None)
  }

  /** The two variants agree on validity; the error only says why validation failed. */
  lemma VariantsAgree(verify: Verifier, publicKey: Bytes, body: Bytes, signature: Bytes, timestamp: Bytes)
    ensures ValidateRequestWithError(verify, publicKey, body, signature, timestamp).0
            == ValidateRequest(verify, publicKey, body, signature, timestamp)
  {
  }

  /** With a public key that is not valid hex the signature is never looked at. */
  lemma BadKeyIgnoresSignature(verify: Verifier, publicKey: Bytes, body: Bytes, sig1: Bytes, sig2: Bytes, timestamp: Bytes)
    requires HexDecode(publicKey).Failure?
    ensures ValidateRequest(verify, publicKey, body, sig1, timestamp) == ValidateRequest(verify, publicKey, body, sig2, timestamp)
    ensures ValidateRequestWithError(verify, publicKey, body, sig1, timestamp) == ValidateRequestWithError(verify, publicKey, body, sig2, timestamp)
  {
  }

  /** Timestamp and body matter only through their concatenation. */
  lemma OnlyConcatenationMatters(verify: Verifier, publicKey: Bytes, signature: Bytes,
                                 ts1: Bytes, body1: Bytes, ts2: Bytes, body2: Bytes)
    requires ts1 + body1 == ts2 + body2
    ensures ValidateRequest(verify, publicKey, body1, signature, ts1) == ValidateRequest(verify, publicKey, body2, signature, ts2)
  {
  }

  /**
   * Headers built as the tests build them, by hex-encoding a raw key and a
   * raw signature, validate exactly when Ed25519 accepts the raw signature
   * over timestamp || body, and never with an error.
   */
  lemma EncodedArtifactsValidate(verify: Verifier, key: Bytes, body: Bytes, sig: Bytes, timestamp: Bytes)
    ensures ValidateRequest(verify, HexEncode(key), body, HexEncode(sig), timestamp) == verify(key, timestamp + body, sig)
    ensures ValidateRequestWithError(verify, HexEncode(key), body, HexEncode(sig), timestamp) == (verify(key, timestamp + body, sig), None)
  {
    HexRoundTrip(key);
    HexRoundTrip(sig);
  }

  /**
   * A signature header with a byte that is not a hexadecimal digit (the tests
   * use "invalidSignature" and "oogabooga") gives an error and false.
   */
  lemma NonHexSignatureIsError(verify: Verifier, publicKey: Bytes, body: Bytes, signature: Bytes, timestamp: Bytes, i: int)
    requires HexDecode(publicKey).Success?
    requires 0 <= i < |signature| && !IsHexDigit(signature[i])
    ensures var r := ValidateRequestWithError(verify, publicKey, body, signature, timestamp);
      !r.0 && r.1.Some? && r.1.value.InvalidByte?
    ensures !ValidateRequest(verify, publicKey, body, signature, timestamp)
  {
    HexDecodeSucceeds(signature);
    var first :| 0 <= first < |signature| && !IsHexDigit(signature[first]) &&
                 forall j :: 0 <= j < first ==> IsHexDigit(signature[j]) by {
      FirstNonDigit(signature, i);
    }
    HexDecodeError(signature, first);
  }
}
