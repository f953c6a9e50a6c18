/** The relay-signature middleware: the request body must carry an HMAC-SHA256
    of its raw bytes, keyed by the shared secret and base64-encoded, in the
    primary signature header or (during key rotation) the secondary one. */
module HookdeckAuth {
  import opened Js
  import opened Http

  type Bytes = seq<bv8>

  /** base64(HMAC-SHA256(secret, raw body)). The hash and the encoding are
      library code outside the model, so the verifier takes them as a
      parameter and the proofs hold for every such function. */
  type Digest = (string, Bytes) -> string

  const ConfigurationError: Outcome := Error(500, "Server configuration error")
  const MissingSignature: Outcome := ErrorWithMessage(401, "Unauthorized", "Missing signature")
  const InvalidSignature: Outcome := ErrorWithMessage(403, "Forbidden", "Invalid signature")

  /** The signatures a request offers: the primary header, and the secondary
      header too when it is set to a non-empty value. */
  function Candidates(signature: string, signature2: Option<string>): set<string> {
    if IsSet(signature2) then {signature, signature2.value} else {signature}
  }

  /** `verifyHookdeckSignature`: checks, in this order, that the secret is
      configured, that the primary header is present, that the raw body was
      captured, and that the digest matches one of the offered signatures. */
  function VerifyHookdeckSignature(
    digest: Digest, secret: Option<string>,
    signature: Option<string>, signature2: Option<string>, rawBody: Option<Bytes>
  ): (r: Outcome)
    // an unset secret is a configuration error, whatever the request holds
    ensures !IsSet(secret) ==> r == ConfigurationError
    // a missing primary header is reported before a missing raw body, and a
    // secondary header cannot stand in for it
    ensures IsSet(secret) && !IsSet(signature) ==> r == MissingSignature
    ensures IsSet(secret) && IsSet(signature) && rawBody.None? ==> r == ConfigurationError
    // acceptance: the digest of the raw bytes is one of the offered signatures
    ensures r.Next? <==>
      IsSet(secret) && IsSet(signature) && rawBody.Some? &&
      digest(secret.value, rawBody.value) in Candidates(signature.value, signature2)
    // every other request is refused as forged
    ensures IsSet(secret) && IsSet(signature) && rawBody.Some? && !r.Next? ==> r == InvalidSignature
  {
    if !IsSet(secret) then ConfigurationError
    else if !IsSet(signature) then MissingSignature
    else if rawBody.None? then ConfigurationError
    else
      var hash := digest(secret.value, rawBody.value);
      if hash == signature.value || (IsSet(signature2) && hash == signature2.value) then Next
      else InvalidSignature
  }

  /** Key rotation: a request whose primary signature is stale but whose
      secondary signature matches is accepted. */
  lemma RotationAccepted(digest: Digest, secret: string, signature: string, signature2: string, rawBody: Bytes)
    requires secret != "" && signature != ""
    requires digest(secret, rawBody) == signature2
    requires signature2 != ""
    ensures VerifyHookdeckSignature(digest, Some(secret), Some(signature), Some(signature2), Some(rawBody)) == Next
  {
  }

  /** The outcome depends on the raw body only through its digest: two
      bodies with the same digest are treated alike. */
  lemma DigestIsTheOnlyDependency(
    digest: Digest, secret: Option<string>, signature: Option<string>, signature2: Option<string>,
    body1: Bytes, body2: Bytes)
    requires IsSet(secret) ==> digest(secret.value, body1) == digest(secret.value, body2)
    ensures VerifyHookdeckSignature(digest, secret, signature, signature2, Some(body1))
         == VerifyHookdeckSignature(digest, secret, signature, signature2, Some(body2))
  {
  }

  /** A body whose digest differs from the signed body's is refused with 403
      when the relay sent only the primary signature for the signed body. */
  lemma AlteredBodyRejected(digest: Digest, secret: string, signed: Bytes, altered: Bytes)
    requires secret != "" && digest(secret, signed) != ""
    requires digest(secret, altered) != digest(secret, signed)
    ensures VerifyHookdeckSignature(digest, Some(secret), Some(digest(secret, signed)), None, Some(signed)) == Next
    ensures VerifyHookdeckSignature(digest, Some(secret), Some(digest(secret, signed)), None, Some(altered)) == InvalidSignature
  {
  }
}
