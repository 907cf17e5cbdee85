/** `buildSignedHeaders`: a salt, the wall-clock time in milliseconds and a
    keyed signature over (publicId, username, role, salt), returned as the
    three headers `salt`, `X-Timestamp` and `hash`. The salt generator and
    the signing primitive live outside this file and are passed in; the
    signer may reject, and its rejection propagates. */
module SignedHeaders {
  import opened JsValues
  import opened HttpTypes

  datatype SignerConfig = SignerConfig(secret: string, saltBytes: Option<int>, saltFormat: Option<string>)

  /** The identity fields the signature binds, in the order they are signed. */
  datatype SignInput = SignInput(publicId: string, username: string, role: string, salt: string)

  const DEFAULT_SALT_BYTES := 16
  const DEFAULT_SALT_FORMAT := "base64"
  const SIGNATURE_FORMAT := "base64"

  /** The salt length and encoding: the configured ones, or 16 and base64
      when they are null or undefined (a configured 0 stays 0). */
  function SaltSettings(cfg: SignerConfig): (int, string) {
    (cfg.saltBytes.GetOr(DEFAULT_SALT_BYTES), cfg.saltFormat.GetOr(DEFAULT_SALT_FORMAT))
  }

  function BuildSignedHeaders(
    publicId: string, username: string, role: string, cfg: SignerConfig, nowMs: nat,
    generateSalt: (int, string) -> string,
    signRequest: (SignInput, string, string) -> Result<string, string>): (r: Result<Headers, string>)
    ensures var salt := generateSalt(SaltSettings(cfg).0, SaltSettings(cfg).1);
      var signed := signRequest(SignInput(publicId, username, role, salt), cfg.secret, SIGNATURE_FORMAT);
      && (r.Failure? <==> signed.Failure?)
      && (r.Failure? ==> r.error == signed.error)
      && (r.Success? ==>
            && r.value.Keys == {"salt", "X-Timestamp", "hash"}
            && r.value["salt"] == salt
            && r.value["hash"] == signed.value
            && (forall i :: 0 <= i < |r.value["X-Timestamp"]| ==> IsDigit(r.value["X-Timestamp"][i]))
            && ParseNat(r.value["X-Timestamp"]) == nowMs)
  {
    var salt := generateSalt(SaltSettings(cfg).0, SaltSettings(cfg).1);
    var timestamp := NatToString(nowMs);
    ParseNatToString(nowMs);
    match signRequest(SignInput(publicId, username, role, salt), cfg.secret, SIGNATURE_FORMAT)
    case Failure(e) => Failure(e)
    case Success(signature) => Success(map["salt" := salt, "X-Timestamp" := timestamp, "hash" := signature])
  }
}
