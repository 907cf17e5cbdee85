/** The request interceptor: a Bearer `Authorization` header (section 2.1 of
    RFC 6750) when authentication is wanted, a token exists and no
    `Authorization` header is set, and a fresh `X-Request-Id` correlation id
    on every request. */
module RequestDecoration {
  import opened JsValues
  import opened HttpTypes
  import TokenStore

  type Byte = x: int | 0 <= x < 256

  /** The 16 bytes `crypto.getRandomValues` fills. */
  type RandomBytes = s: seq<Byte> | |s| == 16 witness [0, 0, 0, 0, 0, 0, 0, 0, 0, 0, 0, 0, 0, 0, 0, 0]

  /** Where the correlation id comes from: secure random bytes, or, when the
      secure source raises, the text of `Math.random().toString(36)`. */
  datatype RandomSource = SecureRandom(bytes: RandomBytes) | MathRandom(base36: string)

  predicate IsLowerHex(c: char) {
    '0' <= c <= '9' || 'a' <= c <= 'f'
  }

  /** The lower-case hex digit of a nibble. */
  function HexDigit(d: nat): (c: char)
    requires d < 16
    ensures IsLowerHex(c)
  {
    if d < 10 then ('0' as int + d) as char else ('a' as int + d - 10) as char
  }

  /** `b.toString(16).padStart(2, '0')`: two lower-case hex digits, high nibble first. */
  function HexByte(b: Byte): (s: string)
    ensures |s| == 2 && IsLowerHex(s[0]) && IsLowerHex(s[1])
  {
    [HexDigit(b / 16), HexDigit(b % 16)]
  }

  /** The bytes mapped by `HexByte` and joined with no separator. */
  function HexEncode(bytes: seq<Byte>): (s: string)
    ensures |s| == 2 * |bytes|
    ensures forall i :: 0 <= i < |s| ==> IsLowerHex(s[i])
  {
    if bytes == [] then "" else HexByte(bytes[0]) + HexEncode(bytes[1..])
  }

  function HexValue(c: char): (v: nat)
    requires IsLowerHex(c)
    ensures v < 16
  {
    if c <= '9' then c as int - '0' as int else c as int - 'a' as int + 10
  }

  /** Reads two hex digits per byte; the inverse of `HexEncode`. */
  function HexDecode(s: string): seq<Byte>
    requires |s| % 2 == 0
    requires forall i :: 0 <= i < |s| ==> IsLowerHex(s[i])
  {
    if s == [] then [] else [HexValue(s[0]) * 16 + HexValue(s[1])] + HexDecode(s[2..])
  }

  lemma HexByteValue(b: Byte)
    ensures HexValue(HexByte(b)[0]) * 16 + HexValue(HexByte(b)[1]) == b
  {
    var hi, lo := b / 16, b % 16;
    assert HexValue(HexDigit(hi)) == hi;
    assert HexValue(HexDigit(lo)) == lo;
    assert hi * 16 + lo == b;
  }

  /** No two byte strings share a hex encoding: decoding recovers the bytes. */
  lemma {:induction false} HexRoundTrip(bytes: seq<Byte>)
    ensures HexDecode(HexEncode(bytes)) == bytes
  {
    if bytes != [] {
      var s := HexEncode(bytes);
      assert s[2..] == HexEncode(bytes[1..]);
      HexByteValue(bytes[0]);
      HexRoundTrip(bytes[1..]);
    }
  }

  /** `cryptoRandomId`: the secure random bytes in hex, or, when the secure
      source raises, the base-36 text after its leading `0.`. */
  function CryptoRandomId(source: RandomSource): string {
    match source
    case SecureRandom(bytes) => HexEncode(bytes)
    case MathRandom(text) => Slice(text, 2)
  }

  /** With secure randomness the id is 32 lower-case hex digits that decode
      to the 16 random bytes, so distinct bytes give distinct ids; otherwise
      it is the `Math.random` text less its first two characters. */
  lemma CryptoRandomIdFormat(source: RandomSource)
    ensures var id := CryptoRandomId(source);
      source.SecureRandom? ==>
        |id| == 32 && (forall i :: 0 <= i < |id| ==> IsLowerHex(id[i])) && HexDecode(id) == source.bytes
    ensures source.MathRandom? ==> CryptoRandomId(source) == Slice(source.base36, 2)
  {
    if source.SecureRandom? {
      HexRoundTrip(source.bytes);
    }
  }

  /** `withAuth` unless it was left undefined, which means true. */
  predicate WantsAuth(cfg: RequestConfig) {
    cfg.withAuth.GetOr(true)
  }

  /** The condition under which the interceptor adds the Bearer header. */
  predicate AttachesBearer(cfg: RequestConfig, token: Option<string>) {
    WantsAuth(cfg) && Truthy(token) && !Truthy(HeaderValue(cfg.headers, "Authorization"))
  }

  function BearerCredential(token: string): string {
    "Bearer " + token
  }

  /** The token carried by a `Bearer` credential, if the value is one. */
  function ParseBearer(value: string): Option<string> {
    if |value| >= 7 && value[..7] == "Bearer " then Some(value[7..]) else None
  }

  lemma ParseBearerCredential(token: string)
    ensures ParseBearer(BearerCredential(token)) == Some(token)
  {
    assert BearerCredential(token)[..7] == "Bearer ";
  }

  /** The decorated configuration, given the token `getAuthToken` returned
      (if it was called) and the fresh correlation id. */
  function Decorate(cfg: RequestConfig, token: Option<string>, requestId: string): (out: RequestConfig)
    ensures out.headers.Keys == cfg.headers.Keys + {"X-Request-Id"} + (if AttachesBearer(cfg, token) then {"Authorization"} else {})
    ensures out.headers["X-Request-Id"] == requestId && out.requestId == Some(requestId)
    ensures AttachesBearer(cfg, token) ==> ParseBearer(out.headers["Authorization"]) == token
    ensures forall h :: h in cfg.headers && h != "X-Request-Id" && (h != "Authorization" || !AttachesBearer(cfg, token)) ==>
              out.headers[h] == cfg.headers[h]
    ensures out.(headers := cfg.headers, requestId := cfg.requestId) == cfg
  {
    var headers := if AttachesBearer(cfg, token) then cfg.headers["Authorization" := BearerCredential(token.value)] else cfg.headers;
    ParseBearerCredential(if token.Some? then token.value else "");
    cfg.(headers := headers["X-Request-Id" := requestId], requestId := Some(requestId))
  }

  /** An `Authorization` header already set (to a non-empty value) is never
      replaced, whatever the token. */
  lemma ExistingAuthorizationKept(cfg: RequestConfig, token: Option<string>, requestId: string)
    requires Truthy(HeaderValue(cfg.headers, "Authorization"))
    ensures Decorate(cfg, token, requestId).headers["Authorization"] == cfg.headers["Authorization"]
  {
  }

  /** The interceptor: calls `getAuthToken` only when authentication is
      wanted, then decorates the configuration with a fresh correlation id. */
  method Intercept(store: TokenStore.Store, cfg: RequestConfig, source: RandomSource, readFails: bool)
    returns (out: RequestConfig)
    modifies store`inMemoryToken
    ensures WantsAuth(cfg) ==>
              store.inMemoryToken == TokenStore.HydratedToken(old(store.inMemoryToken), store.storage, store.TokenKey(), readFails)
    ensures !WantsAuth(cfg) ==> store.inMemoryToken == old(store.inMemoryToken)
    ensures out == Decorate(cfg, if WantsAuth(cfg) then store.inMemoryToken else None, CryptoRandomId(source))
  {
    var token := None;
    if WantsAuth(cfg) {
      token := store.GetAuthToken(readFails);
    }
    var requestId := CryptoRandomId(source);
    out := Decorate(cfg, token, requestId);
  }
}
