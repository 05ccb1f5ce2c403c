/**
 * The payload codec of lib/encryption.ts: key and IV derivation from the
 * environment, `encrypt`/`decrypt` around the cipher, and `isValidPayload`.
 *
 * AES-256-CBC with PKCS#7 padding, hex encoding and JSON text are foreign
 * code; they are a `Cipher` value of four functions, and the laws the model
 * relies on are the predicate `Lawful`, taken as a precondition.
 */
module Encryption {
  import opened Wrappers
  import opened Types
  import Text

  const KeyLength: nat := 32
  const IvLength: nat := 16
  const DefaultKey: string := "your_32_character_encryption_key_change_this"
  const DefaultIv: string := "your_16_char_iv"
  const DecryptError: string := "Invalid QR code data"
  const EncryptError: string := "Encryption failed"

  /** The process environment: ENCRYPTION_KEY and ENCRYPTION_IV, `None` when unset. */
  datatype Env = Env(key: Option<string>, iv: Option<string>)

  /** Key and IV as handed to the cipher (the strings before `Buffer.from`). */
  datatype EncryptionConfig = EncryptionConfig(key: string, iv: string)

  function Zeros(n: nat): (r: string)
    ensures |r| == n && forall i :: 0 <= i < n ==> r[i] == '0'
  {
    seq(n, _ => '0')
  }

  /** `s.padEnd(n, '0').slice(0, n)`. */
  function Coerce(s: string, n: nat): (r: string)
    ensures |r| == n
    ensures |s| <= n ==> r == s + Zeros(n - |s|)
    ensures |s| >= n ==> r == s[..n]
  {
    var padded := if |s| < n then s + Zeros(n - |s|) else s;
    padded[..n]
  }

  /** Coercing a value that already has the target length returns it unchanged. */
  lemma CoerceIdempotent(s: string, n: nat)
    ensures Coerce(Coerce(s, n), n) == Coerce(s, n)
  {
  }

  /** `getEncryptionConfig()`. */
  function GetEncryptionConfig(env: Env): (cfg: EncryptionConfig)
    ensures |cfg.key| == KeyLength && |cfg.iv| == IvLength
  {
    EncryptionConfig(
      Coerce(OptionOr(env.key, DefaultKey), KeyLength),
      Coerce(OptionOr(env.iv, DefaultIv), IvLength))
  }

  /** With neither variable set, the 44-character default key is cut and the 15-character IV padded. */
  lemma DefaultConfig()
    ensures GetEncryptionConfig(Env(None, None)) == EncryptionConfig("your_32_character_encryption_key", "your_16_char_iv0")
    ensures GetEncryptionConfig(Env(Some(""), Some(""))) == GetEncryptionConfig(Env(None, None))
  {
    assert |DefaultKey| == 44 && |DefaultIv| == 15;
    assert DefaultKey[..32] == "your_32_character_encryption_key";
    assert DefaultIv + Zeros(1) == "your_16_char_iv0";
  }

  /** Number of bytes `Buffer.from(s)` produces: the UTF-8 length of `s`. */
  function Utf8Length(s: string): (n: nat)
    ensures n >= |s|
  {
    if s == [] then 0
    else
      var c := s[0] as int;
      (if c < 0x80 then 1 else if c < 0x800 then 2 else if c < 0x10000 then 3 else 4) + Utf8Length(s[1..])
  }

  predicate IsAscii(s: string) {
    forall i :: 0 <= i < |s| ==> s[i] as int < 0x80
  }

  /** A string is its own byte count long exactly when it is ASCII. */
  lemma {:induction false} Utf8LengthAscii(s: string)
    ensures Utf8Length(s) == |s| <==> IsAscii(s)
  {
    if s != [] {
      Utf8LengthAscii(s[1..]);
      assert IsAscii(s) <==> s[0] as int < 0x80 && IsAscii(s[1..]) by {
        if s[0] as int < 0x80 && IsAscii(s[1..]) {
          forall i | 0 <= i < |s| ensures s[i] as int < 0x80 {
            if i > 0 { assert s[i] == s[1..][i - 1]; }
          }
        }
      }
    }
  }

  /** The key and IV have the byte lengths AES-256-CBC accepts. */
  predicate ValidKeyMaterial(cfg: EncryptionConfig) {
    Utf8Length(cfg.key) == KeyLength && Utf8Length(cfg.iv) == IvLength
  }

  /** The derived key material is accepted exactly when the coerced key and IV are ASCII. */
  lemma KeyMaterialAscii(env: Env)
    ensures ValidKeyMaterial(GetEncryptionConfig(env)) <==>
      IsAscii(GetEncryptionConfig(env).key) && IsAscii(GetEncryptionConfig(env).iv)
  {
    var cfg := GetEncryptionConfig(env);
    Utf8LengthAscii(cfg.key);
    Utf8LengthAscii(cfg.iv);
  }

  /**
   * The foreign codec: `encipher` is createCipheriv + update + final to hex,
   * `decipher` the reverse from hex (`None` for bad hex, a refused key or bad
   * padding), `stringify` and `parse` are JSON.stringify and JSON.parse.
   */
  datatype Cipher = Cipher(
    encipher: (EncryptionConfig, string) -> Option<string>,
    decipher: (EncryptionConfig, string) -> Option<string>,
    stringify: Json -> string,
    parse: string -> Option<Json>)

  /**
   * The laws of the foreign codec: the cipher refuses key material of the
   * wrong byte length; otherwise enciphering yields a non-empty hex string
   * (CBC output is at least one block) and deciphering undoes it under the
   * same configuration; parsing undoes stringifying.
   */
  ghost predicate Lawful(c: Cipher) {
    && (forall cfg, text :: !ValidKeyMaterial(cfg) ==> c.encipher(cfg, text).None? && c.decipher(cfg, text).None?)
    && (forall cfg, text :: ValidKeyMaterial(cfg) ==>
          && c.encipher(cfg, text).Some?
          && c.encipher(cfg, text).value != ""
          && c.decipher(cfg, c.encipher(cfg, text).value) == Some(text))
    && (forall j :: c.parse(c.stringify(j)) == Some(j))
  }

  /** `encrypt(data)`: any failure becomes the single error "Encryption failed". */
  function Encrypt(env: Env, c: Cipher, data: Json): (r: Result<string, string>)
    ensures r.Err? ==> r.error == EncryptError
  {
    match c.encipher(GetEncryptionConfig(env), c.stringify(data))
    case None => Err(EncryptError)
    case Some(hex) => Ok(hex)
  }

  /**
   * `decrypt(encryptedData)`: a deciphering failure and a JSON parse failure
   * both become the single error "Invalid QR code data".
   */
  function Decrypt(env: Env, c: Cipher, encryptedData: string): (r: Result<Json, string>)
    ensures r.Err? ==> r.error == DecryptError
    ensures r.Err? <==>
      || c.decipher(GetEncryptionConfig(env), encryptedData).None?
      || c.parse(c.decipher(GetEncryptionConfig(env), encryptedData).value).None?
  {
    match c.decipher(GetEncryptionConfig(env), encryptedData)
    case None => Err(DecryptError)
    case Some(text) =>
      match c.parse(text)
      case None => Err(DecryptError)
      case Some(j) => Ok(j)
  }

  /** Under a fixed configuration whose key material the cipher accepts, decrypt undoes encrypt. */
  lemma DecryptEncrypt(env: Env, c: Cipher, data: Json)
    requires Lawful(c)
    requires ValidKeyMaterial(GetEncryptionConfig(env))
    ensures Encrypt(env, c, data).Ok? && Encrypt(env, c, data).value != ""
    ensures Decrypt(env, c, Encrypt(env, c, data).value) == Ok(data)
  {
    var cfg := GetEncryptionConfig(env);
    var text := c.stringify(data);
    assert c.encipher(cfg, text).Some?;
    assert c.decipher(cfg, c.encipher(cfg, text).value) == Some(text);
    assert c.parse(text) == Some(data);
  }

  /** Key material the cipher refuses makes both directions fail, each with its own error. */
  lemma RefusedKeyMaterial(env: Env, c: Cipher, data: Json, encryptedData: string)
    requires Lawful(c)
    requires !ValidKeyMaterial(GetEncryptionConfig(env))
    ensures Encrypt(env, c, data) == Err(EncryptError)
    ensures Decrypt(env, c, encryptedData) == Err(DecryptError)
  {
    var cfg := GetEncryptionConfig(env);
    assert c.encipher(cfg, c.stringify(data)).None?;
    assert c.decipher(cfg, encryptedData).None?;
  }

  /** `typeof v === 'object'`: null, arrays and objects. */
  predicate IsObjectType(v: Json) {
    v.JNull? || v.JArray? || v.JObject?
  }

  /**
   * `key in v` for an object-typed value: an own property. An array's own
   * properties are `length` and its indices; inherited properties are not
   * modelled (none of the keys the payload check asks for is inherited).
   */
  predicate HasProperty(v: Json, key: string)
    requires IsObjectType(v)
  {
    match v
    case JObject(fields) => key in fields
    case JArray(items) => key == "length" || exists i | 0 <= i < |items| :: key == Text.NatToString(i)
    case JNull => false
  }

  /**
   * `isValidPayload(payload)`: on an object, exactly the presence of the
   * three keys, whatever their values; null and primitive values never pass.
   */
  predicate IsValidPayload(v: Json)
    ensures v.JObject? ==> (IsValidPayload(v) <==> "ticket_id" in v.fields && "email" in v.fields && "ts" in v.fields)
    ensures !v.JObject? && !v.JArray? ==> !IsValidPayload(v)
  {
    && v.Truthy()
    && IsObjectType(v)
    && HasProperty(v, "ticket_id")
    && HasProperty(v, "email")
    && HasProperty(v, "ts")
  }

  /**
   * A value passes the payload check exactly when it is an object with the
   * three keys; the values under them are not examined.
   */
  lemma IsValidPayloadIff(v: Json)
    ensures IsValidPayload(v) <==> v.JObject? && "ticket_id" in v.fields && "email" in v.fields && "ts" in v.fields
  {
    if v.JArray? {
      forall i: nat | i < |v.items| ensures "ticket_id" != Text.NatToString(i) {
        var d := Text.NatToString(i);
        assert '0' <= d[0] <= '9';
      }
    }
  }

  /** The JSON object a payload is serialised from. */
  function PayloadJson(p: TicketPayload): Json {
    JObject(map["ticket_id" := JString(p.ticket_id), "email" := JString(p.email), "ts" := JString(p.ts)])
  }

  /** Reads a payload back when the three keys hold strings. */
  function PayloadOf(v: Json): Option<TicketPayload> {
    if v.JObject? && "ticket_id" in v.fields && "email" in v.fields && "ts" in v.fields
      && v.fields["ticket_id"].JString? && v.fields["email"].JString? && v.fields["ts"].JString?
    then Some(TicketPayload(v.fields["ticket_id"].s, v.fields["email"].s, v.fields["ts"].s))
    else None
  }

  /** Every payload's JSON passes the check and reads back as the same payload. */
  lemma PayloadJsonRoundTrip(p: TicketPayload)
    ensures IsValidPayload(PayloadJson(p))
    ensures PayloadOf(PayloadJson(p)) == Some(p)
  {
    IsValidPayloadIff(PayloadJson(p));
  }
}
