/** Encryption of stored API keys. The Fernet cipher, base64, SHA-256 and
    UTF-8 encoding are not modelled: they are the fields of a `Crypto`
    value, and `Lawful` states the few facts about them the service relies
    on. The configured key is a parameter (an unset key is the empty
    string); the time and random IV that go into a Fernet token are one
    `nonce` parameter. */
module Encryption {
  import opened Base

  newtype byte = x: int | 0 <= x < 256

  datatype Crypto = Crypto(
    utf8: string -> seq<byte>,                   // str.encode()
    b64: seq<byte> -> string,                    // base64.urlsafe_b64encode(...).decode()
    sha256: seq<byte> -> seq<byte>,              // hashlib.sha256(...).digest()
    validKey: string -> bool,                    // Fernet(key) accepts the key
    seal: (string, nat, string) -> string,       // Fernet(key).encrypt(plaintext) under a nonce
    open: (string, string) -> Option<string>)    // Fernet(key).decrypt(token); None for InvalidToken

  /** The facts about the primitives the service relies on: base64 turns n
      bytes into 4 * ceil(n / 3) characters, a SHA-256 digest is 32 bytes,
      ASCII text encodes one byte per character, a base64 encoding of 32
      bytes is a Fernet key, and a token is never empty and opens to the text
      it sealed. */
  ghost predicate Lawful(c: Crypto) {
    && (forall bs :: |c.b64(bs)| == 4 * ((|bs| + 2) / 3))
    && (forall bs :: |c.sha256(bs)| == 32)
    && (forall s :: Ascii(s) ==> |c.utf8(s)| == |s|)
    && (forall bs :: |bs| == 32 ==> c.validKey(c.b64(bs)))
    && (forall k, n, p :: c.seal(k, n, p) != "")
    && (forall k, n, p :: c.validKey(k) ==> c.open(k, c.seal(k, n, p)) == Some(p))
  }

  predicate Ascii(s: string) {
    forall i | 0 <= i < |s| :: s[i] < 128 as char
  }

  const NotConfigured := "ENCRYPTION_KEY not configured"
  const BadFernetKey := "Fernet key must be 32 url-safe base64-encoded bytes."

  /** The key-format branching of `_get_fernet`: a missing key is an error,
      32 characters are taken as raw key bytes and base64-encoded, 44
      characters are taken as an encoded key, anything else is hashed. */
  function NormalizeKey(c: Crypto, key: string): (r: Result<string>)
    ensures key == "" <==> r == Err(NotConfigured)
    ensures r.Ok? && |key| == 44 ==> r.value == key
    ensures r.Ok? && |key| == 32 ==> r.value == c.b64(c.utf8(key))
    ensures r.Ok? && |key| != 32 && |key| != 44 ==> r.value == c.b64(c.sha256(c.utf8(key)))
  {
    if key == "" then Err(NotConfigured)
    else if |key| == 32 then Ok(c.b64(c.utf8(key)))
    else if |key| == 44 then Ok(key)
    else Ok(c.b64(c.sha256(c.utf8(key))))
  }

  /** The normalized key has the 44 characters of an encoded 32-byte Fernet
      key whenever the configured key is set and, if it has 32 characters,
      they are ASCII. */
  lemma NormalizedKeyIsFernetSized(c: Crypto, key: string)
    requires Lawful(c) && key != ""
    requires |key| == 32 ==> Ascii(key)
    ensures NormalizeKey(c, key).Ok? && |NormalizeKey(c, key).value| == 44
  {
    if |key| == 32 {
      assert |c.utf8(key)| == 32;
    } else if |key| != 44 {
      assert |c.sha256(c.utf8(key))| == 32;
    }
  }

  /** Normalization never needs the key to be 44 characters already: except
      for a user-supplied 44-character key, it produces a key Fernet
      accepts. */
  lemma NormalizedKeyIsAccepted(c: Crypto, key: string)
    requires Lawful(c) && key != "" && |key| != 44
    requires |key| == 32 ==> Ascii(key)
    ensures NormalizeKey(c, key).Ok? && c.validKey(NormalizeKey(c, key).value)
  {
    if |key| == 32 {
      assert |c.utf8(key)| == 32;
    } else {
      assert |c.sha256(c.utf8(key))| == 32;
    }
  }

  /** `_get_fernet`: the normalized key, which the `Fernet` constructor
      rejects when it does not decode to 32 bytes. */
  function FernetKey(c: Crypto, key: string): (r: Result<string>)
    ensures r.Ok? <==> NormalizeKey(c, key).Ok? && c.validKey(NormalizeKey(c, key).value)
    ensures r.Ok? ==> r.value == NormalizeKey(c, key).value
    ensures key == "" ==> r == Err(NotConfigured)
  {
    var k :- NormalizeKey(c, key);
    if c.validKey(k) then Ok(k) else Err(BadFernetKey)
  }

  /** `EncryptionService.encrypt`. */
  function Encrypt(c: Crypto, key: string, nonce: nat, plaintext: string): (r: Result<string>)
    ensures plaintext == "" ==> r == Ok("")
    ensures plaintext != "" ==>
      (r.Ok? <==> FernetKey(c, key).Ok?) &&
      (r.Ok? ==> r.value == c.seal(FernetKey(c, key).value, nonce, plaintext))
  {
    if plaintext == "" then Ok("")
    else
      var k :- FernetKey(c, key);
      Ok(c.seal(k, nonce, plaintext))
  }

  /** `EncryptionService.decrypt`: an invalid token reads as "", a missing
      or malformed key still raises. */
  function Decrypt(c: Crypto, key: string, ciphertext: string): (r: Result<string>)
    ensures ciphertext == "" ==> r == Ok("")
    ensures ciphertext != "" ==> (r.Ok? <==> FernetKey(c, key).Ok?)
    ensures ciphertext != "" && r.Ok? && c.open(FernetKey(c, key).value, ciphertext).None? ==> r.value == ""
    ensures ciphertext != "" && r.Ok? && c.open(FernetKey(c, key).value, ciphertext).Some? ==>
              r.value == c.open(FernetKey(c, key).value, ciphertext).value
  {
    if ciphertext == "" then Ok("")
    else
      var k :- FernetKey(c, key);
      match c.open(k, ciphertext)
      case Some(p) => Ok(p)
      case None => Ok("")
  }

  predicate IsAvailable(key: string) {
    key != ""
  }

  /** `encrypt_api_key`: stored as-is when no key is configured. */
  function EncryptApiKey(c: Crypto, key: string, nonce: nat, apiKey: string): (r: Result<string>)
    ensures !IsAvailable(key) ==> r == Ok(apiKey)
    ensures IsAvailable(key) ==> r == Encrypt(c, key, nonce, apiKey)
  {
    if !IsAvailable(key) then Ok(apiKey) else Encrypt(c, key, nonce, apiKey)
  }

  /** `decrypt_api_key`: returned as-is when no key is configured. */
  function DecryptApiKey(c: Crypto, key: string, stored: string): (r: Result<string>)
    ensures !IsAvailable(key) ==> r == Ok(stored)
    ensures IsAvailable(key) ==> r == Decrypt(c, key, stored)
  {
    if !IsAvailable(key) then Ok(stored) else Decrypt(c, key, stored)
  }

  /** Storing and reading back an API key returns it unchanged: with no key
      configured both directions are the identity, and with a usable key the
      cipher's round trip applies (the empty key text short-circuits both
      ways). */
  lemma ApiKeyRoundTrip(c: Crypto, key: string, nonce: nat, apiKey: string)
    requires Lawful(c)
    requires IsAvailable(key) ==> FernetKey(c, key).Ok?
    ensures EncryptApiKey(c, key, nonce, apiKey).Ok?
    ensures DecryptApiKey(c, key, EncryptApiKey(c, key, nonce, apiKey).value) == Ok(apiKey)
  {
    if IsAvailable(key) && apiKey != "" {
      var k := FernetKey(c, key).value;
      assert c.open(k, c.seal(k, nonce, apiKey)) == Some(apiKey);
    }
  }

  /** Neither direction consults the key for the empty text. */
  lemma EmptyTextNeedsNoKey(c: Crypto, key: string, nonce: nat)
    ensures Encrypt(c, key, nonce, "") == Ok("") && Decrypt(c, key, "") == Ok("")
    ensures EncryptApiKey(c, key, nonce, "") == Ok("") && DecryptApiKey(c, key, "") == Ok("")
  {
  }

  // ------------------------------------------------------------------ masking

  /** `'*' * n`. */
  function Stars(n: nat): (r: string)
    ensures |r| == n && forall i | 0 <= i < n :: r[i] == '*'
  {
    if n == 0 then "" else Stars(n - 1) + "*"
  }

  /** `mask_api_key`: "****" for a key shorter than 8 characters, otherwise
      the key with every character but the last four replaced by '*'. */
  function MaskApiKey(key: string): (r: string)
    ensures |key| < 8 ==> r == "****"
    ensures |key| >= 8 ==>
      && |r| == |key|
      && r[|key| - 4..] == key[|key| - 4..]
      && forall i | 0 <= i < |key| - 4 :: r[i] == '*'
  {
    if |key| < 8 then "****"
    else Stars(|key| - 4) + key[|key| - 4..]
  }

  /** The mask reveals the key's length (when it is at least 8) and its last
      four characters and nothing else. */
  lemma MaskRevealsOnlyLengthAndTail(k1: string, k2: string)
    requires (|k1| < 8 && |k2| < 8) || (|k1| == |k2| >= 8 && k1[|k1| - 4..] == k2[|k2| - 4..])
    ensures MaskApiKey(k1) == MaskApiKey(k2)
  {
    if |k1| >= 8 {
      var m1, m2 := MaskApiKey(k1), MaskApiKey(k2);
      assert forall i | 0 <= i < |m1| :: m1[i] == m2[i] by {
        forall i | 0 <= i < |m1| ensures m1[i] == m2[i] {
          if i >= |k1| - 4 {
            assert m1[i] == m1[|k1| - 4..][i - (|k1| - 4)];
            assert m2[i] == m2[|k2| - 4..][i - (|k2| - 4)];
          }
        }
      }
    }
  }

  /** Masking a mask changes nothing. */
  lemma MaskIsIdempotent(key: string)
    ensures MaskApiKey(MaskApiKey(key)) == MaskApiKey(key)
  {
    var m := MaskApiKey(key);
    if |key| >= 8 {
      assert m[|m| - 4..] == key[|key| - 4..];
      MaskRevealsOnlyLengthAndTail(m, key);
    }
  }
}
