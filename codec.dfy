/** The authenticated-encryption codec of internal/secure: gob-serialise a
    value, then seal it with AES-256-GCM under SHA-256(passphrase).

    The model is symbolic. SHA-256 is taken to be collision free, so the key
    is identified with the passphrase it was derived from. The nonce is the
    tail of that same hash, so it is a function of the passphrase alone and
    every sealing under one passphrase reuses it. A blob records the key it
    was sealed under and the plaintext; it stands for every ciphertext of
    every gob encoding of that plaintext (gob writes a map's entries in
    iteration order, so the bytes can differ between calls). Only `Open`
    with the same key gets the plaintext back, every other key fails
    authentication. */
module Codec {
  import opened Errors
  import opened Wrappers

  /** The 256-bit AES key, SHA-256 of the passphrase. */
  datatype Key = Key(passphrase: string)

  function DeriveKey(passphrase: string): (k: Key)
    ensures k.passphrase == passphrase
  {
    Key(passphrase)
  }

  /** Distinct passphrases give distinct keys. This is the modelling
      assumption that SHA-256 is collision free, made explicit: it holds by
      construction, since a key is identified with its passphrase. */
  lemma DeriveKeyInjective(p1: string, p2: string)
    ensures DeriveKey(p1) == DeriveKey(p2) <==> p1 == p2
  {
  }

  /** An AES-GCM ciphertext with its tag, over the gob encoding of a `T`. */
  datatype Blob<T> = Blob(key: Key, plaintext: T)

  /** Encoder.Encode: serialise, then seal under the derived key and the
      key-derived nonce. The result stands for the ciphertext of any one of
      the value's gob encodings. */
  function Seal<T>(v: T, passphrase: string): (b: Blob<T>)
    ensures b.key == DeriveKey(passphrase)
  {
    Blob(DeriveKey(passphrase), v)
  }

  /** Decoder.Decode: open the blob and deserialise; a tag mismatch is a
      CryptoError. */
  function Open<T>(b: Blob<T>, passphrase: string): (r: Result<T>)
    ensures r.Ok? <==> b.key == DeriveKey(passphrase)
    ensures r.Err? ==> r.error == CryptoError
  {
    if b.key == DeriveKey(passphrase) then Ok(b.plaintext) else Err(CryptoError)
  }

  /** Decoding what was encoded under the same passphrase yields the value. */
  lemma RoundTrip<T>(v: T, passphrase: string)
    ensures Open(Seal(v, passphrase), passphrase) == Ok(v)
  {
  }

  /** A blob sealed under one passphrase does not open under another. */
  lemma WrongKeyRejected<T>(v: T, p1: string, p2: string)
    requires p1 != p2
    ensures Open(Seal(v, p1), p2) == Err(CryptoError)
  {
  }
}
