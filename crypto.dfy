/**
 * The symmetric encryptor (EncryptorService) seen from its callers: an
 * authenticated encryption whose algorithm is not modelled. Its two
 * operations are injected as functions; the law the callers rely on, that
 * decrypting an encryption gives the plaintext back, is stated as a
 * predicate that lemmas take as a hypothesis.
 */
module Crypto {
  /** `encrypt`: the token, or the InvalidSignature / InvalidMessage error the
      message encryptor may raise. */
  datatype EncryptOutcome = Encrypted(token: string) | EncryptRejected(message: string)

  /** `decrypt`: the plaintext; a signature or message error of the message
      encryptor (a tampered or foreign token); or any other failure, such as
      input that is not URL-safe Base64. */
  datatype DecryptOutcome =
    | Decrypted(plain: string)
    | DecryptRejected(message: string)
    | DecodeFailed(message: string)

  datatype Encryptor = Encryptor(encrypt: string -> EncryptOutcome, decrypt: string -> DecryptOutcome)

  /** The round trip on one plaintext: if it encrypts, the token decrypts to it. */
  predicate RoundTripsOn(e: Encryptor, plain: string) {
    e.encrypt(plain).Encrypted? ==> e.decrypt(e.encrypt(plain).token) == Decrypted(plain)
  }

  /** Integrity on one token: it decrypts only if it is the encryption of what
      it decrypts to, so an altered token is rejected. */
  predicate AuthenticOn(e: Encryptor, token: string) {
    e.decrypt(token).Decrypted? ==> e.encrypt(e.decrypt(token).plain) == Encrypted(token)
  }
}
