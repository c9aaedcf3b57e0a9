/** Names shared by every part of the model. */
module Foundation {

  datatype Option<+T> = None | Some(value: T)

  newtype byte = x: int | 0 <= x < 256

  type Bytes = seq<byte>

  /** The bytes are those of an ASCII text. */
  ghost predicate Spells(bytes: Bytes, text: string) {
    |bytes| == |text| && forall i :: 0 <= i < |text| ==> bytes[i] as int == text[i] as int
  }

  /** An Ed25519 verifying key. A session's remote key and a peer's key are both of this type;
      the model only ever compares and serializes them. */
  datatype Key = Key(raw: Bytes)

  /** A channel or message id: a UUID, given by its bytes. */
  datatype Uuid = Uuid(bytes: Bytes)

  const UUID_LENGTH: nat := 16

  /** `Uuid::from_slice`: exactly 16 bytes make an id. */
  function UuidFromSlice(slice: Bytes): Option<Uuid> {
    if |slice| == UUID_LENGTH then Some(Uuid(slice)) else None
  }

  datatype Signature = Signature(raw: Bytes)

  /** One entry of an ideal signature record: `key` signed `message`, which gave `signature`. */
  datatype Signed = Signed(key: Key, message: Bytes, signature: Signature)

  /** Ideal verification (Ed25519, section 5.1 of RFC 8032): it passes for what is in the record
      and for nothing else. */
  predicate VerifyStrict(ledger: set<Signed>, key: Key, message: Bytes, signature: Signature) {
    Signed(key, message, signature) in ledger
  }
}
