/** internal/server/domain/record/datacrypt: the server seals each record's
    typed payload, flattened to a key/value map, under one server-wide
    secret, and keeps the record's meta in plain text beside it. */
module Datacrypt {
  import opened Errors
  import opened Wrappers
  import opened Values
  import opened Codec
  import RecordForm
  import ClientDto

  /** The payload of a record, after decryption. */
  type Content = map<string, Value>

  /** The dynamic type of what the HTTP layer hands to Encrypt: one of the
      four record DTOs, or anything else (named by its type). */
  datatype Model =
    | Credentials(meta: string, login: string, password: string)
    | CreditCard(meta: string, number: string, cvv: string, expire: string)
    | Text(meta: string, text: string)
    | BinaryFile(meta: string, data: seq<byte>, filePath: string)
    | Unsupported(typeName: string)

  /** The data-type tag of each known DTO, as the record constants name it. */
  function TypeTag(m: Model): (t: string)
    requires !m.Unsupported?
    ensures t in RecordForm.DataTypes
  {
    match m
    case Credentials(_, _, _) => RecordForm.CREDENTIALS
    case CreditCard(_, _, _, _) => RecordForm.CREDIT
    case Text(_, _) => RecordForm.TEXT
    case BinaryFile(_, _, _) => RecordForm.BINARY
  }

  /** The field map a known DTO is flattened to before sealing. */
  function Flatten(m: Model): (c: Content)
    requires !m.Unsupported?
    ensures c.Keys == ClientDto.InfoKeys(TypeTag(m))
  {
    match m
    case Credentials(_, login, password) => map["login" := Str(login), "password" := Str(password)]
    case CreditCard(_, number, cvv, expire) => map["number" := Str(number), "cvv" := Str(cvv), "expire" := Str(expire)]
    case Text(_, text) => map["text" := Str(text)]
    case BinaryFile(_, data, filePath) => map["binary" := Bytes(data), "filePath" := Str(filePath)]
  }

  /** Every field of the DTO is recoverable from its flattened map. */
  lemma FlattenInjective(m1: Model, m2: Model)
    requires !m1.Unsupported? && !m2.Unsupported?
    requires TypeTag(m1) == TypeTag(m2) && m1.meta == m2.meta
    ensures Flatten(m1) == Flatten(m2) <==> m1 == m2
  {
    if Flatten(m1) == Flatten(m2) {
      match m1
      case Credentials(_, _, _) =>
        assert Flatten(m1)["login"] == Flatten(m2)["login"];
        assert Flatten(m1)["password"] == Flatten(m2)["password"];
      case CreditCard(_, _, _, _) =>
        assert Flatten(m1)["number"] == Flatten(m2)["number"];
        assert Flatten(m1)["cvv"] == Flatten(m2)["cvv"];
        assert Flatten(m1)["expire"] == Flatten(m2)["expire"];
      case Text(_, _) =>
        assert Flatten(m1)["text"] == Flatten(m2)["text"];
      case BinaryFile(_, _, _) =>
        assert Flatten(m1)["binary"] == Flatten(m2)["binary"];
        assert Flatten(m1)["filePath"] == Flatten(m2)["filePath"];
    }
  }

  /** dataCrypt: the one secret of the server. */
  datatype Crypter = Crypter(secret: string)

  /** New. */
  function New(secret: string): (c: Crypter)
    ensures c.secret == secret
  {
    Crypter(secret)
  }

  /** What Encrypt returns: the sealed payload and the plain meta. */
  datatype Sealed = Sealed(content: Blob<Content>, meta: string)

  /** Encrypt: an unknown type is refused; a known one comes back as its
      flattened fields, readable under the crypter's secret and no other,
      and its meta in the clear. */
  function Encrypt(c: Crypter, m: Model): (r: Result<Sealed>)
    ensures r.Err? <==> m.Unsupported?
    ensures r.Err? ==> r.error == UndefinedType
    ensures r.Ok? ==> r.value.meta == m.meta
    ensures r.Ok? ==> Open(r.value.content, c.secret) == Ok(Flatten(m))
    ensures r.Ok? ==> forall p :: p != c.secret ==> Open(r.value.content, p).Err?
  {
    if m.Unsupported? then Err(UndefinedType)
    else Ok(Sealed(Seal(Flatten(m), c.secret), m.meta))
  }

  /** Decrypt: open a stored payload under the secret. */
  function Decrypt(c: Crypter, stored: Blob<Content>): (r: Result<Content>)
    ensures r.Ok? <==> stored.key == DeriveKey(c.secret)
    ensures r.Ok? ==> r.value == stored.plaintext
    ensures r.Err? ==> r.error == CryptoError
  {
    Open(stored, c.secret)
  }

  /** Decrypt undoes Encrypt: it gives back exactly the flattened fields. */
  lemma DecryptEncrypt(c: Crypter, m: Model)
    requires !m.Unsupported?
    ensures Encrypt(c, m).Ok?
    ensures Decrypt(c, Encrypt(c, m).value.content) == Ok(Flatten(m))
  {
  }

  /** A server with another secret cannot read the payload. */
  lemma OtherSecretRejected(c: Crypter, other: Crypter, m: Model)
    requires !m.Unsupported? && other.secret != c.secret
    ensures Decrypt(other, Encrypt(c, m).value.content) == Err(CryptoError)
  {
  }

  /** The key (and with it the nonce) does not depend on the record: all
      payloads of one server are sealed under the same key. A TEXT payload
      is a one-entry map, whose gob encoding is unique, so equal TEXT DTOs
      give equal ciphertexts; the maps of the other types have two or three
      entries, which gob writes in no fixed order. */
  lemma OneKeyForAll(c: Crypter, m1: Model, m2: Model)
    requires !m1.Unsupported? && !m2.Unsupported?
    ensures Encrypt(c, m1).value.content.key == Encrypt(c, m2).value.content.key
    ensures m1.Text? && m1 == m2 ==> Encrypt(c, m1) == Encrypt(c, m2)
  {
  }
}
