/** internal/client/dto: the records the client exchanges with the server
    and the conversions between them and the edit form. */
module ClientDto {
  import opened Values
  import opened RecordForm

  /** dto.User: what login and registration return. */
  datatype User = User(id: string, login: string, token: string)

  /** dto.ClientRecord: a record as the server returns it. */
  datatype ClientRecord = ClientRecord(
    id: string,
    meta: string,
    info: map<string, Value>,
    version: int,
    updatedAt: int,
    dataType: string,
    userID: string)

  /** dto.ServerRecord: a record as the client sends it. */
  datatype ServerRecord = ServerRecord(
    id: string,
    meta: string,
    info: map<string, Value>,
    dataType: string)

  /** The payload keys each data type carries; none for an unknown type. */
  function InfoKeys(dataType: string): set<string> {
    if dataType == CREDENTIALS then {"login", "password"}
    else if dataType == CREDIT then {"number", "cvv", "expire"}
    else if dataType == TEXT then {"text"}
    else if dataType == BINARY then {"filePath", "binary"}
    else {}
  }

  /** ConvertToServerRecord: the identity fields are copied and the payload
      holds exactly the keys of the record's type, each with the form's
      value for it. */
  function ConvertToServerRecord(rec: RecordValues): (v: ServerRecord)
    ensures v.id == rec.id && v.meta == rec.meta && v.dataType == rec.dataType
    ensures v.info.Keys == InfoKeys(rec.dataType)
    ensures rec.dataType == CREDENTIALS ==>
      v.info["login"] == Str(rec.login) && v.info["password"] == Str(rec.password)
    ensures rec.dataType == CREDIT ==>
      v.info["number"] == Str(rec.number) && v.info["cvv"] == Str(rec.cvv) && v.info["expire"] == Str(rec.expire)
    ensures rec.dataType == TEXT ==> v.info["text"] == Str(rec.text)
    ensures rec.dataType == BINARY ==>
      v.info["filePath"] == Str(rec.filePath) && v.info["binary"] == Bytes(rec.binary)
  {
    var info: map<string, Value> :=
      if rec.dataType == CREDENTIALS then
        map["login" := Str(rec.login), "password" := Str(rec.password)]
      else if rec.dataType == CREDIT then
        map["number" := Str(rec.number), "cvv" := Str(rec.cvv), "expire" := Str(rec.expire)]
      else if rec.dataType == TEXT then
        map["text" := Str(rec.text)]
      else if rec.dataType == BINARY then
        map["filePath" := Str(rec.filePath), "binary" := Bytes(rec.binary)]
      else
        map[];
    ServerRecord(rec.id, rec.meta, info, rec.dataType)
  }

  /** The local convertToString of ConvertToFormValues: a string-valued key
      gives its string, a missing or non-string key gives "". */
  function ConvertToString(info: map<string, Value>, key: string): (s: string)
    ensures key in info && info[key].Str? ==> s == info[key].s
    ensures key !in info || !info[key].Str? ==> s == ""
  {
    if key in info && info[key].Str? then info[key].s else ""
  }

  /** ConvertToFormValues: the identity fields are copied, the fields of the
      record's type are read from the payload, and every other field stays
      empty. The file path is never restored, and the file content only when
      the payload holds raw bytes under "binary". */
  function ConvertToFormValues(rec: ClientRecord): (v: RecordValues)
    ensures v.id == rec.id && v.dataType == rec.dataType && v.meta == rec.meta
    ensures v.filePath == ""
    ensures rec.dataType == CREDENTIALS ==>
      v.login == ConvertToString(rec.info, "login") && v.password == ConvertToString(rec.info, "password")
    ensures rec.dataType == CREDIT ==>
      v.number == ConvertToString(rec.info, "number") && v.cvv == ConvertToString(rec.info, "cvv")
      && v.expire == ConvertToString(rec.info, "expire")
    ensures rec.dataType == TEXT ==> v.text == ConvertToString(rec.info, "text")
    ensures rec.dataType != CREDENTIALS ==> v.login == "" && v.password == ""
    ensures rec.dataType != CREDIT ==> v.number == "" && v.cvv == "" && v.expire == ""
    ensures rec.dataType != TEXT ==> v.text == ""
    ensures rec.dataType != BINARY ==> v.binary == []
    ensures rec.dataType == BINARY && "binary" in rec.info && rec.info["binary"].Bytes? ==>
              v.binary == rec.info["binary"].b
    ensures rec.dataType == BINARY && ("binary" !in rec.info || !rec.info["binary"].Bytes?) ==>
              v.binary == []
  {
    var blank := RecordValues(rec.id, rec.meta, rec.dataType, "", "", "", "", "", "", "", []);
    if rec.dataType == CREDENTIALS then
      blank.(login := ConvertToString(rec.info, "login"),
             password := ConvertToString(rec.info, "password"))
    else if rec.dataType == CREDIT then
      blank.(number := ConvertToString(rec.info, "number"),
             cvv := ConvertToString(rec.info, "cvv"),
             expire := ConvertToString(rec.info, "expire"))
    else if rec.dataType == TEXT then
      blank.(text := ConvertToString(rec.info, "text"))
    else if rec.dataType == BINARY then
      if "binary" in rec.info && rec.info["binary"].Bytes? then blank.(binary := rec.info["binary"].b)
      else blank
    else
      blank
  }

  /** The form values of `v` with every field outside its data type blanked:
      what a form can get back after a trip through the server. */
  function OwnFields(v: RecordValues): RecordValues {
    var blank := RecordValues(v.id, v.meta, v.dataType, "", "", "", "", "", "", "", []);
    if v.dataType == CREDENTIALS then blank.(login := v.login, password := v.password)
    else if v.dataType == CREDIT then blank.(number := v.number, cvv := v.cvv, expire := v.expire)
    else if v.dataType == TEXT then blank.(text := v.text)
    else if v.dataType == BINARY then blank.(filePath := v.filePath, binary := v.binary)
    else blank
  }

  /** The record the server lists after storing `s` unchanged. */
  function Stored(s: ServerRecord, version: int, updatedAt: int, owner: string): ClientRecord {
    ClientRecord(s.id, s.meta, s.info, version, updatedAt, s.dataType, owner)
  }

  /** Round trip for the string-only types: form -> server record -> form
      restores every field of the record's type. */
  lemma FormRoundTrip(v: RecordValues, version: int, updatedAt: int, owner: string)
    requires v.dataType in {CREDENTIALS, CREDIT, TEXT}
    ensures ConvertToFormValues(Stored(ConvertToServerRecord(v), version, updatedAt, owner)) == OwnFields(v)
  {
  }

  /** For a file record the content survives the round trip (while the
      payload still holds raw bytes) but the file path does not. */
  lemma BinaryRoundTrip(v: RecordValues, version: int, updatedAt: int, owner: string)
    requires v.dataType == BINARY
    ensures var back := ConvertToFormValues(Stored(ConvertToServerRecord(v), version, updatedAt, owner));
      back == OwnFields(v).(filePath := "") && back.binary == v.binary
  {
  }

  /** A record of unknown type goes out with an empty payload and comes back
      with every typed field empty. */
  lemma UnknownTypeRoundTrip(v: RecordValues, version: int, updatedAt: int, owner: string)
    requires v.dataType !in DataTypes
    ensures ConvertToServerRecord(v).info == map[]
    ensures ConvertToFormValues(Stored(ConvertToServerRecord(v), version, updatedAt, owner)) == OwnFields(v)
  {
  }
}
