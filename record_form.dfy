/** pkg/client/component/record_form: the form values a record is edited
    in, the list of data types the type dropdown offers, and the index the
    dropdown starts on. */
module RecordForm {
  import opened Values

  // The data-type names. Their declaring file is not part of this model;
  // they are taken to be the same four strings the server's record package
  // defines.
  const CREDENTIALS: string := "CREDENTIALS"
  const TEXT: string := "TEXT"
  const CREDIT: string := "CREDIT"
  const BINARY: string := "BINARY"

  /** The dropdown's options, in order. */
  const DataTypes: seq<string> := [CREDENTIALS, TEXT, CREDIT, BINARY]

  /** recordform.RecordValues: every field of every data type, flattened. */
  datatype RecordValues = RecordValues(
    id: string,
    meta: string,
    dataType: string,
    login: string,
    password: string,
    text: string,
    number: string,
    cvv: string,
    expire: string,
    filePath: string,
    binary: seq<byte>)

  /** getSelectedIndex: the dropdown position of a data type; anything that
      is not one of the four (the empty string included) selects the first. */
  function GetSelectedIndex(dataType: string): (i: nat)
    ensures i < |DataTypes|
    ensures dataType in DataTypes ==> DataTypes[i] == dataType
    ensures dataType !in DataTypes ==> i == 0
  {
    if |dataType| == 0 then 0
    else if dataType == CREDENTIALS then 0
    else if dataType == TEXT then 1
    else if dataType == CREDIT then 2
    else if dataType == BINARY then 3
    else 0
  }

  /** The four names are distinct, so the dropdown index of each option is
      its own position: GetSelectedIndex is a left inverse of indexing. */
  lemma SelectedIndexInverse(i: nat)
    requires i < |DataTypes|
    ensures GetSelectedIndex(DataTypes[i]) == i
  {
  }

  /** A record without a data type (a new one) starts on the first option. */
  lemma EmptyTypeSelectsFirst()
    ensures GetSelectedIndex("") == 0 && DataTypes[GetSelectedIndex("")] == CREDENTIALS
  {
  }
}
