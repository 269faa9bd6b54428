/** The values the handler builds: the parameter objects of its DynamoDB
    calls, the success payloads of each operation and the HTTP response
    envelope around them. */
module Envelope {
  import opened JsValues
  import opened Routing

  /** An HTTP response. `body` holds the value handed to `JSON.stringify`;
      the serialization itself is not modelled. */
  datatype Response = Response(statusCode: int, headers: map<string, string>, body: Json)

  /** How the handler's promise settles: with a response, with `undefined`
      (a store call failed and the error was only logged), or by throwing. */
  datatype Outcome = Resolved(response: Response) | ResolvedUndefined | Rejected

  const ContentType := "Content-Type"
  const ApplicationJson := "application/json"

  /** The envelope every response shares. */
  function BuildResponse(statusCode: int, body: Json): (r: Response)
    ensures r.statusCode == statusCode
    ensures r.headers.Keys == {ContentType} && r.headers[ContentType] == ApplicationJson
    ensures r.body == body
  {
    Response(statusCode, map[ContentType := ApplicationJson], body)
  }

  /** The property under which the list of a collection is returned. */
  function ListField(c: Collection): string {
    match c
    case GiftCards => "giftCards"
    case PromoCodes => "promoCodes"
  }

  /** The success payload of a save: the saved record echoed back. */
  function SaveBody(item: Json): (r: Json)
    ensures r.Obj? && r.fields.Keys == {"Operation", "Message", "Item"}
    ensures Field(r, "Operation") == Str("SAVE") && Field(r, "Message") == Str("SUCCESS")
    ensures Field(r, "Item") == item
  {
    Obj(map["Operation" := Str("SAVE"), "Message" := Str("SUCCESS"), "Item" := item])
  }

  /** The success payload of a delete: the store's whole response. */
  function DeleteBody(response: Json): (r: Json)
    ensures r.Obj? && r.fields.Keys == {"Operation", "Message", "Item"}
    ensures Field(r, "Operation") == Str("DELETE") && Field(r, "Message") == Str("SUCCESS")
    ensures Field(r, "Item") == response
  {
    Obj(map["Operation" := Str("DELETE"), "Message" := Str("SUCCESS"), "Item" := response])
  }

  /** The success payload of an update: the store's whole response. */
  function UpdateBody(response: Json): (r: Json)
    ensures r.Obj? && r.fields.Keys == {"Operation", "Message", "UpdatedAttributes"}
    ensures Field(r, "Operation") == Str("UPDATE") && Field(r, "Message") == Str("SUCCESS")
    ensures Field(r, "UpdatedAttributes") == response
  {
    Obj(map["Operation" := Str("UPDATE"), "Message" := Str("SUCCESS"), "UpdatedAttributes" := response])
  }

  /** The payload of a listing: the scanned records under the collection's
      list property, `undefined` there when the scan failed. */
  function ListBody(c: Collection, records: Option<seq<Json>>): (r: Json)
    ensures r.Obj? && r.fields.Keys == {ListField(c)}
    ensures records.Some? ==> Field(r, ListField(c)) == Arr(records.value)
    ensures records.None? ==> Field(r, ListField(c)) == Undefined
  {
    Obj(map[ListField(c) := if records.Some? then Arr(records.value) else Undefined])
  }

  /** The DynamoDB key of a record: its `id` attribute. */
  function KeyOf(id: Json): Json {
    Obj(map["id" := id])
  }

  function GetParams(c: Collection, id: Json): Json {
    Obj(map["TableName" := Str(TableName(c)), "Key" := KeyOf(id)])
  }

  function ScanParams(c: Collection): Json {
    Obj(map["TableName" := Str(TableName(c))])
  }

  function PutParams(c: Collection, item: Json): Json {
    Obj(map["TableName" := Str(TableName(c)), "Item" := item])
  }

  function DeleteParams(c: Collection, id: Json): Json {
    Obj(map["TableName" := Str(TableName(c)), "Key" := KeyOf(id), "ReturnValues" := Str("ALL_OLD")])
  }

  const UpdatePrefix := "set "
  const UpdateSuffix := " = :value"

  /** The update expression `set ${updateKey} = :value`: the attribute name
      is spliced into the expression text, not passed as a placeholder.
      Converting `updateKey` may throw, and then no expression is built. */
  function UpdateExpression(updateKey: Json): (r: Result<string>)
    ensures r.Ok? <==> Stringifiable(updateKey)
  {
    match ToString(updateKey)
    case Thrown => Thrown
    case Ok(name) => Ok(UpdatePrefix + name + UpdateSuffix)
  }

  /** The parameters of an update call; building them throws when the
      expression does. */
  function UpdateParams(c: Collection, id: Json, updateKey: Json, updateValue: Json): Result<Json> {
    match UpdateExpression(updateKey)
    case Thrown => Thrown
    case Ok(expression) =>
      Ok(Obj(map[
        "TableName" := Str(TableName(c)),
        "Key" := KeyOf(id),
        "UpdateExpression" := Str(expression),
        "ExpressionAttributeValues" := Obj(map[":value" := updateValue]),
        "ReturnValues" := Str("UPDATED_NEW")]))
  }

  /** The text between `set ` and ` = :value` of an expression of that form. */
  function AssignedAttribute(expression: string): Option<string> {
    if |expression| >= |UpdatePrefix| + |UpdateSuffix|
      && expression[..|UpdatePrefix|] == UpdatePrefix
      && expression[|expression| - |UpdateSuffix|..] == UpdateSuffix
    then Some(expression[|UpdatePrefix|..|expression| - |UpdateSuffix|])
    else None
  }

  /** When `updateKey` converts, the update expression carries its string
      form, verbatim, between the fixed prefix and suffix; no character of
      the key is escaped, so a key containing `= :value, ...` assigns further
      attributes. */
  lemma UpdateExpressionSplicesKey(updateKey: Json)
    requires Stringifiable(updateKey)
    ensures AssignedAttribute(UpdateExpression(updateKey).value) == Some(ToString(updateKey).value)
  {
    var e := UpdateExpression(updateKey).value;
    assert e[..|UpdatePrefix|] == UpdatePrefix;
    assert e[|e| - |UpdateSuffix|..] == UpdateSuffix;
    assert e[|UpdatePrefix|..|e| - |UpdateSuffix|] == ToString(updateKey).value;
  }

  /** Building the update call's parameters throws exactly when converting
      `updateKey` does; otherwise the call names the table and the record by
      `id`, assigns the converted key, binds `:value` to the new value and
      asks for the updated attributes. */
  lemma UpdateParamsShape(c: Collection, id: Json, updateKey: Json, updateValue: Json)
    ensures UpdateParams(c, id, updateKey, updateValue).Thrown? <==> !Stringifiable(updateKey)
    ensures Stringifiable(updateKey) ==>
      var p := UpdateParams(c, id, updateKey, updateValue).value;
      && Field(p, "TableName") == Str(TableName(c))
      && Field(Field(p, "Key"), "id") == id
      && Field(p, "UpdateExpression") == Str("set " + ToString(updateKey).value + " = :value")
      && Field(Field(p, "ExpressionAttributeValues"), ":value") == updateValue
      && Field(p, "ReturnValues") == Str("UPDATED_NEW")
  {
  }
}
