/** JSON values. An object keeps its fields in order, each key once. */
module Json {
  import opened AttemptResults

  datatype Value =
    | Null
    | Bool(flag: bool)
    | Number(number: real)
    | Text(text: string)
    | List(items: seq<Value>)
    | Object(fields: seq<Field>)

  datatype Field = Field(key: string, value: Value)

  function Lookup(fields: seq<Field>, key: string): Option<Value> {
    if fields == [] then None
    else if fields[0].key == key then Some(fields[0].value)
    else Lookup(fields[1..], key)
  }
}
