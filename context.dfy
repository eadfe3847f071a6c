/**
 * What the per-class value encodings need from outside the model: the
 * registry snapshot, the installed backend functions, and the library and
 * cross-revision code they call but that is not part of this model.
 */
module Context {
  import opened Wrappers
  import opened Json
  import opened Errors
  import opened Classes
  import opened Registry

  /**
   * Code the encodings call that is not part of this model:
   * - `serialise` / `deserialise`: wai.common's IntSerialiser, FloatSerialiser and BoolSerialiser;
   * - `jsonLoads`: Python's `json.loads`;
   * - `listAllJson`, `filteredJson`, `valueByName`: the server-resident type's
   *   `list_all_json_values`, `get_filtered_list_of_json_values` and
   *   `get_python_value_by_name`, which the server-resident base class does not define.
   */
  datatype Foreign = Foreign(
    fs: FloatSyntax,
    serialise: (Kind, Value) -> Res<seq<byte>>,
    deserialise: (Kind, seq<byte>) -> Res<Value>,
    jsonLoads: string -> Res<Value>,
    listAllJson: TypeArg -> Res<seq<Value>>,
    filteredJson: (TypeArg, Rule) -> Res<seq<Value>>,
    valueByName: (TypeArg, string) -> Res<Value>)

  /**
   * `from_raw_json`, `to_raw_json` and `get_json_validation_schema` of a
   * specialised pretrained-model instance class, a record class of the
   * record machinery that is not part of this model.
   */
  datatype InstanceClass = InstanceClass(
    fromRaw: (TypeArg, Value) -> Res<Value>,
    toRaw: (TypeArg, Value) -> Res<Value>,
    schema: TypeArg -> Res<Schema>)

  datatype Ctx = Ctx(tables: Tables, backend: Backend, foreign: Foreign)
}
