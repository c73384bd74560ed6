/** `create_table`: a named table whose columns are the schema's derived columns. */
module Tables {
  import opened Wrappers
  import opened Schema

  /** A table definition: its name and its ordered columns. */
  datatype Table = Table(name: string, columns: seq<Column>)

  /**
   * `create_table(schema, table_name)`: the table carries the given name and
   * exactly the columns `schema_to_columns` derives, one per property and in
   * property order; a KeyError from the column walk escapes unchanged and no
   * table is built.
   */
  function CreateTable(props: seq<Property>, tableName: string): (r: Result<Table, KeyError>)
    ensures r.Success? <==> forall i :: 0 <= i < |props| ==> Mappable(props[i])
    ensures r.Success? ==> r.value.name == tableName && SchemaToColumns(props) == Success(r.value.columns)
    ensures r.Success? ==> |r.value.columns| == |props|
    ensures r.Success? ==> forall i :: 0 <= i < |props| ==> r.value.columns[i].name == props[i].name
    ensures r.Failure? ==> SchemaToColumns(props) == Failure(r.error)
  {
    var cols :- SchemaToColumns(props);
    ColumnNamesFollowKeys(props);
    Success(Table(tableName, cols))
  }
}
