/**
 * The fixed table from JSON-schema type names to column types
 * (`TYPE_MAPPING` in src/llama/main.py and src/marvin/main.py).
 */
module TypeMapping {
  import opened Wrappers

  /** Column types a generated table can carry; `String(length)` is bounded text. */
  datatype ColumnType = Integer | String(length: nat) | Numeric | Boolean

  /** The declared bound of every text column. Nothing checks values against it. */
  const TextLength: nat := 16

  /** The closed, four-entry mapping. There is no date/time entry. */
  const TypeTable: map<string, ColumnType> :=
    map["integer" := Integer, "string" := String(TextLength), "number" := Numeric, "boolean" := Boolean]

  /** The JSON-schema type names the table knows. */
  const KnownTypeNames: set<string> := TypeTable.Keys

  /**
   * `TYPE_MAPPING[typeName]`: the column type for a JSON-schema type name,
   * or None exactly where the dictionary lookup raises.
   */
  function Lookup(typeName: string): (r: Option<ColumnType>)
    ensures r.Some? <==> typeName in {"integer", "string", "number", "boolean"}
    ensures r.Some? ==> r.value in TypeTable.Values
    ensures typeName == "integer" ==> r == Some(Integer)
    ensures typeName == "string" ==> r == Some(String(TextLength))
    ensures typeName == "number" ==> r == Some(Numeric)
    ensures typeName == "boolean" ==> r == Some(Boolean)
  {
    if typeName in TypeTable then Some(TypeTable[typeName]) else None
  }

  /**
   * The inverse of the mapping: the type name that yields a column type,
   * None for a column type outside the mapping's range (any `String(n)` with
   * n other than `TextLength`).
   */
  function TypeNameOf(t: ColumnType): (r: Option<string>)
    ensures r.Some? <==> t in TypeTable.Values
    ensures r.Some? ==> r.value in KnownTypeNames
  {
    match t
    case Integer => assert TypeTable["integer"] == t; Some("integer")
    case String(n) =>
      if n == TextLength then assert TypeTable["string"] == t; Some("string") else None
    case Numeric => assert TypeTable["number"] == t; Some("number")
    case Boolean => assert TypeTable["boolean"] == t; Some("boolean")
  }

  /** The mapping is injective: its inverse recovers the type name, and only that one. */
  lemma LookupInverse(typeName: string, t: ColumnType)
    ensures Lookup(typeName) == Some(t) <==> TypeNameOf(t) == Some(typeName)
  {
    if Lookup(typeName) == Some(t) {
      assert typeName in KnownTypeNames;
    }
  }

  /** Every text column the mapping can produce is bounded at `TextLength`. */
  lemma TextColumnsBounded(typeName: string)
    ensures Lookup(typeName).Some? && Lookup(typeName).value.String? ==>
              typeName == "string" && Lookup(typeName).value.length == TextLength
  {
  }
}
