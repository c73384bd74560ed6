# Schema-to-table mapping and row insertion, modelled in Dafny

The TextToSQL scripts turn a pydantic record schema into a SQLAlchemy table and then insert records into it. `src/llama/main.py` (lines 24-85) and `src/marvin/main.py` (lines 19-80) hold the same five definitions line for line, five lines apart. This project models that shared core:

- `TYPE_MAPPING` is a closed table with four entries from JSON-schema type names to column types: `integer → Integer`, `string → String(16)`, `number → Numeric`, `boolean → Boolean`. It is modelled as module `TypeMapping`.
- `schema_to_columns` walks the schema's ordered `"properties"` map. For each property it builds one column named after the key and typed by `TYPE_MAPPING[value["type"]]`. Module `Schema` models it as a pure function returning `Result<seq<Column>, KeyError>`. A property with no `"type"` entry raises `KeyError('type')`. A type name outside the table raises `KeyError(name)`. Either error aborts the whole call, and the error reported is the one for the first failing property.
- `create_table` builds a table from the given name and those columns. It is modelled in module `Tables`.
- `create_row` and `create_rows` are modelled in module `Insertion`. `create_row` runs one begin/execute/commit block on the record dump. `create_rows` calls it on each record in input order, and the first exception stops the loop. The table's contents are a `Store`, which is the table plus its committed rows. Whether the engine commits an insert is a parameter `commits(committedRows, row)`. When a batch ends, a `BatchOutcome` records the resulting store and the index of the row whose exception escaped, if any.
- Module `Invoice` states the scripts' `Invoice` record and demo insertion as lemmas.

The property list is an input to the model. For `Invoice` it is the one JSON-schema generation produces: `int → "integer"`, `str → "string"`, `float → "number"`, `bool → "boolean"`, and `datetime → "string"` with a `"date-time"` format that the walk ignores. As a result the two timestamp fields become `String(16)` columns. The mapping has no date/time entry of its own.

Facts about the code that the model keeps:

- The mapping has no date/time type.
- Nothing checks a text value's length against 16; the bound is only a column attribute.
- `schema_to_columns` accepts an empty property map and returns an empty column list.
- Re-creating a table never reports a conflict.
- `create_rows` stops at the first exception and returns nothing per row.

## Model

| member | source | states |
|---|---|---|
| `TypeMapping.Lookup` | src/llama/main.py:24-29 | The lookup is defined on exactly the four names integer/string/number/boolean, and raises (None) on every other name. Its results are Integer, String(16), Numeric and Boolean respectively. |
| `TypeMapping.TypeNameOf` | src/marvin/main.py:19-24 | The inverse of the table is defined exactly on the table's range. Its result is always one of the four known names. |
| `TypeMapping.LookupInverse` | src/marvin/main.py:19-24 | The mapping is injective: `Lookup(n) == Some(t)` if and only if `TypeNameOf(t) == Some(n)`. |
| `TypeMapping.TextColumnsBounded` | src/llama/main.py:26 | The only text column type the mapping yields is `String(16)`, and only for the name "string". |
| `Schema.ColumnFor` | src/llama/main.py:53 | One loop step succeeds exactly when the property has a type entry that the table knows. The column then has the property's key as its name and the table's type for that name. A missing type raises KeyError('type'). An unknown name raises KeyError(name). |
| `Schema.SchemaToColumns` | src/llama/main.py:45-54 | The call succeeds exactly when every property is mappable. It then returns one column per property, and column i is what property i maps to. On failure the error is that of the first unmappable property, and no column list is returned. |
| `Schema.ColumnsDeterminedBySteps` | src/llama/main.py:50-54 | The converse of the per-column statement: any list with one entry per property, where entry i is the loop body's column for property i, is exactly the walk's result. |
| `Schema.ColumnNamesFollowKeys` | src/marvin/main.py:45-48 | The output length equals the property count. Column i is named after the i-th property key, so column order is property iteration order. |
| `Schema.ColumnTypesFromMapping` | src/marvin/main.py:46-48 | Column i's type is `TYPE_MAPPING[typeName_i]`, and typeName_i is one of the four keys. Every column type lies in the table's range, and every text column has length 16. |
| `Schema.ColumnForType` | src/llama/main.py:53 | A single property's column has the table's entry for its type name, so its type lies in the table's range. |
| `Schema.UnknownTypeFails` | src/marvin/main.py:48 | One property whose type name is outside the four keys makes the whole call fail. |
| `Schema.SchemaToColumnsAppend` | src/llama/main.py:50-54 | The loop appends in property order. Walking `a + b` is walking `a` then `b` (`Then`): the columns of `a` followed by those of `b`, and a failure in `a` wins over one in `b`. |
| `Schema.PropertiesOf` | src/llama/main.py:52-53 | Rebuilding the property list from columns keeps one property per column, with the column's name as the key. |
| `Schema.PropertiesRoundTrip` | src/llama/main.py:52-53 | The walk loses nothing: the property list can be recovered from any column list the walk returns. |
| `Schema.ColumnsRoundTrip` | src/marvin/main.py:45-49 | Every column list whose types lie in the table's range is exactly what the walk derives from its rebuilt property list. |
| `Tables.CreateTable` | src/llama/main.py:57-70 | The table is named `table_name`, and its columns are exactly `schema_to_columns(schema)`: one per property, named by the keys in order. A KeyError from the walk escapes and no table is built. |
| `Insertion.CreateRow` | src/llama/main.py:73-80 | An insert succeeds exactly when the engine commits. It then appends the dumped row after the existing rows and leaves the table unchanged. Otherwise it raises with that row. Nothing checks the row's values. |
| `Insertion.CreateRows` | src/llama/main.py:83-85 | There are two possible outcomes. (1) Every row committed in turn: the stored rows are the old rows followed by every input row, in input order. (2) The exception of the first refused row k escapes: rows 0..k-1 stay committed, and rows k onward are absent. |
| `Insertion.BatchSpecUnique` | src/marvin/main.py:78-80 | The outcome of a batch is fully determined by the engine's verdicts. No two different outcomes both fit the meaning of `create_rows`. |
| `Insertion.AllCommitted` | src/marvin/main.py:68-80 | When every insert commits, the batch appends every record's dump, in input order, and raises nothing. |
| `Insertion.BatchAppend` | src/marvin/main.py:78-80 | Batches compose. Inserting `a` and then `b` is inserting `a + b`. A failure at index k of `b` is a failure at index \|a\|+k of `a + b`. |
| `Invoice.InvoiceTable` | src/llama/main.py:33-42 | The `Invoice` schema gives the nine-column `invoices` table. The two datetime fields become `String(16)` columns. |
| `Invoice.InvoiceRow` | src/llama/main.py:90-111 | A dumped invoice record has one field per schema property, in property order. |
| `Insertion.TextBoundNotEnforced` | src/marvin/main.py:68-75 | For every store, engine and row, a row carrying text longer than 16 characters succeeds exactly when the engine commits it, and is then appended verbatim. No code checks the `String(16)` bound. |
| `Invoice.DemoInsertion` | src/llama/main.py:112-117 | The demo's two invoices land in the fresh `invoices` table as exactly two rows, in insertion order, with amounts 10.0 and 15.0. |

## Left out

- Tables.CreateTable: does not model the failures of `metadata_obj.create_all(ENGINE)`. In particular, a new table with zero columns (from an empty property map) makes SQLite reject the `CREATE TABLE` statement; the model returns a column-less table there.
- `metadata_obj.create_all(ENGINE)` is not modelled. This covers creating the relation in SQLite, and skipping creation when a table of that name already exists. `create_rows` works from any `Store`, whether fresh or already populated.
- Building the insert statement and executing it are modelled only as the engine's verdict `commits(committedRows, row)`. This includes SQLAlchemy's refusal of dump keys that are not columns, NULLs for absent columns, and SQLite constraint checks. The stored row is modelled as the dump itself.
- Pydantic's `model_json_schema` and `model_dump` come from a foreign library. The property list and the dumped row are inputs. The `Invoice` property list is stated as that library renders it.
- A schema whose JSON schema lacks a `"properties"` entry is not modelled. In the code, `.items()` on `None` would raise.
- Property keys are unique because they come from a dictionary. The model does not restate this, and SQLAlchemy's handling of duplicate column names is not modelled.
- Cell values are opaque: no numeric, decimal or datetime conversion is modelled.
- The global `ENGINE`, its connections and any concurrency are left out.
- The `__main__` blocks are left out, apart from the demo insertion above. This covers the `SELECT *` read-back and printing, and the OpenAI / llama_index query engine wiring. `src/marvin/test.py` (a network-backed marvin call) is also left out.
