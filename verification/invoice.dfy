/**
 * The `Invoice` record of src/llama/main.py:33-42 and its use in the demo
 * block (lines 88-117), stated as lemmas about the model.
 */
module Invoice {
  import opened Wrappers
  import opened TypeMapping
  import opened Schema
  import opened Tables
  import opened Insertion

  /**
   * The property map JSON-schema generation yields for `Invoice`, in field
   * order. `datetime` fields are rendered with type name "string" (and a
   * "date-time" format the walk ignores), `float` as "number".
   */
  const InvoiceProperties: seq<Property> := [
    Property("invoice_id", Some("integer")),
    Property("account_id", Some("string")),
    Property("first_transaction_at", Some("string")),
    Property("last_transaction_at", Some("string")),
    Property("amount", Some("number")),
    Property("direct_success", Some("boolean")),
    Property("has_failure", Some("boolean")),
    Property("recovered", Some("boolean")),
    Property("failed", Some("boolean"))
  ]

  /** The columns the `invoices` table is expected to carry. */
  const InvoiceColumns: seq<Column> := [
    Column("invoice_id", Integer),
    Column("account_id", String(16)),
    Column("first_transaction_at", String(16)),
    Column("last_transaction_at", String(16)),
    Column("amount", Numeric),
    Column("direct_success", Boolean),
    Column("has_failure", Boolean),
    Column("recovered", Boolean),
    Column("failed", Boolean)
  ]

  /** The `invoices` table: nine columns, the two timestamps as 16-character text. */
  lemma InvoiceTable()
    ensures CreateTable(InvoiceProperties, "invoices") == Success(Table("invoices", InvoiceColumns))
  {
    InvoicePropertyColumns();
    ColumnsDeterminedBySteps(InvoiceProperties, InvoiceColumns);
  }

  /** Each `Invoice` property, on its own, yields the expected column. */
  lemma InvoicePropertyColumns()
    ensures forall i :: 0 <= i < |InvoiceProperties| ==> ColumnFor(InvoiceProperties[i]) == Success(InvoiceColumns[i])
  {
    forall i | 0 <= i < |InvoiceProperties|
      ensures ColumnFor(InvoiceProperties[i]) == Success(InvoiceColumns[i])
    {
      var p := InvoiceProperties[i];
      var t := p.typeName.value;
      assert Lookup(t) == Some(InvoiceColumns[i].columnType);
    }
  }

  /** A record of the demo block as `model_dump` yields it. */
  function InvoiceRow(id: int, account: string, first: string, last: string, amount: real,
                      directSuccess: bool, hasFailure: bool, recovered: bool, failed: bool): (r: Row)
    ensures |r| == |InvoiceProperties|
    ensures forall i :: 0 <= i < |r| ==> r[i].key == InvoiceProperties[i].name
  {
    [ Field("invoice_id", IntValue(id)),
      Field("account_id", TextValue(account)),
      Field("first_transaction_at", DateTimeValue(first)),
      Field("last_transaction_at", DateTimeValue(last)),
      Field("amount", NumberValue(amount)),
      Field("direct_success", BoolValue(directSuccess)),
      Field("has_failure", BoolValue(hasFailure)),
      Field("recovered", BoolValue(recovered)),
      Field("failed", BoolValue(failed)) ]
  }

  /** The two invoices of the demo block, in insertion order. */
  const DemoRows: seq<Row> := [
    InvoiceRow(1, "abc", "2023-01-01T00:00:00Z", "2023-01-08T00:00:00Z", 10.0, true, false, false, false),
    InvoiceRow(2, "abc", "2023-01-02T00:00:00Z", "2023-01-09T00:00:00Z", 15.0, false, true, true, false)
  ]

  /** The demo: two invoices into a fresh `invoices` table land as two rows, in insertion order. */
  lemma DemoInsertion(commits: Engine, r: BatchOutcome)
    requires forall committed, row :: commits(committed, row)
    requires BatchSpec(Store(Table("invoices", InvoiceColumns), []), DemoRows, commits, r)
    ensures r.failedAt == None
    ensures r.store.table == CreateTable(InvoiceProperties, "invoices").value
    ensures |r.store.rows| == 2
    ensures r.store.rows[0][0].value == IntValue(1) && r.store.rows[1][0].value == IntValue(2)
    ensures r.store.rows[0][4].value == NumberValue(10.0) && r.store.rows[1][4].value == NumberValue(15.0)
  {
    InvoiceTable();
    AllCommitted(Store(Table("invoices", InvoiceColumns), []), DemoRows, commits, r);
  }
}
