/**
 * `create_row` and `create_rows`: records appended to a table one at a time,
 * each insert in its own begin/commit block, in input order.
 */
module Insertion {
  import opened Wrappers
  import opened TypeMapping
  import opened Tables

  /** A cell value as a record dump carries it; the insert path never inspects it. */
  datatype Value =
    | IntValue(i: int)
    | TextValue(s: string)
    | NumberValue(x: real)
    | BoolValue(b: bool)
    | DateTimeValue(iso: string)

  /** One entry of `row.model_dump()`: a field name and its value. */
  datatype Field = Field(key: string, value: Value)

  /** A dumped record, in field order. */
  type Row = seq<Field>

  /** A table together with the rows committed to it so far. */
  datatype Store = Store(table: Table, rows: seq<Row>)

  /**
   * The storage engine's verdict on one insert: given the rows already
   * committed and the new row, whether the transaction commits (true) or the
   * statement raises (false).
   */
  type Engine = (seq<Row>, Row) -> bool

  /** The exception an insert raises, with the row it was inserting. */
  datatype InsertError = Rejected(row: Row)

  /**
   * `create_row(table, row)`: one begin/execute/commit block. On commit the
   * row is appended after all earlier rows and nothing else changes; on an
   * exception the transaction leaves the stored rows as they were.
   */
  function CreateRow(s: Store, row: Row, commits: Engine): (r: Result<Store, InsertError>)
    ensures r.Success? <==> commits(s.rows, row)
    ensures r.Success? ==> r.value.table == s.table
    ensures r.Success? ==> |r.value.rows| == |s.rows| + 1 && r.value.rows[..|s.rows|] == s.rows
    ensures r.Success? ==> r.value.rows[|s.rows|] == row
    ensures r.Failure? ==> r.error == Rejected(row)
  {
    if commits(s.rows, row) then Success(Store(s.table, s.rows + [row])) else Failure(Rejected(row))
  }

  /**
   * The bound of a text column is a column attribute only: whatever the
   * store and engine, a row carrying text longer than `TextLength` succeeds
   * exactly when the engine commits it, and is then appended verbatim.
   */
  lemma TextBoundNotEnforced(s: Store, row: Row, commits: Engine, i: int)
    requires 0 <= i < |row| && row[i].value.TextValue? && |row[i].value.s| > TextLength
    ensures CreateRow(s, row, commits).Success? <==> commits(s.rows, row)
    ensures commits(s.rows, row) ==> CreateRow(s, row, commits) == Success(Store(s.table, s.rows + [row]))
  {
  }

  /** What `create_rows` leaves behind: the store, and the index of the row whose exception escaped. */
  datatype BatchOutcome = BatchOutcome(store: Store, failedAt: Option<nat>)

  /** Each of the first n rows committed when inserted after the rows before it. */
  ghost predicate CommitsInOrder(s: Store, rows: seq<Row>, commits: Engine, n: nat)
    requires n <= |rows|
  {
    forall j :: 0 <= j < n ==> commits(s.rows + rows[..j], rows[j])
  }

  /**
   * The meaning of `create_rows(table, rows)` from store s: the table is
   * untouched; either every row committed in turn and the stored rows are the
   * old rows followed by all input rows in order, or rows 0..k-1 committed,
   * row k was refused, and the stored rows are the old rows followed by
   * exactly rows 0..k-1 -- later rows are never attempted.
   */
  ghost predicate BatchSpec(s: Store, rows: seq<Row>, commits: Engine, r: BatchOutcome) {
    && r.store.table == s.table
    && match r.failedAt
       case None =>
         && r.store.rows == s.rows + rows
         && CommitsInOrder(s, rows, commits, |rows|)
       case Some(k) =>
         && k < |rows|
         && r.store.rows == s.rows + rows[..k]
         && CommitsInOrder(s, rows, commits, k)
         && !commits(r.store.rows, rows[k])
  }

  /**
   * `create_rows(table, rows)`: `create_row` on each row in input order; the
   * first exception stops the loop and propagates, and no per-row outcome is
   * collected.
   */
  method CreateRows(s: Store, rows: seq<Row>, commits: Engine) returns (r: BatchOutcome)
    ensures BatchSpec(s, rows, commits, r)
  {
    var store := s;
    var i := 0;
    while i < |rows|
      invariant 0 <= i <= |rows|
      invariant store.table == s.table
      invariant store.rows == s.rows + rows[..i]
      invariant CommitsInOrder(s, rows, commits, i)
    {
      match CreateRow(store, rows[i], commits)
      case Failure(_) =>
        return BatchOutcome(store, Some(i));
      case Success(next) =>
        assert rows[..i + 1] == rows[..i] + [rows[i]];
        store := next;
        i := i + 1;
    }
    assert rows[..i] == rows;
    r := BatchOutcome(store, None);
  }

  /** The outcome of a batch is determined by the engine: at most one outcome meets the meaning. */
  lemma BatchSpecUnique(s: Store, rows: seq<Row>, commits: Engine, r1: BatchOutcome, r2: BatchOutcome)
    requires BatchSpec(s, rows, commits, r1) && BatchSpec(s, rows, commits, r2)
    ensures r1 == r2
  {
    match (r1.failedAt, r2.failedAt)
    case (None, None) =>
    case (Some(k), None) =>
      assert false;
    case (None, Some(k)) =>
      assert false;
    case (Some(k1), Some(k2)) =>
      if k1 < k2 {
        assert false;
      } else if k2 < k1 {
        assert false;
      }
  }

  /** When the engine commits every insert, all rows are appended, in input order, and nothing is raised. */
  lemma AllCommitted(s: Store, rows: seq<Row>, commits: Engine, r: BatchOutcome)
    requires forall committed, row :: commits(committed, row)
    requires BatchSpec(s, rows, commits, r)
    ensures r == BatchOutcome(Store(s.table, s.rows + rows), None)
  {
    if r.failedAt.Some? {
      assert false;
    }
  }

  /**
   * Batches compose: inserting `a` and then `b` leaves the same store as
   * inserting `a + b`, and a failure in `b` at index k is a failure of
   * `a + b` at index |a| + k.
   */
  lemma BatchAppend(s: Store, a: seq<Row>, b: seq<Row>, commits: Engine, ra: BatchOutcome, rb: BatchOutcome)
    requires BatchSpec(s, a, commits, ra) && ra.failedAt.None?
    requires BatchSpec(ra.store, b, commits, rb)
    ensures BatchSpec(s, a + b, commits,
                      BatchOutcome(rb.store, if rb.failedAt.Some? then Some(|a| + rb.failedAt.value) else None))
  {
    var ab := a + b;
    var n := if rb.failedAt.Some? then |a| + rb.failedAt.value else |ab|;
    forall j | 0 <= j < n
      ensures commits(s.rows + ab[..j], ab[j])
    {
      if j < |a| {
        assert ab[..j] == a[..j];
      } else {
        assert ab[..j] == a + b[..j - |a|];
        assert s.rows + ab[..j] == ra.store.rows + b[..j - |a|];
      }
    }
    match rb.failedAt
    case None =>
      assert rb.store.rows == s.rows + ab;
    case Some(k) =>
      assert ab[..|a| + k] == a + b[..k];
      assert ab[|a| + k] == b[k];
  }
}
