/**
 * `schema_to_columns`: the walk over a schema's ordered property map that
 * yields one column per property (src/llama/main.py:45-54).
 */
module Schema {
  import opened Wrappers
  import opened TypeMapping

  /**
   * One entry of the schema's `"properties"` map, in iteration order: the
   * property key and the property's `"type"` entry, None when it has none.
   */
  datatype Property = Property(name: string, typeName: Option<string>)

  /** A column descriptor: a name and a column type. */
  datatype Column = Column(name: string, columnType: ColumnType)

  /** The `KeyError` a failed dictionary lookup raises, carrying the missing key. */
  datatype KeyError = KeyError(key: string)

  /** A property the loop body can turn into a column without raising. */
  predicate Mappable(p: Property) {
    p.typeName.Some? && Lookup(p.typeName.value).Some?
  }

  /**
   * The loop body `Column(key, TYPE_MAPPING[value["type"]])`: the first lookup
   * raises `KeyError('type')` when the property has no type entry, the second
   * raises `KeyError(typeName)` when the name is not in the mapping.
   */
  function ColumnFor(p: Property): (r: Result<Column, KeyError>)
    ensures r.Success? <==> Mappable(p)
    ensures r.Success? ==> r.value.name == p.name && Lookup(p.typeName.value) == Some(r.value.columnType)
    ensures p.typeName.None? ==> r == Failure(KeyError("type"))
    ensures p.typeName.Some? && !Mappable(p) ==> r == Failure(KeyError(p.typeName.value))
  {
    match p.typeName
    case None => Failure(KeyError("type"))
    case Some(t) =>
      match Lookup(t)
      case None => Failure(KeyError(t))
      case Some(ct) => Success(Column(p.name, ct))
  }

  /** Index of the first property the loop cannot map, given that some exists. */
  predicate FirstUnmappable(props: seq<Property>, k: int) {
    && 0 <= k < |props|
    && !Mappable(props[k])
    && forall j :: 0 <= j < k ==> Mappable(props[j])
  }

  /**
   * `schema_to_columns`: every property mappable yields exactly one column
   * per property, in order; otherwise the first failing property's KeyError
   * escapes and no column list, not even a partial one, is returned.
   */
  function SchemaToColumns(props: seq<Property>): (r: Result<seq<Column>, KeyError>)
    ensures r.Success? <==> forall i :: 0 <= i < |props| ==> Mappable(props[i])
    ensures r.Success? ==> |r.value| == |props|
    ensures r.Success? ==> forall i :: 0 <= i < |props| ==> ColumnFor(props[i]) == Success(r.value[i])
    ensures r.Failure? ==> exists k :: FirstUnmappable(props, k) && ColumnFor(props[k]) == Failure(r.error)
  {
    if |props| == 0 then Success([])
    else
      match ColumnFor(props[0])
      case Failure(e) => Failure(e)
      case Success(c) =>
        match SchemaToColumns(props[1..])
        case Failure(e) => Failure(e)
        case Success(rest) => Success([c] + rest)
  }

  /** Column i is named after the i-th property key, so column order is key order. */
  lemma ColumnNamesFollowKeys(props: seq<Property>)
    requires SchemaToColumns(props).Success?
    ensures |SchemaToColumns(props).value| == |props|
    ensures forall i :: 0 <= i < |props| ==> SchemaToColumns(props).value[i].name == props[i].name
  {
    var cols := SchemaToColumns(props).value;
    forall i | 0 <= i < |props|
      ensures cols[i].name == props[i].name
    {
      assert ColumnFor(props[i]) == Success(cols[i]);
    }
  }

  /**
   * Column i's type is the mapping's entry for the i-th property's type name:
   * column types come only from the four-entry table, and text columns are
   * always bounded at `TextLength`.
   */
  lemma ColumnTypesFromMapping(props: seq<Property>)
    requires SchemaToColumns(props).Success?
    ensures forall i :: 0 <= i < |props| ==>
              && props[i].typeName.Some?
              && props[i].typeName.value in KnownTypeNames
              && SchemaToColumns(props).value[i].columnType == TypeTable[props[i].typeName.value]
    ensures forall i :: 0 <= i < |props| ==>
              var t := SchemaToColumns(props).value[i].columnType;
              t in TypeTable.Values && (t.String? ==> t.length == TextLength)
  {
    var cols := SchemaToColumns(props).value;
    forall i | 0 <= i < |props|
      ensures props[i].typeName.Some? && props[i].typeName.value in KnownTypeNames
      ensures cols[i].columnType == TypeTable[props[i].typeName.value]
      ensures cols[i].columnType in TypeTable.Values
      ensures cols[i].columnType.String? ==> cols[i].columnType.length == TextLength
    {
      ColumnForType(props[i], cols[i]);
    }
  }

  /** The column a single property yields has the mapping's type for its name. */
  lemma ColumnForType(p: Property, c: Column)
    requires ColumnFor(p) == Success(c)
    ensures p.typeName.Some? && p.typeName.value in KnownTypeNames
    ensures c.columnType == TypeTable[p.typeName.value]
    ensures c.columnType in TypeTable.Values
    ensures c.columnType.String? ==> c.columnType.length == TextLength
  {
  }

  /**
   * The walk's result is pinned down by the loop body alone: a column list
   * that has, at each position, the column the body yields for that
   * property is the walk's result.
   */
  lemma ColumnsDeterminedBySteps(props: seq<Property>, cols: seq<Column>)
    requires |cols| == |props|
    requires forall i :: 0 <= i < |props| ==> ColumnFor(props[i]) == Success(cols[i])
    ensures SchemaToColumns(props) == Success(cols)
  {
    assert forall i :: 0 <= i < |props| ==> Mappable(props[i]);
  }

  /** One property outside the mapping makes the whole call raise: no columns at all. */
  lemma UnknownTypeFails(props: seq<Property>, i: int)
    requires 0 <= i < |props|
    requires props[i].typeName.Some? && props[i].typeName.value !in KnownTypeNames
    ensures SchemaToColumns(props).Failure?
  {
    assert !Mappable(props[i]);
  }

  /**
   * Two walks run one after the other: the columns of the first followed by
   * those of the second, or the first error raised.
   */
  function Then(first: Result<seq<Column>, KeyError>, second: Result<seq<Column>, KeyError>): Result<seq<Column>, KeyError> {
    match first
    case Failure(e) => Failure(e)
    case Success(c1) =>
      match second
      case Failure(e) => Failure(e)
      case Success(c2) => Success(c1 + c2)
  }

  /** The walk over a single property, as a column list. */
  function Single(r: Result<Column, KeyError>): Result<seq<Column>, KeyError> {
    match r
    case Failure(e) => Failure(e)
    case Success(c) => Success([c])
  }

  /**
   * The loop appends in property order: walking `a + b` is walking `a` and
   * then `b`, and the error raised is the one of the first part that fails.
   */
  lemma {:induction false} SchemaToColumnsAppend(a: seq<Property>, b: seq<Property>)
    ensures SchemaToColumns(a + b) == Then(SchemaToColumns(a), SchemaToColumns(b))
    decreases |a|
  {
    if |a| == 0 {
      assert a + b == b;
      assert SchemaToColumns(a) == Success([]);
      if SchemaToColumns(b).Success? {
        assert [] + SchemaToColumns(b).value == SchemaToColumns(b).value;
      }
    } else {
      var ab := a + b;
      assert ab[0] == a[0];
      assert ab[1..] == a[1..] + b;
      var head := Single(ColumnFor(a[0]));
      calc {
        SchemaToColumns(ab);
        { UnfoldCons(ab); }
        Then(head, SchemaToColumns(a[1..] + b));
        { SchemaToColumnsAppend(a[1..], b); }
        Then(head, Then(SchemaToColumns(a[1..]), SchemaToColumns(b)));
        { ThenAssociative(head, SchemaToColumns(a[1..]), SchemaToColumns(b)); }
        Then(Then(head, SchemaToColumns(a[1..])), SchemaToColumns(b));
        { UnfoldCons(a); }
        Then(SchemaToColumns(a), SchemaToColumns(b));
      }
    }
  }

  /** Running three walks in sequence does not depend on how they are grouped. */
  lemma ThenAssociative(x: Result<seq<Column>, KeyError>, y: Result<seq<Column>, KeyError>, z: Result<seq<Column>, KeyError>)
    ensures Then(x, Then(y, z)) == Then(Then(x, y), z)
  {
    if x.Success? && y.Success? && z.Success? {
      assert x.value + (y.value + z.value) == (x.value + y.value) + z.value;
    }
  }

  /** One step of the walk: the first property's column, then the rest's, first error wins. */
  lemma UnfoldCons(props: seq<Property>)
    requires |props| > 0
    ensures SchemaToColumns(props) == Then(Single(ColumnFor(props[0])), SchemaToColumns(props[1..]))
  {
  }

  /** The inverse walk: the property map a column list was derived from. */
  function PropertiesOf(cols: seq<Column>): (r: seq<Property>)
    ensures |r| == |cols|
    ensures forall i :: 0 <= i < |cols| ==> r[i].name == cols[i].name
  {
    if |cols| == 0 then []
    else [Property(cols[0].name, TypeNameOf(cols[0].columnType))] + PropertiesOf(cols[1..])
  }

  /** Deriving columns loses nothing: the property map can be recovered from them. */
  lemma {:induction false} PropertiesRoundTrip(props: seq<Property>)
    requires SchemaToColumns(props).Success?
    ensures PropertiesOf(SchemaToColumns(props).value) == props
    decreases |props|
  {
    if |props| > 0 {
      var c := ColumnFor(props[0]).value;
      LookupInverse(props[0].typeName.value, c.columnType);
      PropertiesRoundTrip(props[1..]);
    }
  }

  /**
   * Every column list whose types lie in the mapping's range is derived from
   * exactly the property map `PropertiesOf` gives back.
   */
  lemma {:induction false} ColumnsRoundTrip(cols: seq<Column>)
    requires forall i :: 0 <= i < |cols| ==> cols[i].columnType in TypeTable.Values
    ensures SchemaToColumns(PropertiesOf(cols)) == Success(cols)
    decreases |cols|
  {
    if |cols| > 0 {
      var t := cols[0].columnType;
      var name := TypeNameOf(t).value;
      LookupInverse(name, t);
      var props := PropertiesOf(cols);
      assert props[0] == Property(cols[0].name, Some(name));
      assert ColumnFor(props[0]) == Success(cols[0]);
      ColumnsRoundTrip(cols[1..]);
      assert props[1..] == PropertiesOf(cols[1..]);
      assert SchemaToColumns(props) == Success([cols[0]] + cols[1..]);
      assert [cols[0]] + cols[1..] == cols;
    }
  }
}
