/** Structured record tables and the conversion of their fields into a dense
    float64 matrix (`floatify`), together with the field selection done by
    indexing a record table with a tuple of feature names. */
module Records {
  import opened Common

  /** One structured record: the value of each named field. */
  type Record = map<string, real>

  /** A compound-typed record table: its ordered field names and its rows. */
  datatype RawTable = RawTable(fields: seq<string>, rows: seq<Record>)

  /** Every row holds every field of the table's type. */
  predicate WellFormed(t: RawTable) {
    forall i, f :: 0 <= i < |t.rows| && f in t.fields ==> f in t.rows[i]
  }

  /** A record table as the container hands it out: its rows share its type. */
  type StructTable = t: RawTable | WellFormed(t) witness RawTable([], [])

  /** A dense numeric array: an element-type tag and its rows. */
  datatype NDArray = NDArray(dtype: DType, rows: seq<seq<real>>)

  /** A record cut down to the given field names. */
  function Restrict(rec: Record, names: seq<string>): map<string, real> {
    map f | f in names && f in rec :: rec[f]
  }

  /** The first name, in order, that is not one of `fields`. */
  function FirstMissing(names: seq<string>, fields: seq<string>): (r: Option<string>)
    ensures r.None? <==> forall f :: f in names ==> f in fields
    ensures r.Some? ==> exists i :: 0 <= i < |names| && names[i] == r.value && r.value !in fields
                                    && forall k :: 0 <= k < i ==> names[k] in fields
  {
    if names == [] then None
    else if names[0] !in fields then Some(names[0])
    else
      var rest := FirstMissing(names[1..], fields);
      assert forall f :: f in names ==> f == names[0] || f in names[1..];
      if rest.Some? then
        var i :| 0 <= i < |names[1..]| && names[1..][i] == rest.value && rest.value !in fields
                 && forall k :: 0 <= k < i ==> names[1..][k] in fields;
        assert names[i + 1] == rest.value;
        assert forall k :: 1 <= k < i + 1 ==> names[k] == names[1..][k - 1];
        rest
      else rest
  }

  /** The first name, scanning from position `k`, that already occurred
      before its own position. */
  function FirstRepeatFrom(names: seq<string>, k: nat): (r: Option<string>)
    requires k <= |names| && Unique(names[..k])
    ensures r.None? <==> Unique(names)
    ensures r.Some? ==> exists i, j :: 0 <= i < j < |names| && names[i] == r.value && names[j] == r.value
    decreases |names| - k
  {
    if k == |names| then
      assert names[..k] == names;
      None
    else if names[k] in names[..k] then
      var i :| 0 <= i < k && names[..k][i] == names[k];
      assert names[i] == names[k];
      Some(names[k])
    else
      assert names[..k + 1] == names[..k] + [names[k]];
      FirstRepeatFrom(names, k + 1)
  }

  /** Reading a record table with a tuple of field names. An empty tuple reads
      the whole table. Otherwise every name must be a field of the table's
      type, checked name by name in order, and only then are names occurring
      twice refused; the result has exactly the named fields, in that order. */
  function SelectFields(t: StructTable, names: seq<string>): (r: Result<StructTable, Error>)
    ensures names == [] ==> r == Ok(t)
    ensures r.Ok? <==> names == [] || ((forall f :: f in names ==> f in t.fields) && Unique(names))
    ensures names != [] && (exists f :: f in names && f !in t.fields) ==>
              r.Err? && r.error.FieldNotInType? && r.error.field !in t.fields
              && exists i :: 0 <= i < |names| && names[i] == r.error.field
                             && forall k :: 0 <= k < i ==> names[k] in t.fields
    ensures names != [] && (forall f :: f in names ==> f in t.fields) && !Unique(names) ==>
              r.Err? && r.error.DuplicateField?
              && exists i, j :: 0 <= i < j < |names| && names[i] == r.error.field && names[j] == r.error.field
    ensures names != [] && r.Ok? ==>
              r.value.fields == names && |r.value.rows| == |t.rows|
              && (forall i :: 0 <= i < |t.rows| ==> r.value.rows[i].Keys == set f | f in names)
              && forall i, f :: 0 <= i < |t.rows| && f in names ==> f in r.value.rows[i] && r.value.rows[i][f] == t.rows[i][f]
  {
    if names == [] then Ok(t)
    else
      match FirstMissing(names, t.fields)
      case Some(f) => Err(FieldNotInType(f))
      case None =>
        match FirstRepeatFrom(names, 0)
        case Some(f) => Err(DuplicateField(f))
        case None =>
          var rows := seq(|t.rows|, i requires 0 <= i < |t.rows| => Restrict(t.rows[i], names));
          assert WellFormed(RawTable(names, rows));
          Ok(RawTable(names, rows))
  }

  /** One record as a row of floats: entry j is the field `featureList[j]`. */
  function FloatRow(rec: Record, featureList: seq<string>): (row: seq<real>)
    requires forall f :: f in featureList ==> f in rec
    ensures |row| == |featureList|
    ensures forall j :: 0 <= j < |featureList| ==> row[j] == rec[featureList[j]]
  {
    if featureList == [] then []
    else [rec[featureList[0]]] + FloatRow(rec, featureList[1..])
  }

  /** `floatify`: an n-record table becomes an n x k float64 matrix, k the
      length of the feature list, whose entry [r][j] is record r's field
      `featureList[j]`. */
  function Floatify(t: StructTable, featureList: seq<string>): (a: NDArray)
    requires forall f :: f in featureList ==> f in t.fields
    ensures a.dtype == Float64
    ensures |a.rows| == |t.rows|
    ensures forall r :: 0 <= r < |t.rows| ==> |a.rows[r]| == |featureList|
    ensures forall r, j :: 0 <= r < |t.rows| && 0 <= j < |featureList| ==>
              featureList[j] in t.rows[r] && a.rows[r][j] == t.rows[r][featureList[j]]
  {
    assert forall j :: 0 <= j < |featureList| ==> featureList[j] in t.fields;
    NDArray(Float64, seq(|t.rows|, r requires 0 <= r < |t.rows| => FloatRow(t.rows[r], featureList)))
  }

  /** Reads a row of floats back as a record over the given field names. */
  function Unflatten(row: seq<real>, featureList: seq<string>): map<string, real>
    requires |row| == |featureList|
  {
    if featureList == [] then map[]
    else Unflatten(row[1..], featureList[1..])[featureList[0] := row[0]]
  }

  /** Converting a record to a row loses nothing but the fields outside the
      feature list: reading the row back gives the record restricted to it. */
  lemma {:induction false} FloatRowRoundTrip(rec: Record, featureList: seq<string>)
    requires forall f :: f in featureList ==> f in rec
    ensures Unflatten(FloatRow(rec, featureList), featureList) == Restrict(rec, featureList)
    decreases |featureList|
  {
    if featureList != [] {
      var rest := featureList[1..];
      assert FloatRow(rec, featureList)[1..] == FloatRow(rec, rest);
      FloatRowRoundTrip(rec, rest);
      assert forall f :: f in featureList <==> f == featureList[0] || f in rest;
    }
  }

  /** With distinct field names, a row read back as a record holds entry j
      under the name `featureList[j]`. */
  lemma {:induction false} UnflattenAt(row: seq<real>, featureList: seq<string>)
    requires |row| == |featureList| && Unique(featureList)
    ensures forall j :: 0 <= j < |featureList| ==>
              featureList[j] in Unflatten(row, featureList) && Unflatten(row, featureList)[featureList[j]] == row[j]
    decreases |featureList|
  {
    if featureList != [] {
      var rest := featureList[1..];
      assert Unique(rest);
      UnflattenAt(row[1..], rest);
      forall j | 1 <= j < |featureList| ensures featureList[j] != featureList[0] {
      }
      assert forall j :: 1 <= j < |featureList| ==> featureList[j] == rest[j - 1] && row[j] == row[1..][j - 1];
    }
  }

  /** The other direction: with distinct field names, converting a row read
      back as a record gives the row again. */
  lemma {:induction false} UnflattenRoundTrip(row: seq<real>, featureList: seq<string>)
    requires |row| == |featureList| && Unique(featureList)
    ensures forall f :: f in featureList ==> f in Unflatten(row, featureList)
    ensures FloatRow(Unflatten(row, featureList), featureList) == row
  {
    UnflattenAt(row, featureList);
  }

  /** Every row of the floatified matrix reads back as the corresponding
      record restricted to the feature list. */
  lemma FloatifyRoundTrip(t: StructTable, featureList: seq<string>)
    requires forall f :: f in featureList ==> f in t.fields
    ensures forall r :: 0 <= r < |t.rows| ==>
              Unflatten(Floatify(t, featureList).rows[r], featureList) == Restrict(t.rows[r], featureList)
  {
    forall r | 0 <= r < |t.rows|
      ensures Unflatten(Floatify(t, featureList).rows[r], featureList) == Restrict(t.rows[r], featureList)
    {
      FloatRowRoundTrip(t.rows[r], featureList);
    }
  }
}
