/** The row rewrite of the update stage (the `MapFunction` in
    `scanAndUpdateData`): each scanned row becomes a new six-column row that
    keeps every column except `speed`, which is set to `10.0f`. */
module RowRewrite {
  import opened Types
  import opened Records
  import opened Loader

  /** One column value of a Spark row as it comes back from the table scan. */
  datatype Cell = LongCell(asLong: Int64) | IntCell(asInt: Int32) | FloatCell(asFloat: Float32) | NullCell

  /** A Spark `Row`: its columns by position. */
  type Row = seq<Cell>

  datatype ColumnType = LongType | IntegerType | FloatType

  /** The table's columns in order: `report_time`, `vehicle_tag`, `longitude`,
      `latitude`, `speed`, `heading`. */
  const SCHEMA: seq<ColumnType> := [LongType, IntegerType, FloatType, FloatType, FloatType, FloatType]

  /** The column positions the rewrite reads, in the order it reads them. */
  const READ_COLUMNS: seq<nat> := [0, 1, 2, 3, 5]

  /** The column `speed`, which the rewrite overwrites without reading it. */
  const SPEED_COLUMN: nat := 4

  predicate HasType(c: Cell, t: ColumnType)
  {
    match t
    case LongType => c.LongCell?
    case IntegerType => c.IntCell?
    case FloatType => c.FloatCell?
  }

  /** Why a typed getter of `Row` throws: the position is past the end of the
      row, the value there is null, or it has another type. */
  datatype Fault = IndexOutOfBounds(column: nat) | NullValue(column: nat) | WrongType(column: nat)

  /** Column `c` can be read with the getter its schema type calls for. */
  predicate Readable(row: Row, c: nat)
    requires c < |SCHEMA|
  {
    c < |row| && HasType(row[c], SCHEMA[c])
  }

  /** Every column the rewrite reads can be read: `report_time`, `vehicle_tag`,
      `longitude`, `latitude` and `heading`. */
  predicate ReadableRow(row: Row)
  {
    Readable(row, 0) && Readable(row, 1) && Readable(row, 2) && Readable(row, 3) && Readable(row, 5)
  }

  /** `row.getLong(i)`, `row.getInt(i)` and `row.getFloat(i)`: the cell at `i`
      when it holds a value of type `t`, otherwise the fault the getter throws. */
  function Get(row: Row, i: nat, t: ColumnType): (r: Result<Cell, Fault>)
    ensures r.Ok? <==> i < |row| && HasType(row[i], t)
    ensures r.Ok? ==> r.value == row[i]
    ensures r.Err? ==> r.error.column == i
    ensures r.Err? ==> (r.error.IndexOutOfBounds? <==> i >= |row|)
    ensures r.Err? ==> (r.error.NullValue? <==> i < |row| && row[i] == NullCell)
  {
    if i >= |row| then Err(IndexOutOfBounds(i))
    else if row[i] == NullCell then Err(NullValue(i))
    else if HasType(row[i], t) then Ok(row[i])
    else Err(WrongType(i))
  }

  /** The rewrite. It succeeds exactly when every column it reads holds a
      value of its schema type; the result has the table's six columns in
      order, equal to the input except `speed`, which is `10.0f`. When it
      fails, the fault names the first column, in reading order, that could
      not be read. */
  function Rewrite(row: Row): (r: Result<Row, Fault>)
    ensures r.Ok? <==> ReadableRow(row)
    ensures r.Ok? ==> |row| >= |SCHEMA| && |r.value| == |SCHEMA| && forall c | 0 <= c < |SCHEMA| :: HasType(r.value[c], SCHEMA[c])
    ensures r.Ok? ==> r.value[SPEED_COLUMN] == FloatCell(FLOAT_TEN)
    ensures r.Ok? ==> forall c | 0 <= c < |SCHEMA| && c != SPEED_COLUMN :: r.value[c] == row[c]
    ensures r.Err? ==> r.error.column in READ_COLUMNS && !Readable(row, r.error.column)
    ensures r.Err? ==> forall c | c in READ_COLUMNS && c < r.error.column :: Readable(row, c)
    ensures r.Err? ==> (r.error.IndexOutOfBounds? <==> r.error.column >= |row|)
    ensures r.Err? ==> (r.error.NullValue? <==> r.error.column < |row| && row[r.error.column] == NullCell)
  {
    var reportTime :- Get(row, 0, LongType);
    var vehicleTag :- Get(row, 1, IntegerType);
    var longitude :- Get(row, 2, FloatType);
    var latitude :- Get(row, 3, FloatType);
    var heading :- Get(row, 5, FloatType);
    Ok([reportTime, vehicleTag, longitude, latitude, FloatCell(FLOAT_TEN), heading])
  }

  /** The row the table holds for a record that the loader inserted. */
  function TableRow(rec: Record): (r: Row)
    ensures |r| == |SCHEMA| && forall c | 0 <= c < |SCHEMA| :: HasType(r[c], SCHEMA[c])
    ensures r[0] == LongCell(rec.reportTime) && r[1] == IntCell(rec.vehicleTag)
    ensures r[2] == FloatCell(rec.longitude) && r[3] == FloatCell(rec.latitude)
    ensures r[SPEED_COLUMN] == FloatCell(rec.speed) && r[5] == FloatCell(rec.heading)
  {
    [LongCell(rec.reportTime), IntCell(rec.vehicleTag), FloatCell(rec.longitude),
     FloatCell(rec.latitude), FloatCell(rec.speed), FloatCell(rec.heading)]
  }

  /** Rewriting the stored row of a record gives the stored row of the same
      record with only its speed changed to `10.0f`: key and all other
      fields are kept. */
  lemma RewriteStoredRecord(rec: Record)
    ensures Rewrite(TableRow(rec)) == Ok(TableRow(rec.(speed := FLOAT_TEN)))
  {
  }

  /** Applying the rewrite to its own result changes nothing. */
  lemma RewriteIdempotent(row: Row)
    requires Rewrite(row).Ok?
    ensures Rewrite(Rewrite(row).value) == Rewrite(row)
  {
  }

  /** The old speed plays no part: the result is the same whatever column 4 holds. */
  lemma RewriteIgnoresSpeed(row: Row, v: Cell)
    requires SPEED_COLUMN < |row|
    ensures Rewrite(row[SPEED_COLUMN := v]) == Rewrite(row)
  {
  }

  /** Every record the loader builds carries speed `4.0f`, and its rewrite
      succeeds with the same key and speed `10.0f`. */
  lemma RewriteGenerated(lo: Int32, hi: Int32, draw: Int32 -> Draw, j: nat)
    requires j < |Generated(lo, hi, draw)|
    ensures Generated(lo, hi, draw)[j].speed == FLOAT_FOUR
    ensures Rewrite(TableRow(Generated(lo, hi, draw)[j])).Ok?
    ensures Rewrite(TableRow(Generated(lo, hi, draw)[j])).value[0] == LongCell(lo + j)
    ensures Rewrite(TableRow(Generated(lo, hi, draw)[j])).value[SPEED_COLUMN] == FloatCell(FLOAT_TEN)
  {
    GeneratedKeys(lo, hi, draw);
    RewriteStoredRecord(Generated(lo, hi, draw)[j]);
  }
}
