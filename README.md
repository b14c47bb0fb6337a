# SparkOnKudu performance job: client-side record pipeline

This project models the client-side part of `PerformanceJob`, the load generator for a Kudu
table `sfmta` of vehicle-position reports. The job writes synthetic rows, scans them back, rewrites
them and updates them. Three pieces are modelled:

- **The `Sfmta` record** (`sfmta.dfy`, module `Records`). `Sfmta` is a mutable Java bean. Its
  constructor stores six values through the six setters, and each getter returns one field. It is
  modelled as a class with the same fields. `Record` is the value an object holds.
- **The insertion loop `createDummyData`** (`batches.dfy`, `loader.dfy`, modules `Batches` and
  `Loader`). The loop index `i` runs from `startIndex` while `i < startIndex + total`. The bound
  is computed in Java `int` arithmetic, so it wraps. Each pass builds one record with key `i` and
  speed `4.0f` and appends it to the buffer `rows`. When the buffer holds exactly 10000 records,
  it is handed to `kuduContext.insertRows` and cleared. `KuduSink.inserted` is an append-only log
  that stands in for the store. The loop is proved against two functions:
  - `Chunks`: the full batches of the generated sequence;
  - `Remainder`: what is left in the buffer.

  Lemmas about these two functions state what reaches the store: which keys, in which batch, how
  many batches, and which records are left behind.
- **The row rewrite** (`rewrite.dfy`, module `RowRewrite`). This is the `MapFunction` of the
  update stage. A Spark `Row` is a sequence of cells. The rewrite reads columns 0, 1, 2, 3 and 5
  with the typed getters and builds a new six-column row, with `10.0f` in column 4 (`speed`). Each
  getter throws in three cases:
  - the index is past the end of the row;
  - the value is null;
  - the value has another type.

  These faults are modelled as the `Err` side of a `Result`. The rewrite fails on the first
  column that cannot be read.

`Types` (in `types.dfy`) holds the Java `int` and `long` ranges, `int` addition with wrap-around
(`Wrap32`), and `Float32`. A `Float32` is the IEEE 754 bit pattern of a Java `float`. The model
only copies and compares floats, so it never interprets them. The two constants are
`4.0f = 0x40800000` and `10.0f = 0x41200000`.

The random values drawn for each record are a parameter, `draw: Int32 -> Draw`, indexed by the
loop index. These values are the vehicle tag, longitude, latitude and heading.

Where the job's evident purpose and its code part ways, the model follows the code:

- The job is meant to insert `total` rows: the comment at `PerformanceJob.java:43` calls `total`
  the "total number of generated rows", and the scan at `:85` reads those rows back. Yet the loop
  ends at `:74` with no flush of the partial last batch; see Findings.
- For `total <= 0` the loop simply does not run. The exception is a negative `total` that makes
  `startIndex + total` wrap below `Integer.MIN_VALUE`: then the loop runs at least 2^31 times
  (`ManyOnUnderflow`).
- The second scan at `:119-120` only calls `show()`; it checks nothing, so there is nothing of it
  to model.

## Model

| member | source | states |
|---|---|---|
| `Types.Wrap32` | src/main/java/com/zmousa/persist/PerformanceJob.java:61 | Java `int` addition: the result equals the true sum when it fits in 32 bits, and differs from it by a multiple of 2^32 otherwise |
| `Records.Sfmta.constructor` | src/main/java/com/zmousa/persist/PerformanceJob.java:134-141 | a new `Sfmta` built with `(a,b,c,d,e,f)` returns `a`..`f` from `getReport_time`, `getVehicle_tag`, `getLongitude`, `getLatitude`, `getSpeed`, `getHeading`; it holds exactly that record |
| `Records.Sfmta.GetReportTime` | src/main/java/com/zmousa/persist/PerformanceJob.java:143-145 | returns the `report_time` field of the record the object holds |
| `Records.Sfmta.GetVehicleTag` | src/main/java/com/zmousa/persist/PerformanceJob.java:151-153 | returns the `vehicle_tag` field of the record the object holds |
| `Records.Sfmta.GetLongitude` | src/main/java/com/zmousa/persist/PerformanceJob.java:159-161 | returns the `longitude` field of the record the object holds |
| `Records.Sfmta.GetLatitude` | src/main/java/com/zmousa/persist/PerformanceJob.java:167-169 | returns the `latitude` field of the record the object holds |
| `Records.Sfmta.GetSpeed` | src/main/java/com/zmousa/persist/PerformanceJob.java:175-177 | returns the `speed` field of the record the object holds |
| `Records.Sfmta.GetHeading` | src/main/java/com/zmousa/persist/PerformanceJob.java:183-185 | returns the `heading` field of the record the object holds |
| `Records.Sfmta.SetReportTime` | src/main/java/com/zmousa/persist/PerformanceJob.java:147-149 | sets `report_time`; the other five fields keep their values |
| `Records.Sfmta.SetVehicleTag` | src/main/java/com/zmousa/persist/PerformanceJob.java:155-157 | sets `vehicle_tag`; the other five fields keep their values |
| `Records.Sfmta.SetLongitude` | src/main/java/com/zmousa/persist/PerformanceJob.java:163-165 | sets `longitude`; the other five fields keep their values |
| `Records.Sfmta.SetLatitude` | src/main/java/com/zmousa/persist/PerformanceJob.java:171-173 | sets `latitude`; the other five fields keep their values |
| `Records.Sfmta.SetSpeed` | src/main/java/com/zmousa/persist/PerformanceJob.java:179-181 | sets `speed`; the other five fields keep their values |
| `Records.Sfmta.SetHeading` | src/main/java/com/zmousa/persist/PerformanceJob.java:187-189 | sets `heading`; the other five fields keep their values |
| `Batches.Chunks` | src/main/java/com/zmousa/persist/PerformanceJob.java:68-72 | the batches submitted while streaming number `|s| / 10000`, and every one holds exactly 10000 records |
| `Batches.Remainder` | src/main/java/com/zmousa/persist/PerformanceJob.java:68-72 | the records still buffered after a stream number `|s| % 10000`, so fewer than 10000 |
| `Batches.RemainderIsSuffix` | src/main/java/com/zmousa/persist/PerformanceJob.java:60-74 | the buffer left over is the last `|s| % 10000` records of the stream |
| `Batches.ChunksThenRemainder` | src/main/java/com/zmousa/persist/PerformanceJob.java:60-74 | the submitted batches, concatenated, are the first `10000 * (|s| / 10000)` records in order; followed by the leftover buffer they give back the whole stream |
| `Batches.ChunkAt` | src/main/java/com/zmousa/persist/PerformanceJob.java:68-72 | batch `k` (0-based) is exactly the slice `[10000k, 10000(k+1))` of the stream |
| `Batches.ChunksSnoc` | src/main/java/com/zmousa/persist/PerformanceJob.java:62-73 | appending one record either completes a 10000-record batch, which is submitted and leaves the buffer empty, or grows the buffer by that record and submits nothing |
| `Batches.StreamingLosesTail` | src/main/java/com/zmousa/persist/PerformanceJob.java:61-76 | when the stream length is not a multiple of 10000, the submitted records are strictly fewer than the stream, so some are never submitted |
| `Batches.AllBatchesCover` | src/main/java/com/zmousa/persist/PerformanceJob.java:61-76 | with a final flush, the batches concatenate to the whole stream in order; there are `ceil(|s| / 10000)` of them, all non-empty and at most 10000 long, all but the last exactly 10000 |
| `Loader.KuduSink.InsertRows` | src/main/java/com/zmousa/persist/PerformanceJob.java:69-71 | an insert call appends the whole buffer, as one batch, to the store's log |
| `Loader.CreateDummyData` | src/main/java/com/zmousa/persist/PerformanceJob.java:55-77 | the loop appends exactly `Chunks` of the generated records to the store's log and ends with `Remainder` of them in the buffer, which is never submitted |
| `Loader.CreateDummyDataFlushed` | src/main/java/com/zmousa/persist/PerformanceJob.java:61-76 | corrected loader: the same loop followed by a flush of a non-empty buffer appends `AllBatches` of the generated records to the log |
| `Loader.Bound` | src/main/java/com/zmousa/persist/PerformanceJob.java:61 | the loop bound `startIndex + total` as Java computes it in `int`: the true sum when it fits, the sum minus 2^32 on overflow, the sum plus 2^32 on underflow |
| `Loader.NewRecord` | src/main/java/com/zmousa/persist/PerformanceJob.java:62-67 | the record built for loop index `i`: key `i` widened to `long`, speed `4.0f`, and the drawn vehicle tag, longitude, latitude and heading |
| `Loader.Generated` | src/main/java/com/zmousa/persist/PerformanceJob.java:61-67 | the records the loop builds while its index runs over `[lo, hi)`: one per index, in index order, none when `hi <= lo` |
| `Loader.GeneratedSnoc` | src/main/java/com/zmousa/persist/PerformanceJob.java:61-67 | one more pass of the loop appends the record for that index |
| `Loader.GeneratedSlice` | src/main/java/com/zmousa/persist/PerformanceJob.java:61-67 | each slice of the generated records is what the loop builds over the matching index sub-range |
| `Loader.GeneratedKeys` | src/main/java/com/zmousa/persist/PerformanceJob.java:61-67 | the loop builds `hi - lo` records, or none when `hi <= lo`; record `j` has key `lo + j` (the index widened to `long`) and speed `4.0f`; keys strictly ascend |
| `Loader.GeneratedKeySet` | src/main/java/com/zmousa/persist/PerformanceJob.java:61-62 | the set of generated keys is exactly `[lo, hi)`; with ascending keys each appears exactly once |
| `Loader.CountWithoutOverflow` | src/main/java/com/zmousa/persist/PerformanceJob.java:61-72 | if `startIndex + total` fits in an `int` and `total >= 0`: `total` records are built, `total / 10000` batches are submitted and `total % 10000` records stay buffered |
| `Loader.NothingForNonPositiveTotal` | src/main/java/com/zmousa/persist/PerformanceJob.java:61 | `total <= 0` without wrap-around builds nothing, submits nothing and leaves the buffer empty |
| `Loader.NothingOnOverflow` | src/main/java/com/zmousa/persist/PerformanceJob.java:61 | if `startIndex + total` overflows past `Integer.MAX_VALUE`, the bound wraps below `startIndex` and nothing is built |
| `Loader.ManyOnUnderflow` | src/main/java/com/zmousa/persist/PerformanceJob.java:61 | if `startIndex + total` underflows, `total` is negative and the loop still builds `total + 2^32` records, at least 2^31 |
| `Loader.BatchKeys` | src/main/java/com/zmousa/persist/PerformanceJob.java:61-72 | submitted batch `k` holds 10000 records with keys `startIndex + 10000k + j`, for `j` from 0 to 9999 in order; so batches are contiguous and disjoint |
| `Loader.InsertedKeys` | src/main/java/com/zmousa/persist/PerformanceJob.java:61-76 | without overflow, the keys that reach the store are exactly the first `total - total % 10000` keys of the range |
| `Loader.UnflushedKeys` | src/main/java/com/zmousa/persist/PerformanceJob.java:61-76 | without overflow, the last `total % 10000` keys of the range are exactly the keys left in the never-submitted buffer |
| `Loader.PartialBatchLost` | src/main/java/com/zmousa/persist/PerformanceJob.java:61-76 | for `startIndex = 0` and `total = 10001` the job as written makes one insert call; the record with key 10000 stays in the buffer and never reaches the store |
| `Loader.PartialBatchFlushed` | src/main/java/com/zmousa/persist/PerformanceJob.java:61-76 | with the final flush, the same input gives two insert calls, of 10000 records and of 1 record, and every key in `[0, 10001)` reaches the store |
| `RowRewrite.Get` | src/main/java/com/zmousa/persist/PerformanceJob.java:103 | `row.getLong/getInt/getFloat(i)` returns the cell when column `i` exists and has the requested type; otherwise it throws index-out-of-bounds past the end, a null-value fault on null, or a wrong-type fault |
| `RowRewrite.Rewrite` | src/main/java/com/zmousa/persist/PerformanceJob.java:100-106 | succeeds exactly when columns 0, 1, 2, 3 and 5 hold values of their schema types. The result has six columns, typed as the table schema. Column 4 is `10.0f` and every other column equals the input. On failure, the fault names the first unreadable column in reading order, with the right kind |
| `RowRewrite.TableRow` | src/main/java/com/zmousa/persist/PerformanceJob.java:90-96 | the row stored for a record has the table's six columns in schema order and types, with the record's key in column 0 and its speed in column 4 |
| `RowRewrite.RewriteStoredRecord` | src/main/java/com/zmousa/persist/PerformanceJob.java:103 | rewriting the stored row of a record gives the stored row of the same record with only the speed changed to `10.0f` |
| `RowRewrite.RewriteIdempotent` | src/main/java/com/zmousa/persist/PerformanceJob.java:103 | rewriting a rewritten row gives the same row: the speed is set, not incremented |
| `RowRewrite.RewriteIgnoresSpeed` | src/main/java/com/zmousa/persist/PerformanceJob.java:103 | the result does not depend on what column 4 held before, even a null or a value of another type |
| `RowRewrite.RewriteGenerated` | src/main/java/com/zmousa/persist/PerformanceJob.java:103 | every generated record has speed `4.0f`; its stored row rewrites successfully, keeps its key and gets speed `10.0f` |

## Findings

| source | as written | input that shows it | evidently intended | confidence | as-written member | corrected member |
|---|---|---|---|---|---|---|
| src/main/java/com/zmousa/persist/PerformanceJob.java:61-76 | the buffer is submitted only when it reaches exactly 10000 records, and nothing is flushed after the loop | `startIndex = 0`, `total = 10001`: one insert call of 10000 records; the record with key 10000 is never inserted | after the loop, a non-empty buffer is submitted as a final partial batch, so every generated record is inserted once | high; not executed | `Loader.PartialBatchLost` (with `Loader.CreateDummyData`, `Batches.StreamingLosesTail`) | `Loader.CreateDummyDataFlushed` (with `Batches.AllBatchesCover`, `Loader.PartialBatchFlushed`) |

## Left out

- Spark and Kudu session and context setup are not modelled; they are foreign library code. This covers `parallelize`, `createDataFrame`, the SQL scans `WHERE speed = 4` and `WHERE speed = 10`, `kuduContext.updateRows`, and `show()`. An insert is modelled only as an append to the ghost log `KuduSink.inserted`.
- The scan and update stage is modelled only through the rewrite of a single row. The map over the whole scanned set and Spark's parallel execution of it are not modelled.
- Failing store calls are not modelled; the job would abort on the first exception.
- The random field values (`ThreadLocalRandom`, float arithmetic over `Float.MIN_VALUE`..`Float.MAX_VALUE`) are a `draw` parameter. It is not constrained to what the generator can produce. For example, `nextInt(Integer.MIN_VALUE, Integer.MAX_VALUE)` never yields `Integer.MAX_VALUE`, but `draw` may.
- Console logging, `SimpleDateFormat` timestamps and the parsing of the two command-line arguments are not modelled. `startIndex` and `total` are any 32-bit values.
- Records.Sfmta.SetReportTime: the Java field is a boxed `Long` that a caller could set to null. The model's key is always a 64-bit value; the job itself never passes null.
- Loader.CreateDummyData: the buffer holds the value of each new `Sfmta` object rather than a reference to it. Nothing changes those objects after they are added, so aliasing is not modelled. The buffer is local to `createDummyData` and dropped on return; the model returns it as `unflushed`.
- RowRewrite.TableRow: the mapping from a bean-encoded `DataFrame` to the table's columns is done by name inside `insertRows`. The model takes it as the identity on the six fields.
- Float equality follows bit patterns, not IEEE comparison (NaN, signed zero). The model only copies floats and compares them with the constants `4.0f` and `10.0f`.
