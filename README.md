# Airline survey knowledge graph: a verified model

`Milestone_02/create_kg.py` loads airline-survey rows from a CSV file into a
Neo4j property graph: Airport, Flight, Passenger and Journey nodes joined by
DEPARTS_FROM, ARRIVES_AT, TOOK and ON relationships. It writes them with one
`MERGE`/`SET` statement sent in batches of 500 rows.
`Milestone_02/validate_queries.py` runs five aggregate queries and compares their
results, position by position, with hard-coded baselines. It uses a relative
tolerance of 1e-9 for floats.

The model covers the logic of both files that does not need the database:

- `config.dfy` (module `Config`): `load_config`. Both files define it with the
  same code (`create_kg.py:7-18`, `validate_queries.py:6-17`).
  - The method `LoadConfig` runs the source's loop over the lines.
  - `ConfigOf` is the dictionary that loop builds.
  - `ParseLine` models `line.strip().split('=', 1)`, with Python's whitespace
    set written out.
- `records.dfy` (module `Records`):
  - the `missing` comprehension over the 13 required columns;
  - the DataFrame as `pd.read_csv` gives it: a cell is text, a number or NaN;
  - the `row_data` mapping of one row to a 13-field `Record`, which applies
    `fillna(0)` cell by cell.
  A text column in which no row holds text is read by pandas as floats. Its
  NaNs become 0.0, and `str()` turns them into "0.0". In a column that holds
  text they become the integer 0, which reads as "0". `FloatColumns` says
  which columns are read as floats.
- `batching.dfy` (module `Batching`): `Chunks`, the batches a 500-row
  accumulate-and-flush loop sends, and their laws.
- `graph.dfy` (module `KnowledgeGraph`): the meaning of `import_query`.
  - The graph is a set of keys per label: a map from key to attributes for
    Passenger and Journey, and a set of key pairs per relationship type.
  - `UpsertRow` is one pass of the script over one row. `UpsertAll` applies
    the rows of `UNWIND $batch` in order.
  - The class `GraphStore` holds that state in mutable fields. Its methods
    `MergeRow` and `RunImport` perform the merges one row at a time and are
    proved against `UpsertRow`/`UpsertAll`.
- `loader.dfy` (module `Loader`): the class `AirlineGraphBuilder`.
  - `LoadCsvData` models `load_csv_data`: the header check, the early
    return, one session opened.
  - `ImportRecords` keeps the source's `batch` list and its `>= 500` flush
    test.
  - Both are proved to send exactly `Chunks(records, 500)` and to leave the
    store equal to `UpsertAll` of the records.
- `compare.dfy` (module `Compare`): `compare_results`.
  - Values are `VInt | VReal | VStr | VNone`; a result row is a sequence of
    (column, value) pairs.
  - `math.isclose(rel_tol=1e-9)` is taken exactly over the reals, with the
    default `abs_tol = 0`: `|a-b| <= 1e-9 * max(|a|,|b|)`.
  - The method `CompareResults` runs the source's two loops, with
    `all_match`, `row_match` and the `break`.
  - It is proved equal to the function `VerdictOf`: `Pass`, or `Fail` with
    either the length mismatch or the list of reported mismatches.
- `baselines.dfy` (module `Baselines`):
  - the five `EXPECTED_RESULTS` tables;
  - the `RETURN`, `ORDER BY` and `LIMIT` clauses of the five `QUERIES`;
  - proofs that each baseline is an answer its query can give, and that it
    passes when compared with itself.

In these places the model follows the code exactly:

- **Mismatches:** `compare_results` stops checking a row at its first
  mismatching key (`break`). It does not go on to every field.
- **Float tolerance:** the tolerance applies only when the actual value is
  also an `int` or a `float`. Otherwise `!=` decides.
- **Integer coercion:** the journey numbers are coerced by `toInteger` inside
  the statement only. `row_data` passes them on unconverted.
- **Return value:** the function returns `False` on a length mismatch and
  nothing otherwise. The outcome is what it prints, PASS or FAIL, and
  `VerdictOf` models that outcome.

Query 2 declares no tie-break on `feedback_count`. Flights 86 and 27 tie at 12,
so the baseline fixes one order that the query does not promise:
- `TieSwappedConsistent` shows the other order is an equally valid answer;
- `TieSwappedFails` shows that answer is judged FAIL.

Some members are plain definitions: they carry no contract of their own, and
the lemmas below state what they mean.
- `Config.Step` is one loop step (`create_kg.py:12-14`).
- `Batching.Flatten` is the concatenation of the batches.
- `KnowledgeGraph.FlightPart` and `JourneyPart` are the flight clauses and the
  passenger/journey clauses of the statement (`create_kg.py:79-88`, `90-102`).
- `KnowledgeGraph.JourneyOf` is the Journey's attributes after
  `SET j.* = toInteger(...)` (`create_kg.py:95-99`).
- `KnowledgeGraph.ApplyBatches` is one write per batch (`create_kg.py:129-135`).
- `Records.TextValue` and `NumberValue` read one cell (`create_kg.py:111-125`).
- `Records.Missing` is the comprehension (`create_kg.py:63`).
- `Records.WellShaped` is the table shape described under "Left out".
- `Baselines.Consistent`, `InOrder` and `SortedBy` are the row count, columns
  and `ORDER BY` check of a baseline (`validate_queries.py:75-107`).

## Model

| member | source | states |
|---|---|---|
| Config.Strip | Milestone_02/create_kg.py:13 | `line.strip()`: the result neither starts nor ends with whitespace and keeps every non-whitespace character of the line |
| Config.FirstEquals | Milestone_02/create_kg.py:13 | the split point of `split('=', 1)` is an '=' with no '=' before it |
| Config.ParseLine | Milestone_02/create_kg.py:12-13 | a line yields a pair exactly when it contains '='; the key holds no '=' and key + "=" + value is the stripped line, so the value may hold further '=' |
| Config.ConfigOf | Milestone_02/create_kg.py:11-14 | the dictionary the loop builds: no key contains '=' |
| Config.ConfigSnoc | Milestone_02/create_kg.py:11-14 | reading one more line is one more loop step: no change without '=', else `config[key] = value` |
| Config.LoadConfig | Milestone_02/create_kg.py:7-18 | a missing file gives `None`; otherwise the loop builds exactly `ConfigOf` of the lines |
| Config.ConfigKeys | Milestone_02/create_kg.py:11-14 | a key is in the dictionary exactly when some line assigns it |
| Config.ConfigLastWins | Milestone_02/create_kg.py:14 | the value of a key is the one from the last line that assigns it |
| Config.ConfigIgnoresLinesWithoutEquals | Milestone_02/create_kg.py:12 | removing a line without '=' anywhere in the file leaves the dictionary unchanged |
| Records.MissingFrom | Milestone_02/create_kg.py:63 | `missing` holds exactly the required columns absent from the header, in required order, and is empty exactly when all are present |
| Records.MissingExactlyOne | Milestone_02/create_kg.py:63 | when exactly one required column is absent, `missing` is that column alone |
| Records.MissingFeedbackId | Milestone_02/create_kg.py:55-63 | a header of the first twelve required columns reports `['feedback_ID']` |
| Records.RowsFit | Milestone_02/create_kg.py:63-70 | once `missing` is empty, every row holds all 13 columns with cells of the right kind, so the mapping never fails |
| Records.ToRecord | Milestone_02/create_kg.py:111-125 | `row_data` holds, under each text key, `str()` of that same column's cell, and under each numeric key that column's number, with NaN read as `fillna(0)` makes it |
| Records.RecordUsesRequiredColumnsOnly | Milestone_02/create_kg.py:111-125 | the record depends on the 13 required cells only; other CSV columns are dropped |
| Records.BlankReadsAsZero | Milestone_02/create_kg.py:70 | after `fillna(0)`, a NaN food score reads as 0. A NaN loyalty level reads as "0" when some row of the column holds text, and as "0.0" when none does |
| Records.BlankNumbersReadAsZero | Milestone_02/create_kg.py:70 | after `fillna(0)`, every NaN journey number of a row reads as 0 in its record |
| Records.RecordsOf | Milestone_02/create_kg.py:109-125 | one record per row, in row order, each the row's mapping under the column types of the whole table |
| Batching.Chunks | Milestone_02/create_kg.py:105-136 | the batches flushed for the rows: none exactly when there are no rows |
| Batching.ChunksFlatten | Milestone_02/create_kg.py:105-136 | the batches sent, concatenated, are the rows in order |
| Batching.ChunksSizes | Milestone_02/create_kg.py:129-136 | every batch has 1 to n rows, so none is empty; all but the last have exactly n |
| Batching.ChunksCount | Milestone_02/create_kg.py:129-135 | the number of batches is the ceiling of rows / n |
| Batching.ChunksCount500 | Milestone_02/create_kg.py:105 | with n = 500 there are (rows + 499) / 500 writes, none for zero rows |
| Batching.ChunksAppend | Milestone_02/create_kg.py:129-131 | after whole batches, the batches of the rest follow those of the prefix |
| Batching.ChunksOfShort | Milestone_02/create_kg.py:134-135 | a non-empty remainder of at most n rows is sent as one batch |
| KnowledgeGraph.Truncate | Milestone_02/create_kg.py:95-98 | `toInteger` truncates toward zero: the result lies within one of the number, on the zero side |
| KnowledgeGraph.UpsertRow | Milestone_02/create_kg.py:79-102 | one pass of the script over a row: the row's two airports, its flight, passenger and journey are nodes afterwards; no node or relationship is removed; every relationship still joins two existing nodes |
| KnowledgeGraph.UpsertAll | Milestone_02/create_kg.py:77 | the rows of `UNWIND $batch` applied in order never remove a node or a relationship |
| KnowledgeGraph.UpsertRowInTwoParts | Milestone_02/create_kg.py:79-102 | the flight clauses and the passenger/journey clauses of the script change disjoint parts of the graph |
| KnowledgeGraph.UpsertAllSnoc | Milestone_02/create_kg.py:77 | `UNWIND` applies one more row after the ones before it |
| KnowledgeGraph.UpsertAllAppend | Milestone_02/create_kg.py:129-135 | writing rows `a` then rows `b` is writing `a + b` |
| KnowledgeGraph.ApplyBatchesFlatten | Milestone_02/create_kg.py:129-135 | running batches one after another is applying their concatenation |
| KnowledgeGraph.BatchSizeInvariance | Milestone_02/create_kg.py:105-136 | the final graph is the left fold of single-row upserts, the same for every batch size |
| KnowledgeGraph.AirportsSeen | Milestone_02/create_kg.py:79-80 | Airport nodes are the earlier ones plus exactly the origin and destination codes of the rows |
| KnowledgeGraph.FlightsSeen | Milestone_02/create_kg.py:82-85 | Flight nodes are the earlier ones plus exactly the (flight_number, fleet_type_description) pairs of the rows |
| KnowledgeGraph.PassengersSeen | Milestone_02/create_kg.py:90 | Passenger nodes are the earlier ones plus exactly the record locators of the rows |
| KnowledgeGraph.JourneysSeen | Milestone_02/create_kg.py:94 | Journey nodes are the earlier ones plus exactly the feedback IDs of the rows |
| KnowledgeGraph.FlightRelationshipsSeen | Milestone_02/create_kg.py:87-88 | DEPARTS_FROM and ARRIVES_AT hold the earlier pairs plus exactly the (flight, origin) and (flight, destination) pairs of the rows |
| KnowledgeGraph.JourneyRelationshipsSeen | Milestone_02/create_kg.py:101-102 | TOOK and ON hold the earlier pairs plus exactly the (passenger, journey) and (journey, flight) pairs of the rows |
| KnowledgeGraph.UpsertKeepsWellFormed | Milestone_02/create_kg.py:79-102 | every relationship joins two existing nodes, before and after any rows |
| KnowledgeGraph.PassengerLastWrite | Milestone_02/create_kg.py:90-92 | a Passenger's attributes are those of the last row with its record locator |
| KnowledgeGraph.JourneyLastWrite | Milestone_02/create_kg.py:94-99 | a Journey's attributes are those of the last row with its feedback ID |
| KnowledgeGraph.UntouchedAttributes | Milestone_02/create_kg.py:90-99 | a Passenger or Journey that no row names keeps its attributes |
| KnowledgeGraph.UpsertRowIsOverlay | Milestone_02/create_kg.py:79-102 | one row adds its own nodes and pairs, and its attributes overwrite the earlier ones |
| KnowledgeGraph.UpsertAllIsOverlay | Milestone_02/create_kg.py:76-103 | rows applied to any graph lay the graph they make on an empty store over it |
| KnowledgeGraph.UpsertIdempotent | Milestone_02/create_kg.py:76-103 | loading the same rows a second time changes nothing |
| KnowledgeGraph.TwoRows | Milestone_02/create_kg.py:77 | two rows are applied first row first |
| KnowledgeGraph.FleetTypeSeparatesFlights | Milestone_02/create_kg.py:82-85 | one flight number with two fleet types gives two Flight nodes |
| KnowledgeGraph.OnePassengerTwoJourneys | Milestone_02/create_kg.py:90-102 | one record locator on two journeys gives one Passenger, two Journeys, two TOOK and two ON relationships |
| KnowledgeGraph.GraphStore.OpenSession | Milestone_02/create_kg.py:108 | opening the session changes no graph state and writes nothing |
| KnowledgeGraph.GraphStore.MergeFlight | Milestone_02/create_kg.py:79-88 | the two Airport merges, the Flight merge and DEPARTS_FROM/ARRIVES_AT update the store's fields as `FlightPart` |
| KnowledgeGraph.GraphStore.MergeJourney | Milestone_02/create_kg.py:90-102 | the Passenger and Journey merges with their SETs, and TOOK/ON, update the store's fields as `JourneyPart` |
| KnowledgeGraph.GraphStore.MergeRow | Milestone_02/create_kg.py:79-102 | the store after one row is `UpsertRow` of the store before |
| KnowledgeGraph.GraphStore.RunImport | Milestone_02/create_kg.py:130 | one `session.run`: the store becomes `UpsertAll` of the batch, stays well formed and records the one write |
| Loader.LoadedRecords | Milestone_02/create_kg.py:109-125 | the records of a checked table: one per row, each the row's mapping |
| Loader.FlushFull | Milestone_02/create_kg.py:129-131 | flushing the k-th full batch extends both the writes and the graph by that batch |
| Loader.FlushRest | Milestone_02/create_kg.py:134-136 | the remainder completes the batches of all rows and the graph of all rows |
| Loader.AirlineGraphBuilder.LoadCsvData | Milestone_02/create_kg.py:43-136 | a missing file or missing column leaves the store untouched and reports why; otherwise one session, the writes `Chunks(records, 500)`, and the graph `UpsertAll` of the records |
| Loader.AirlineGraphBuilder.ImportRecords | Milestone_02/create_kg.py:105-136 | the accumulate/flush loop sends exactly `Chunks(records, 500)` and leaves `UpsertAll` of the records |
| Loader.AirlineGraphBuilder.WriteFullBatch | Milestone_02/create_kg.py:129-131 | a full batch written after k batches leaves the store as after k + 1 |
| Loader.AirlineGraphBuilder.WriteLastBatch | Milestone_02/create_kg.py:134-136 | the `if batch:` remainder write completes all batches, with no write when it is empty |
| Compare.Get | Milestone_02/validate_queries.py:122 | `act_row.get(key)`: a value other than `None` is an entry of the row under that key |
| Compare.PyEquals | Milestone_02/validate_queries.py:129 | Python `==`: every value equals itself, and a string or `None` equals only a value of its own kind |
| Compare.IsClose | Milestone_02/validate_queries.py:126 | `isclose` with `abs_tol` 0: every number is close to itself, only 0 is close to 0, and close numbers have the same sign |
| Compare.Agrees | Milestone_02/validate_queries.py:125-130 | every value agrees with itself; a value agrees with a non-float baseline only if it is `==` to it; strings and `None` agree only with their own kind |
| Compare.FirstFailure | Milestone_02/validate_queries.py:121-135 | the key where a row's check stops lies among the remaining expected keys; `FirstFailureIsFirst` gives its meaning |
| Compare.FirstFailureIsFirst | Milestone_02/validate_queries.py:121-135 | the inner loop stops at the first key the actual row disagrees on, and finds none exactly when all agree |
| Compare.RowReport | Milestone_02/validate_queries.py:132-135 | a row's mismatch, if any, is reported under that row's index; `RowReportIsFirstMismatch` gives its meaning |
| Compare.RowReportIsFirstMismatch | Milestone_02/validate_queries.py:120-135 | a row reports nothing when all expected keys agree; otherwise it reports exactly one mismatch: the first bad key with expected and actual values |
| Compare.Report | Milestone_02/validate_queries.py:132-135 | the first `n` rows print at most `n` mismatches, one per row at most |
| Compare.VerdictOf | Milestone_02/validate_queries.py:114-116 | the verdict is a length mismatch exactly when the lengths differ, carrying both lengths |
| Compare.CompareResults | Milestone_02/validate_queries.py:111-140 | the loops with `all_match`, `row_match` and `break` compute exactly `VerdictOf` |
| Compare.ReportedRowsFail | Milestone_02/validate_queries.py:119-135 | every reported mismatch is the report of one earlier-compared row |
| Compare.ReportRowsIncrease | Milestone_02/validate_queries.py:132-135 | reported rows strictly increase, so each row is reported at most once |
| Compare.FailingRowsReported | Milestone_02/validate_queries.py:119-135 | later rows are still checked: every failing row's mismatch is reported |
| Compare.ReportEmpty | Milestone_02/validate_queries.py:118-137 | nothing is reported exactly when every expected key of every row agrees |
| Compare.VerdictPassIff | Milestone_02/validate_queries.py:114-140 | PASS exactly when the lengths match and every expected key of every row agrees |
| Compare.OnlyExpectedKeysMatter | Milestone_02/validate_queries.py:121-122 | two actual results that agree on the expected keys get the same verdict; extra keys are ignored |
| Compare.GetIgnoresOtherEntries | Milestone_02/validate_queries.py:122 | adding entries under other keys does not change what `get` returns |
| Compare.MissingKeyDisagrees | Milestone_02/validate_queries.py:122-130 | a key absent from the actual row reads as `None` and disagrees with any other expected value |
| Compare.GetOwnEntry | Milestone_02/validate_queries.py:122 | in a row with distinct keys, `get` returns each entry's own value |
| Compare.AgreesWithItself | Milestone_02/validate_queries.py:125-130 | every value agrees with itself |
| Compare.SelfComparePasses | Milestone_02/validate_queries.py:118-137 | any expected result compared with itself passes |
| Compare.LastDigitWithinTolerance | Milestone_02/validate_queries.py:125-127 | 2.791164658634539 agrees with the baseline 2.7911646586345387 |
| Compare.HundredthOutsideTolerance | Milestone_02/validate_queries.py:125-127 | that baseline plus 0.01 does not agree with it |
| Compare.StringIsNotNumber | Milestone_02/validate_queries.py:129-130 | a string never equals a number, while 42.0 and 42 agree in both directions |
| Baselines.SortedAllPairs | Milestone_02/validate_queries.py:78 | an answer sorted on consecutive rows has every earlier row in order before every later one |
| Baselines.Baseline1Columns | Milestone_02/validate_queries.py:21-27 | every row of baseline 1 has the columns query 1 returns, in order |
| Baselines.Baseline1Sorted | Milestone_02/validate_queries.py:78 | baseline 1 is sorted by `flight_count` descending, then `origin` descending |
| Baselines.Baseline1Consistent | Milestone_02/validate_queries.py:75-79 | baseline 1 is an answer query 1 can give: 5 rows, its columns, its order |
| Baselines.Baseline2Columns | Milestone_02/validate_queries.py:28-39 | every row of baseline 2 has the columns query 2 returns |
| Baselines.Baseline2Sorted | Milestone_02/validate_queries.py:85 | baseline 2 is sorted by `feedback_count` descending |
| Baselines.Baseline2Consistent | Milestone_02/validate_queries.py:83-86 | baseline 2 is an answer query 2 can give: 10 rows, its columns, its order |
| Baselines.Baseline3Columns | Milestone_02/validate_queries.py:40-46 | every row of baseline 3 has the columns query 3 returns |
| Baselines.Baseline3Sorted | Milestone_02/validate_queries.py:94 | baseline 3 is sorted by `multi_leg_count` descending |
| Baselines.Baseline3Consistent | Milestone_02/validate_queries.py:91-94 | baseline 3 is an answer query 3 can give |
| Baselines.Baseline4Columns | Milestone_02/validate_queries.py:47-58 | every row of baseline 4 has the columns query 4 returns |
| Baselines.Baseline4Sorted | Milestone_02/validate_queries.py:100 | baseline 4 is sorted by `avg_arrival_delay` ascending |
| Baselines.Baseline4Consistent | Milestone_02/validate_queries.py:98-101 | baseline 4 is an answer query 4 can give: 10 rows, its columns, its order |
| Baselines.Baseline5Columns | Milestone_02/validate_queries.py:59-67 | every row of baseline 5 has the columns query 5 returns |
| Baselines.Baseline5Sorted | Milestone_02/validate_queries.py:107 | baseline 5 is sorted by `avg_actual_flown_miles` descending |
| Baselines.Baseline5Consistent | Milestone_02/validate_queries.py:105-107 | baseline 5 is an answer query 5 can give |
| Baselines.Baseline1PassesAgainstItself | Milestone_02/validate_queries.py:21-27 | baseline 1 compared with itself passes |
| Baselines.Baseline2PassesAgainstItself | Milestone_02/validate_queries.py:28-39 | baseline 2 compared with itself passes |
| Baselines.Baseline3PassesAgainstItself | Milestone_02/validate_queries.py:40-46 | baseline 3 compared with itself passes |
| Baselines.Baseline4PassesAgainstItself | Milestone_02/validate_queries.py:47-58 | baseline 4 compared with itself passes |
| Baselines.Baseline5PassesAgainstItself | Milestone_02/validate_queries.py:59-67 | baseline 5 compared with itself passes |
| Baselines.TieSwappedConsistent | Milestone_02/validate_queries.py:85-86 | baseline 2 with the tied flights 86 and 27 exchanged is still an answer query 2 can give |
| Baselines.TieSwappedFails | Milestone_02/validate_queries.py:28-39 | that equally valid answer is judged FAIL against baseline 2 |

## Left out

- The Neo4j driver, `close`, `clear_database` and `create_constraints` are foreign calls. The store starts cleared (`GraphStore` constructor), the constraints are not modelled, and sessions are only counted.
- Running the five queries: matching, `count`, `avg`, `toInteger(f.flight_number)` and sorting all happen inside the database. Only the baselines' agreement with `RETURN`, `ORDER BY` and `LIMIT` is modelled.
- The file system: `os.path.exists`, `open` and `pd.read_csv` become inputs. The CSV is an `Option<Table>`, the config file an `Option` of its lines.
- `LoadCsvData` assumes a `WellShaped` table: every row has the header's columns, and each required column that is present holds cells of its own kind. Text columns hold text or NaN; numeric columns hold numbers or NaN. This is an assumption of the model, not a guarantee of `pd.read_csv`.
- A text cell in a numeric column is outside `WellShaped`. pandas then reads the whole column as strings, and `row_data` passes them on. `toInteger` turns numeric text into an integer and other text into null, and `SET` to null removes the property. None of that is modelled.
- `str()` of a number read into a text column (such as a float-formatted flight number) is not modelled. Such tables are outside `WellShaped`. NaN cells in text columns are modelled, including the "0.0" of a column pandas reads as floats because no row holds text there.
- IEEE-754 floats (NaN, infinity, rounding) are not modelled. Numbers are exact reals and integers, and `isclose` is its exact formula.
- Python's `bool` is not a value here. In Python it would pass `isinstance(..., int)`.
- A DataFrame row or result record is a map or a sequence of pairs. `Get` returns the first entry with the key, and the result's dictionaries have distinct keys.
- The mapping is done before the batching loop (`RecordsOf`), not inside it. No step of the mapping can fail or depend on the loop's state, so the records sent are the same.
- The statement's clauses are applied row by row over `UNWIND`. Cypher's handling of an `UNWIND` inside one transaction is taken to be that sequential order.
- Printing, progress messages, `__main__`, `run_validation` (including its `if not config` early return) and the blanket `except` are left out. They are control shells.
- `compare_results` returns `False` or nothing; that value is left out, and `VerdictOf` models the printed outcome.
- Failures inside the store (connectivity, a failed transaction) are left out. So is transaction atomicity, since the model has no failing write.
- Config.Strip: its contract says the result has no outer whitespace and keeps every non-whitespace character. It does not say the result is a contiguous slice, although the body takes one.
- Compare.FirstFailure and Compare.RowReport carry only bounds on their results. Their meaning is stated in `FirstFailureIsFirst` and `RowReportIsFirstMismatch`.
