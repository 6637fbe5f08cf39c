/**
 * The front end of `AirlineGraphBuilder.load_csv_data` in create_kg.py: the
 * required-column check on the CSV header and the mapping of each DataFrame
 * row to the 13-field record sent to the graph store.
 */
module Records {

  /** The columns the loader demands, in the order it lists them. */
  const RequiredColumns: seq<string> := [
    "origin_station_code", "destination_station_code", "flight_number",
    "fleet_type_description", "record_locator", "loyalty_program_level",
    "generation", "food_satisfaction_score", "arrival_delay_minutes",
    "actual_flown_miles", "number_of_legs", "passenger_class", "feedback_ID"
  ]

  /** The required columns whose values are sent as text. */
  const TextColumns: set<string> := {
    "origin_station_code", "destination_station_code", "flight_number",
    "fleet_type_description", "record_locator", "loyalty_program_level",
    "generation", "passenger_class", "feedback_ID"
  }

  /** The required columns whose values are sent as numbers. */
  const NumericColumns: set<string> := {
    "food_satisfaction_score", "arrival_delay_minutes", "actual_flown_miles", "number_of_legs"
  }

  /** `xs` is `ys` with some elements left out, order kept. */
  predicate Subsequence(xs: seq<string>, ys: seq<string>)
    decreases |ys|
  {
    if xs == [] then true
    else if ys == [] then false
    else if xs[0] == ys[0] then Subsequence(xs[1..], ys[1..])
    else Subsequence(xs, ys[1..])
  }

  /** The elements of `required` that `columns` lacks, in the order of `required`. */
  function MissingFrom(required: seq<string>, columns: seq<string>): (m: seq<string>)
    ensures forall c :: c in m <==> c in required && c !in columns
    ensures Subsequence(m, required)
    ensures m == [] <==> forall c :: c in required ==> c in columns
  {
    if required == [] then []
    else if required[0] in columns then MissingFrom(required[1..], columns)
    else [required[0]] + MissingFrom(required[1..], columns)
  }

  /** The `missing` list of the loader for a header `columns`. */
  function Missing(columns: seq<string>): (m: seq<string>)
  {
    MissingFrom(RequiredColumns, columns)
  }

  /** The loader's list names no column twice. */
  predicate NoRepeats(xs: seq<string>)
  {
    forall i, j :: 0 <= i < j < |xs| ==> xs[i] != xs[j]
  }

  /** When the header lacks exactly one required column, that column alone is reported. */
  lemma {:induction false} MissingExactlyOne(required: seq<string>, columns: seq<string>, c: string)
    requires NoRepeats(required) && c in required && c !in columns
    requires forall x :: x in required && x != c ==> x in columns
    ensures MissingFrom(required, columns) == [c]
  {
    var rest := required[1..];
    assert NoRepeats(rest);
    if required[0] == c {
      assert forall x :: x in rest ==> x != c by {
        forall x | x in rest ensures x != c {
          var j :| 0 <= j < |rest| && rest[j] == x;
          assert required[j + 1] == x;
        }
      }
      assert MissingFrom(rest, columns) == [];
    } else {
      assert c in rest;
      MissingExactlyOne(rest, columns, c);
    }
  }

  /** A header without `feedback_ID` is reported as missing exactly that column. */
  lemma MissingFeedbackId()
    ensures Missing(RequiredColumns[..12]) == ["feedback_ID"]
  {
    assert RequiredColumns[12] == "feedback_ID";
    assert NoRepeats(RequiredColumns);
    assert forall x :: x in RequiredColumns && x != "feedback_ID" ==> x in RequiredColumns[..12];
    MissingExactlyOne(RequiredColumns, RequiredColumns[..12], "feedback_ID");
  }

  /** A DataFrame cell: text, a number (pandas reads numbers as floats), or NaN. */
  datatype Cell = Text(s: string) | Number(x: real) | Blank

  /** One DataFrame row, by column name. */
  type RawRow = map<string, Cell>

  /** What `pd.read_csv` produced: the header and the rows. */
  datatype Table = Table(columns: seq<string>, rows: seq<RawRow>)

  /** The record built for one row (`row_data`); the four journey numbers are still raw. */
  datatype Record = Record(
    origin: string, destination: string, flightNumber: string, fleetType: string,
    recordLocator: string, loyaltyLevel: string, generation: string, feedbackId: string,
    foodScore: real, arrivalDelay: real, flownMiles: real, legs: real,
    passengerClass: string)

  /** Column `c` of `row` is present and not a number. */
  predicate HasText(row: RawRow, c: string)
  {
    c in row && !row[c].Number?
  }

  /** Column `c` of `row` is present and not text. */
  predicate HasNumber(row: RawRow, c: string)
  {
    c in row && !row[c].Text?
  }

  /** A row holds every required column, text in the text columns and numbers in the numeric ones. */
  predicate RowFits(row: RawRow)
  {
    && (forall c :: c in TextColumns ==> HasText(row, c))
    && (forall c :: c in NumericColumns ==> HasNumber(row, c))
  }

  /**
   * The text columns in which no row holds text.  pandas reads such a column
   * as floats, so `fillna(0)` puts the float 0.0 in it; in a column that holds
   * text it puts the integer 0.
   */
  function FloatColumns(rows: seq<RawRow>): set<string>
  {
    set c | c in TextColumns && forall i :: 0 <= i < |rows| && c in rows[i] ==> !rows[i][c].Text?
  }

  /** `str(v)` of a text cell after `fillna(0)`; `floatColumn` says whether the column was read as floats. */
  function TextValue(c: Cell, floatColumn: bool): string
    requires !c.Number?
  {
    match c
    case Text(s) => s
    case Blank => if floatColumn then "0.0" else "0"
  }

  /** A numeric cell after `fillna(0)`. */
  function NumberValue(c: Cell): real
    requires !c.Text?
  {
    match c
    case Number(x) => x
    case Blank => 0.0
  }

  /** The text `row_data` holds under the key `c`. */
  function TextEntry(r: Record, c: string): string
  {
    if c == "origin_station_code" then r.origin
    else if c == "destination_station_code" then r.destination
    else if c == "flight_number" then r.flightNumber
    else if c == "fleet_type_description" then r.fleetType
    else if c == "record_locator" then r.recordLocator
    else if c == "loyalty_program_level" then r.loyaltyLevel
    else if c == "generation" then r.generation
    else if c == "feedback_ID" then r.feedbackId
    else r.passengerClass
  }

  /** The number `row_data` holds under the key `c`. */
  function NumberEntry(r: Record, c: string): real
  {
    if c == "food_satisfaction_score" then r.foodScore
    else if c == "arrival_delay_minutes" then r.arrivalDelay
    else if c == "actual_flown_miles" then r.flownMiles
    else r.legs
  }

  /**
   * The `row_data` dictionary for one row: under each text key the `str()`
   * of that same column's cell, under each numeric key that column's number.
   */
  function ToRecord(row: RawRow, floats: set<string>): (r: Record)
    requires RowFits(row)
    ensures forall c :: c in TextColumns ==> TextEntry(r, c) == TextValue(row[c], c in floats)
    ensures forall c :: c in NumericColumns ==> NumberEntry(r, c) == NumberValue(row[c])
  {
    var r := Record(
      origin := TextValue(row["origin_station_code"], "origin_station_code" in floats),
      destination := TextValue(row["destination_station_code"], "destination_station_code" in floats),
      flightNumber := TextValue(row["flight_number"], "flight_number" in floats),
      fleetType := TextValue(row["fleet_type_description"], "fleet_type_description" in floats),
      recordLocator := TextValue(row["record_locator"], "record_locator" in floats),
      loyaltyLevel := TextValue(row["loyalty_program_level"], "loyalty_program_level" in floats),
      generation := TextValue(row["generation"], "generation" in floats),
      feedbackId := TextValue(row["feedback_ID"], "feedback_ID" in floats),
      foodScore := NumberValue(row["food_satisfaction_score"]),
      arrivalDelay := NumberValue(row["arrival_delay_minutes"]),
      flownMiles := NumberValue(row["actual_flown_miles"]),
      legs := NumberValue(row["number_of_legs"]),
      passengerClass := TextValue(row["passenger_class"], "passenger_class" in floats));
    assert forall c :: c in TextColumns ==> TextEntry(r, c) == TextValue(row[c], c in floats) by {
      forall c | c in TextColumns ensures TextEntry(r, c) == TextValue(row[c], c in floats) {
        if c == "origin_station_code" {
        } else if c == "destination_station_code" {
        } else if c == "flight_number" {
        } else if c == "fleet_type_description" {
        } else if c == "record_locator" {
        } else if c == "loyalty_program_level" {
        } else if c == "generation" {
        } else if c == "feedback_ID" {
        } else {
          assert c == "passenger_class";
        }
      }
    }
    r
  }

  /** The record depends on the thirteen required columns only: any other column of the CSV is dropped. */
  lemma RecordUsesRequiredColumnsOnly(a: RawRow, b: RawRow, floats: set<string>)
    requires RowFits(a) && RowFits(b)
    requires forall c :: c in TextColumns + NumericColumns ==> a[c] == b[c]
    ensures ToRecord(a, floats) == ToRecord(b, floats)
  {
  }

  /** The records of all rows, in row order. */
  function RecordsOf(rows: seq<RawRow>): (recs: seq<Record>)
    requires forall i :: 0 <= i < |rows| ==> RowFits(rows[i])
    ensures |recs| == |rows|
    ensures forall i :: 0 <= i < |rows| ==> recs[i] == ToRecord(rows[i], FloatColumns(rows))
  {
    seq(|rows|, i requires 0 <= i < |rows| => ToRecord(rows[i], FloatColumns(rows)))
  }

  /**
   * A NaN food score reads as 0.  A NaN loyalty level reads as "0" when
   * some row has a loyalty level, and as "0.0" when no row has one.
   */
  lemma BlankReadsAsZero(rows: seq<RawRow>, i: nat)
    requires forall j :: 0 <= j < |rows| ==> RowFits(rows[j])
    requires i < |rows| && RowFits(rows[i]) && rows[i]["food_satisfaction_score"] == Blank && rows[i]["loyalty_program_level"] == Blank
    ensures RecordsOf(rows)[i].foodScore == 0.0
    ensures (exists j :: 0 <= j < |rows| && rows[j]["loyalty_program_level"].Text?) ==> RecordsOf(rows)[i].loyaltyLevel == "0"
    ensures (forall j :: 0 <= j < |rows| ==> !rows[j]["loyalty_program_level"].Text?) ==> RecordsOf(rows)[i].loyaltyLevel == "0.0"
  {
    var c := "loyalty_program_level";
    if j :| 0 <= j < |rows| && rows[j][c].Text? {
      assert c !in FloatColumns(rows);
    } else {
      assert c in FloatColumns(rows);
    }
  }

  /** Every NaN journey number of a row reads as 0 in its record. */
  lemma BlankNumbersReadAsZero(rows: seq<RawRow>, i: nat)
    requires forall j :: 0 <= j < |rows| ==> RowFits(rows[j])
    requires i < |rows| && RowFits(rows[i])
    ensures forall c :: c in NumericColumns && rows[i][c] == Blank ==> NumberEntry(RecordsOf(rows)[i], c) == 0.0
  {
  }

  /** The columns of the header, as a set. */
  function ColumnSet(columns: seq<string>): set<string>
  {
    set c | c in columns
  }

  /**
   * The table shape the model assumes: every row has exactly the header's
   * columns, and each required column that is present holds cells of its
   * kind.  A numeric column that pandas reads as strings is outside it.
   */
  predicate WellShaped(t: Table)
  {
    forall i :: 0 <= i < |t.rows| ==>
      && t.rows[i].Keys == ColumnSet(t.columns)
      && (forall c :: c in TextColumns && c in t.rows[i] ==> !t.rows[i][c].Number?)
      && (forall c :: c in NumericColumns && c in t.rows[i] ==> !t.rows[i][c].Text?)
  }

  /** Once no required column is missing, every row can be mapped. */
  lemma RowsFit(t: Table)
    requires WellShaped(t) && Missing(t.columns) == []
    ensures forall i :: 0 <= i < |t.rows| ==> RowFits(t.rows[i])
  {
    forall i | 0 <= i < |t.rows| ensures RowFits(t.rows[i]) {
      var row := t.rows[i];
      forall c | c in RequiredColumns ensures c in row {
        assert c in t.columns;
        assert c in ColumnSet(t.columns);
      }
      CompleteRowFits(row);
    }
  }

  /** A row holding every required column, each of its kind, can be mapped. */
  lemma CompleteRowFits(row: RawRow)
    requires forall c :: c in RequiredColumns ==> c in row
    requires forall c :: c in TextColumns && c in row ==> !row[c].Number?
    requires forall c :: c in NumericColumns && c in row ==> !row[c].Text?
    ensures RowFits(row)
  {
  }
}
