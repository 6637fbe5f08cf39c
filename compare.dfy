/**
 * `compare_results` of validate_queries.py: a positional, row-by-row and
 * key-by-key comparison of a query's result rows against a baseline, with
 * a relative tolerance for float baselines.
 */
module Compare {

  import opened Options

  /** A value of a result row: Python int, float, str or None. */
  datatype Value = VInt(i: int) | VReal(r: real) | VStr(s: string) | VNone

  /** A result row, a Python dict: its entries in insertion order. */
  type Row = seq<(string, Value)>

  predicate IsNumber(v: Value) {
    v.VInt? || v.VReal?
  }

  /** The numeric value of an int or float. */
  function Num(v: Value): real
    requires IsNumber(v)
  {
    if v.VInt? then v.i as real else v.r
  }

  /** The keys of a row, in order. */
  function Keys(row: Row): (ks: seq<string>)
    ensures |ks| == |row| && forall i :: 0 <= i < |row| ==> ks[i] == row[i].0
  {
    seq(|row|, i requires 0 <= i < |row| => row[i].0)
  }

  /** A row whose keys are pairwise distinct, as every dict's are. */
  predicate DistinctKeys(row: Row) {
    forall i, j :: 0 <= i < j < |row| ==> row[i].0 != row[j].0
  }

  /** `row.get(key)`: the value of the first entry with that key, `None` when there is none. */
  function Get(row: Row, key: string): (v: Value)
    ensures v != VNone ==> (key, v) in row
  {
    if row == [] then VNone
    else if row[0].0 == key then row[0].1
    else Get(row[1..], key)
  }

  /** Python `==` on these values: numbers compare numerically across int and float. */
  function PyEquals(a: Value, b: Value): (equal: bool)
    ensures a == b ==> equal
    ensures equal ==> (a.VStr? <==> b.VStr?) && (a.VNone? <==> b.VNone?)
  {
    if IsNumber(a) && IsNumber(b) then Num(a) == Num(b)
    else if a.VStr? && b.VStr? then a.s == b.s
    else a.VNone? && b.VNone?
  }

  function Abs(x: real): real {
    if x < 0.0 then -x else x
  }

  function Max(x: real, y: real): real {
    if x < y then y else x
  }

  /** `math.isclose(a, b, rel_tol=1e-9)` with the default `abs_tol=0`, over the reals. */
  function IsClose(a: real, b: real): (close: bool)
    ensures a == b ==> close
    ensures close && a == 0.0 ==> b == 0.0
    ensures close && b == 0.0 ==> a == 0.0
    ensures close ==> (a < 0.0 <==> b < 0.0)
  {
    Abs(a - b) <= 0.000000001 * Max(Abs(a), Abs(b))
  }

  /** The test of one key: tolerance when the baseline is a float and the actual value a number, `!=` otherwise. */
  function Agrees(actual: Value, expected: Value): (agree: bool)
    ensures actual == expected ==> agree
    ensures agree && !expected.VReal? ==> PyEquals(actual, expected)
    ensures agree ==> (actual.VStr? <==> expected.VStr?) && (actual.VNone? <==> expected.VNone?)
  {
    if expected.VReal? && IsNumber(actual) then IsClose(Num(actual), expected.r)
    else PyEquals(actual, expected)
  }

  /** One entry of an expected row agrees with the actual row's value for that key. */
  predicate FieldAgrees(act: Row, field: (string, Value)) {
    Agrees(Get(act, field.0), field.1)
  }

  /** The index of the first entry of `exp`, from `from` on, whose key the actual row does not agree on. */
  function FirstFailure(act: Row, exp: Row, from: nat): (r: Option<nat>)
    requires from <= |exp|
    ensures r.Some? ==> from <= r.value < |exp|
    decreases |exp| - from
  {
    if from == |exp| then None
    else if !FieldAgrees(act, exp[from]) then Some(from)
    else FirstFailure(act, exp, from + 1)
  }

  /** `FirstFailure` finds nothing exactly when all entries agree, and otherwise the least disagreeing one. */
  lemma {:induction false} FirstFailureIsFirst(act: Row, exp: Row, from: nat)
    requires from <= |exp|
    ensures var r := FirstFailure(act, exp, from);
      && (r.None? <==> forall k :: from <= k < |exp| ==> FieldAgrees(act, exp[k]))
      && (r.Some? ==>
        && !FieldAgrees(act, exp[r.value])
        && forall k :: from <= k < r.value ==> FieldAgrees(act, exp[k]))
    decreases |exp| - from
  {
    if from < |exp| && FieldAgrees(act, exp[from]) {
      FirstFailureIsFirst(act, exp, from + 1);
    }
  }

  /** A printed `Mismatch at Row i, Key 'key': Expected .., Got ..`. */
  datatype Mismatch = Mismatch(row: nat, key: string, expected: Value, got: Value)

  /** What row `i` reports: its first disagreeing key, or nothing. */
  function RowReport(actual: seq<Row>, expected: seq<Row>, i: nat): (m: Option<Mismatch>)
    requires i < |actual| && i < |expected|
    ensures m.Some? ==> m.value.row == i
  {
    match FirstFailure(actual[i], expected[i], 0)
    case None => None
    case Some(k) =>
      var (key, exp) := expected[i][k];
      Some(Mismatch(i, key, exp, Get(actual[i], key)))
  }

  /**
   * Row `i` reports nothing exactly when every expected key agrees, and
   * otherwise the key, baseline value and actual value of the first that does not.
   */
  lemma RowReportIsFirstMismatch(actual: seq<Row>, expected: seq<Row>, i: nat)
    requires i < |actual| && i < |expected|
    ensures var m := RowReport(actual, expected, i);
      && (m.None? <==> forall k :: 0 <= k < |expected[i]| ==> FieldAgrees(actual[i], expected[i][k]))
      && (m.Some? ==> exists k ::
        && 0 <= k < |expected[i]|
        && !FieldAgrees(actual[i], expected[i][k])
        && (forall k' :: 0 <= k' < k ==> FieldAgrees(actual[i], expected[i][k']))
        && m.value == Mismatch(i, expected[i][k].0, expected[i][k].1, Get(actual[i], expected[i][k].0)))
  {
    FirstFailureIsFirst(actual[i], expected[i], 0);
  }

  /** The mismatches printed for the first `n` rows, in row order. */
  function Report(actual: seq<Row>, expected: seq<Row>, n: nat): (ms: seq<Mismatch>)
    requires n <= |actual| && n <= |expected|
    ensures |ms| <= n
  {
    if n == 0 then []
    else
      Report(actual, expected, n - 1) +
      match RowReport(actual, expected, n - 1)
      case None => []
      case Some(m) => [m]
  }

  datatype Failure = LengthMismatch(expected: nat, got: nat) | RowMismatches(mismatches: seq<Mismatch>)

  /** What `compare_results` concludes: `PASS`, or `FAIL` with what it printed before. */
  datatype Verdict = Pass | Fail(failure: Failure)

  /** The verdict on `actual` against `expected`. */
  function VerdictOf(actual: seq<Row>, expected: seq<Row>): (v: Verdict)
    ensures v.Fail? && v.failure.LengthMismatch? <==> |actual| != |expected|
    ensures |actual| != |expected| ==> v == Fail(LengthMismatch(|expected|, |actual|))
  {
    if |actual| != |expected| then Fail(LengthMismatch(|expected|, |actual|))
    else
      var ms := Report(actual, expected, |actual|);
      if ms == [] then Pass else Fail(RowMismatches(ms))
  }

  /**
   * `compare_results(query_num, actual, expected)`: walk the rows in step;
   * in each row walk the expected keys, stop that row at the first key that
   * does not agree and record the mismatch, and go on with the next row.
   */
  method CompareResults(actual: seq<Row>, expected: seq<Row>) returns (v: Verdict)
    ensures v == VerdictOf(actual, expected)
  {
    if |actual| != |expected| {
      return Fail(LengthMismatch(|expected|, |actual|));
    }
    var allMatch := true;
    var mismatches: seq<Mismatch> := [];
    var i := 0;
    while i < |actual|
      invariant 0 <= i <= |actual|
      invariant mismatches == Report(actual, expected, i)
      invariant allMatch <==> mismatches == []
    {
      var actRow, expRow := actual[i], expected[i];
      var rowMatch := true;
      var j := 0;
      while j < |expRow|
        invariant 0 <= j <= |expRow|
        invariant rowMatch
        invariant FirstFailure(actRow, expRow, j) == FirstFailure(actRow, expRow, 0)
        invariant mismatches == Report(actual, expected, i)
        invariant allMatch <==> mismatches == []
      {
        var key, expVal := expRow[j].0, expRow[j].1;
        var actVal := Get(actRow, key);
        if expVal.VReal? && IsNumber(actVal) {
          if !IsClose(Num(actVal), expVal.r) {
            rowMatch := false;
          }
        } else if !PyEquals(actVal, expVal) {
          rowMatch := false;
        }
        if !rowMatch {
          assert RowReport(actual, expected, i) == Some(Mismatch(i, key, expVal, actVal));
          mismatches := mismatches + [Mismatch(i, key, expVal, actVal)];
          allMatch := false;
          break;
        }
        j := j + 1;
      }
      if rowMatch {
        assert RowReport(actual, expected, i).None?;
      }
      i := i + 1;
    }
    if allMatch {
      return Pass;
    } else {
      return Fail(RowMismatches(mismatches));
    }
  }

  /** Every reported mismatch is the report of an inspected row. */
  lemma {:induction false} ReportedRowsFail(actual: seq<Row>, expected: seq<Row>, n: nat)
    requires n <= |actual| && n <= |expected|
    ensures forall j :: 0 <= j < |Report(actual, expected, n)| ==>
      && Report(actual, expected, n)[j].row < n
      && RowReport(actual, expected, Report(actual, expected, n)[j].row) == Some(Report(actual, expected, n)[j])
  {
    if n > 0 {
      ReportedRowsFail(actual, expected, n - 1);
      var r0 := Report(actual, expected, n - 1);
      match RowReport(actual, expected, n - 1)
      case None =>
        assert Report(actual, expected, n) == r0;
      case Some(m) =>
        var r := r0 + [m];
        assert Report(actual, expected, n) == r;
        assert forall j :: 0 <= j < |r0| ==> r[j] == r0[j];
    }
  }

  /** Reported rows strictly increase: a row is reported at most once, and in row order. */
  lemma {:induction false} ReportRowsIncrease(actual: seq<Row>, expected: seq<Row>, n: nat)
    requires n <= |actual| && n <= |expected|
    ensures forall j, j' :: 0 <= j < j' < |Report(actual, expected, n)| ==>
      Report(actual, expected, n)[j].row < Report(actual, expected, n)[j'].row
  {
    if n > 0 {
      ReportRowsIncrease(actual, expected, n - 1);
      ReportedRowsFail(actual, expected, n - 1);
      var r0 := Report(actual, expected, n - 1);
      match RowReport(actual, expected, n - 1)
      case None =>
        assert Report(actual, expected, n) == r0;
      case Some(m) =>
        var r := r0 + [m];
        assert Report(actual, expected, n) == r;
        assert forall j :: 0 <= j < |r0| ==> r[j] == r0[j] && r0[j].row < n - 1;
        assert r[|r0|].row == n - 1;
    }
  }

  /**
   * Checking goes on after a failing row: every inspected row whose report
   * is a mismatch appears in the report.
   */
  lemma {:induction false} FailingRowsReported(actual: seq<Row>, expected: seq<Row>, n: nat)
    requires n <= |actual| && n <= |expected|
    ensures forall i :: 0 <= i < n && RowReport(actual, expected, i).Some? ==>
      RowReport(actual, expected, i).value in Report(actual, expected, n)
  {
    if n > 0 {
      FailingRowsReported(actual, expected, n - 1);
      var r0 := Report(actual, expected, n - 1);
      match RowReport(actual, expected, n - 1)
      case None =>
        assert Report(actual, expected, n) == r0;
      case Some(m) =>
        assert Report(actual, expected, n) == r0 + [m];
    }
  }

  /** No mismatch is reported for the first `n` rows exactly when every expected key of each agrees. */
  lemma {:induction false} ReportEmpty(actual: seq<Row>, expected: seq<Row>, n: nat)
    requires n <= |actual| && n <= |expected|
    ensures Report(actual, expected, n) == [] <==>
      forall i, k :: 0 <= i < n && 0 <= k < |expected[i]| ==> FieldAgrees(actual[i], expected[i][k])
  {
    if n > 0 {
      ReportEmpty(actual, expected, n - 1);
      RowReportIsFirstMismatch(actual, expected, n - 1);
      if RowReport(actual, expected, n - 1).None? {
        assert Report(actual, expected, n) == Report(actual, expected, n - 1);
      } else {
        assert |Report(actual, expected, n)| > 0;
      }
    }
  }

  /**
   * `PASS` exactly when the lengths agree and, at every position, every key
   * of the expected row agrees with the actual row's value for it.
   */
  lemma VerdictPassIff(actual: seq<Row>, expected: seq<Row>)
    ensures VerdictOf(actual, expected) == Pass <==>
      && |actual| == |expected|
      && forall i, k :: 0 <= i < |expected| && 0 <= k < |expected[i]| ==> FieldAgrees(actual[i], expected[i][k])
  {
    if |actual| == |expected| {
      ReportEmpty(actual, expected, |actual|);
    }
  }

  /** Rows that give the same values for every expected key are judged alike: other keys are ignored. */
  lemma {:induction false} OnlyExpectedKeysMatter(a: seq<Row>, b: seq<Row>, expected: seq<Row>)
    requires |a| == |b|
    requires forall i, k :: 0 <= i < |a| && i < |expected| && 0 <= k < |expected[i]| ==>
      Get(a[i], expected[i][k].0) == Get(b[i], expected[i][k].0)
    ensures VerdictOf(a, expected) == VerdictOf(b, expected)
  {
    if |a| == |expected| {
      ReportAlike(a, b, expected, |a|);
    }
  }

  lemma {:induction false} ReportAlike(a: seq<Row>, b: seq<Row>, expected: seq<Row>, n: nat)
    requires n <= |a| == |b| && n <= |expected|
    requires forall i, k :: 0 <= i < |a| && i < |expected| && 0 <= k < |expected[i]| ==>
      Get(a[i], expected[i][k].0) == Get(b[i], expected[i][k].0)
    ensures Report(a, expected, n) == Report(b, expected, n)
  {
    if n > 0 {
      ReportAlike(a, b, expected, n - 1);
      var i := n - 1;
      FirstFailureAlike(a[i], b[i], expected[i], 0);
      match FirstFailure(a[i], expected[i], 0)
      case None =>
      case Some(k) =>
        assert Get(a[i], expected[i][k].0) == Get(b[i], expected[i][k].0);
      assert RowReport(a, expected, i) == RowReport(b, expected, i);
    }
  }

  lemma {:induction false} FirstFailureAlike(a: Row, b: Row, exp: Row, from: nat)
    requires from <= |exp|
    requires forall k :: 0 <= k < |exp| ==> Get(a, exp[k].0) == Get(b, exp[k].0)
    ensures FirstFailure(a, exp, from) == FirstFailure(b, exp, from)
    decreases |exp| - from
  {
    if from < |exp| {
      assert FieldAgrees(a, exp[from]) == FieldAgrees(b, exp[from]);
      FirstFailureAlike(a, b, exp, from + 1);
    }
  }

  /** Entries appended to a row under other keys do not change what `get` finds. */
  lemma {:induction false} GetIgnoresOtherEntries(row: Row, extra: Row, key: string)
    requires key !in Keys(extra)
    ensures Get(row + extra, key) == Get(row, key)
  {
    if row == [] {
      assert row + extra == extra;
    } else {
      assert (row + extra)[1..] == row[1..] + extra;
      if row[0].0 != key {
        GetIgnoresOtherEntries(row[1..], extra, key);
      }
    }
  }

  /** A key the actual row lacks reads as `None`, which agrees with no baseline value but `None`. */
  lemma MissingKeyDisagrees(row: Row, key: string, expected: Value)
    requires key !in Keys(row) && expected != VNone
    ensures Get(row, key) == VNone && !Agrees(Get(row, key), expected)
  {
  }

  /** In a dict, `get` of an entry's key gives that entry's value. */
  lemma {:induction false} GetOwnEntry(row: Row, k: nat)
    requires DistinctKeys(row) && k < |row|
    ensures Get(row, row[k].0) == row[k].1
  {
    if k > 0 {
      assert row[0].0 != row[k].0;
      assert row[1..][k - 1] == row[k];
      GetOwnEntry(row[1..], k - 1);
    }
  }

  /** Every value agrees with itself. */
  lemma AgreesWithItself(v: Value)
    ensures Agrees(v, v)
  {
  }

  /** A baseline of dicts compared with itself passes. */
  lemma SelfComparePasses(expected: seq<Row>)
    requires forall i :: 0 <= i < |expected| ==> DistinctKeys(expected[i])
    ensures VerdictOf(expected, expected) == Pass
  {
    forall i, k | 0 <= i < |expected| && 0 <= k < |expected[i]|
      ensures FieldAgrees(expected[i], expected[i][k])
    {
      GetOwnEntry(expected[i], k);
      AgreesWithItself(expected[i][k].1);
    }
    VerdictPassIff(expected, expected);
  }

  /** The tolerance absorbs the last-digit difference of a float baseline: 2.791164658634539 against 2.7911646586345387. */
  lemma LastDigitWithinTolerance()
    ensures Agrees(VReal(2.791164658634539), VReal(2.7911646586345387))
  {
  }

  /** A difference of 0.01 on the same baseline is outside the tolerance. */
  lemma HundredthOutsideTolerance()
    ensures !Agrees(VReal(2.7911646586345387 + 0.01), VReal(2.7911646586345387))
  {
  }

  /** A string never equals a number, so `"42"` fails against `42`, while `42.0` equals `42`. */
  lemma StringIsNotNumber(s: string, n: int)
    ensures !Agrees(VStr(s), VInt(n)) && !Agrees(VStr(s), VReal(n as real))
    ensures !Agrees(VInt(n), VStr(s))
    ensures Agrees(VReal(n as real), VInt(n)) && Agrees(VInt(n), VReal(n as real))
  {
  }
}
