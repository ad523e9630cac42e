/** Confusion matrices, what they measure, and the direct scoring of a prediction. */
module ConfusionMatrices {
  import opened Tallies
  import opened Resampling

  type Matrix = seq<seq<nat>>

  predicate Shaped(m: Matrix) {
    |m| == LABELS && forall i | 0 <= i < LABELS :: |m[i]| == COLUMNS
  }

  function Sum(row: seq<nat>): nat {
    if row == [] then 0 else Sum(row[..|row| - 1]) + row[|row| - 1]
  }

  function Diagonal(m: Matrix, n: nat): nat
    requires Shaped(m) && n <= LABELS
  {
    if n == 0 then 0 else Diagonal(m, n - 1) + m[n - 1][n - 1]
  }

  function ColumnSum(m: Matrix, c: nat, n: nat): nat
    requires Shaped(m) && n <= LABELS && c < COLUMNS
  {
    if n == 0 then 0 else ColumnSum(m, c, n - 1) + m[n - 1][c]
  }

  function Ratio(a: nat, b: nat): real
    requires b > 0
  {
    a as real / b as real
  }

  function F1(m: Matrix, i: nat): real
    requires Shaped(m) && i < LABELS
  {
    var marked := Sum(m[i]) + ColumnSum(m, i, LABELS);
    if marked > 0 then Ratio(2 * m[i][i], marked) else 0.0
  }

  function F1Sum(m: Matrix, n: nat): real
    requires Shaped(m) && n <= LABELS
  {
    if n == 0 then 0.0 else F1Sum(m, n - 1) + F1(m, n - 1)
  }

  function Accuracy(m: Matrix, cases: nat): real
    requires Shaped(m) && cases > 0
  {
    Ratio(Diagonal(m, LABELS), cases)
  }

  function MacroF1(m: Matrix): real
    requires Shaped(m)
  {
    F1Sum(m, LABELS) / 6.0
  }

  datatype Measured = Measured(accuracy: real, macroF1: real, byTask: seq<real>)

  /** Accuracy, macro F1 and recall per label, each label's row being non-empty. */
  method Measure(m: Matrix, cases: nat) returns (r: Measured)
    requires Shaped(m) && cases > 0
    requires forall i | 0 <= i < LABELS :: Sum(m[i]) > 0
    ensures r.accuracy == Accuracy(m, cases) && r.macroF1 == MacroF1(m)
    ensures |r.byTask| == LABELS && forall i: nat | i < LABELS :: r.byTask[i] == Ratio(m[i][i], Sum(m[i]))
  {
    var correct: nat, f1 := 0, 0.0;
    var byTask: seq<real> := [];
    for i := 0 to LABELS
      invariant correct == Diagonal(m, i) && f1 == F1Sum(m, i)
      invariant |byTask| == i && forall j: nat | j < i :: byTask[j] == Ratio(m[j][j], Sum(m[j]))
    {
      var actual := RowSum(m[i]);
      var predicted := ColumnTotal(m, i);
      correct := correct + m[i][i];
      f1 := f1 + if actual + predicted > 0 then Ratio(2 * m[i][i], actual + predicted) else 0.0;
      byTask := byTask + [Ratio(m[i][i], actual)];
    }
    r := Measured(Ratio(correct, cases), f1 / 6.0, byTask);
  }

  method ColumnTotal(m: Matrix, c: nat) returns (n: nat)
    requires Shaped(m) && c < COLUMNS
    ensures n == ColumnSum(m, c, LABELS)
  {
    n := 0;
    for j := 0 to LABELS
      invariant n == ColumnSum(m, c, j)
    {
      n := n + m[j][c];
    }
  }

  method RowSum(row: seq<nat>) returns (n: nat)
    ensures n == Sum(row)
  {
    n := 0;
    for i := 0 to |row|
      invariant n == Sum(row[..i])
    {
      assert row[..i + 1][..i] == row[..i];
      n := n + row[i];
    }
    assert row[..|row|] == row;
  }

  // ----- counting rows -----

  /** The cases of one label, in order. */
  function Stratum(rows: seq<Row>, task: nat): seq<Row> {
    if rows == [] then []
    else
      var r := rows[|rows| - 1];
      Stratum(rows[..|rows| - 1], task) + if r.task == task then [r] else []
  }

  lemma {:induction false} StratumHolds(rows: seq<Row>, task: nat)
    ensures forall r :: r in Stratum(rows, task) <==> r in rows && r.task == task
    decreases |rows|
  {
    if rows != [] {
      StratumHolds(rows[..|rows| - 1], task);
      assert rows == rows[..|rows| - 1] + [rows[|rows| - 1]];
    }
  }

  lemma StratumAnswered(p: Prediction, rows: seq<Row>, task: nat)
    requires Answers(p, rows)
    ensures Answers(p, Stratum(rows, task))
  {
    StratumHolds(rows, task);
  }

  /** The confusion matrix counted case by case. */
  function Counted(p: Prediction, strata: seq<seq<Row>>): (m: Matrix)
    requires |strata| == LABELS && AnswersAll(p, strata)
    ensures Shaped(m)
    ensures forall i, c: nat | 0 <= i < LABELS && c < COLUMNS :: m[i][c] == Cell(p, strata[i], c)
  {
    seq(LABELS, i requires 0 <= i < LABELS => seq(COLUMNS, c requires 0 <= c < COLUMNS => Cell(p, strata[i], c)))
  }

  function Strata(rows: seq<Row>): (s: seq<seq<Row>>)
    ensures |s| == LABELS && forall i: nat | i < LABELS :: s[i] == Stratum(rows, i)
  {
    seq(LABELS, i requires 0 <= i < LABELS => Stratum(rows, i))
  }

  lemma {:induction false} CellsAddUp(p: Prediction, rows: seq<Row>)
    requires Answers(p, rows)
    ensures Cell(p, rows, 0) + Cell(p, rows, 1) + Cell(p, rows, 2) + Cell(p, rows, 3) + Cell(p, rows, 4)
            + Cell(p, rows, 5) + Cell(p, rows, 6) == |rows|
    decreases |rows|
  {
    if rows != [] {
      var rest := rows[..|rows| - 1];
      CellsAddUp(p, rest);
      assert Columns(p, rows)[..|rows| - 1] == Columns(p, rest);
    }
  }

  /** Every case falls in exactly one column of its label's row. */
  lemma RowAddsUp(row: seq<nat>, p: Prediction, rows: seq<Row>)
    requires Answers(p, rows) && |row| == COLUMNS
    requires forall c: nat | c < COLUMNS :: row[c] == Cell(p, rows, c)
    ensures Sum(row) == |rows|
  {
    CellsAddUp(p, rows);
    var a := [row[0]] + [row[1]] + [row[2]] + [row[3]] + [row[4]] + [row[5]] + [row[6]];
    assert row == a;
    SumAppend([], row[0]);
    SumAppend([row[0]], row[1]);
    SumAppend([row[0]] + [row[1]], row[2]);
    SumAppend([row[0]] + [row[1]] + [row[2]], row[3]);
    SumAppend([row[0]] + [row[1]] + [row[2]] + [row[3]], row[4]);
    SumAppend([row[0]] + [row[1]] + [row[2]] + [row[3]] + [row[4]], row[5]);
    SumAppend([row[0]] + [row[1]] + [row[2]] + [row[3]] + [row[4]] + [row[5]], row[6]);
  }

  lemma SumAppend(s: seq<nat>, x: nat)
    ensures Sum(s + [x]) == Sum(s) + x
  {
    assert (s + [x])[..|s|] == s;
  }

  // ----- scoring -----

  /** How many cases of this label were answered in this column. */
  function Hits(p: Prediction, rows: seq<Row>, task: nat, c: nat): nat
    requires Answers(p, rows)
  {
    if rows == [] then 0
    else
      var rest, r := rows[..|rows| - 1], rows[|rows| - 1];
      Hits(p, rest, task, c) + if r.task == task && Column(p, r) == c then 1 else 0
  }

  lemma OneCell(p: Prediction, r: Row, c: nat)
    requires r.id in p
    ensures Cell(p, [r], c) == if Column(p, r) == c then 1 else 0
  {
    assert Total([], Is(c)) == 0 && Columns(p, [r])[..0] == [];
    assert Is(c)(Column(p, r)) == if Column(p, r) == c then 1 else 0;
  }

  lemma {:induction false} HitsAreCells(p: Prediction, rows: seq<Row>, task: nat, c: nat)
    requires Answers(p, rows)
    ensures Answers(p, Stratum(rows, task)) && Hits(p, rows, task, c) == Cell(p, Stratum(rows, task), c)
    decreases |rows|
  {
    if rows != [] {
      var rest, r := rows[..|rows| - 1], rows[|rows| - 1];
      assert r in rows;
      HitsAreCells(p, rest, task, c);
      if r.task == task {
        CellJoins(p, Stratum(rest, task), [r], c);
        OneCell(p, r, c);
        assert Stratum(rows, task) == Stratum(rest, task) + [r];
      } else {
        assert Stratum(rows, task) == Stratum(rest, task);
      }
    }
  }

  /** Count each case into the matrix of its label, then measure.  A label may have no case at all; one that
      has none and is never predicted scores zero. */
  method Score(rows: seq<Row>, p: Prediction) returns (m: Matrix, accuracy: real, macroF1: real)
    requires Answers(p, rows) && rows != []
    requires forall k | 0 <= k < |rows| :: rows[k].task < LABELS
    ensures AnswersAll(p, Strata(rows)) && m == Counted(p, Strata(rows))
    ensures accuracy == Accuracy(m, |rows|) && macroF1 == MacroF1(m)
  {
    m := CountHits(rows, p);
    forall t: nat | t < LABELS
      ensures Answers(p, Strata(rows)[t])
      ensures forall c: nat | c < COLUMNS :: m[t][c] == Cell(p, Strata(rows)[t], c)
    {
      StratumAnswered(p, rows, t);
      forall c: nat | c < COLUMNS ensures m[t][c] == Cell(p, Strata(rows)[t], c) {
        HitsAreCells(p, rows, t, c);
      }
    }
    SameMatrix(m, p, Strata(rows));
    accuracy, macroF1 := Overall(m, |rows|);
  }

  /** Accuracy and macro F1 alone, for a matrix whose rows may be empty. */
  method Overall(m: Matrix, cases: nat) returns (accuracy: real, macroF1: real)
    requires Shaped(m) && cases > 0
    ensures accuracy == Accuracy(m, cases) && macroF1 == MacroF1(m)
  {
    var correct: nat, f1 := 0, 0.0;
    for i := 0 to LABELS
      invariant correct == Diagonal(m, i) && f1 == F1Sum(m, i)
    {
      var actual := RowSum(m[i]);
      var predicted := ColumnTotal(m, i);
      correct := correct + m[i][i];
      f1 := f1 + if actual + predicted > 0 then Ratio(2 * m[i][i], actual + predicted) else 0.0;
    }
    accuracy, macroF1 := Ratio(correct, cases), f1 / 6.0;
  }

  lemma SameMatrix(m: Matrix, p: Prediction, strata: seq<seq<Row>>)
    requires Shaped(m) && |strata| == LABELS && AnswersAll(p, strata)
    requires forall t: nat, c: nat | t < LABELS && c < COLUMNS :: m[t][c] == Cell(p, strata[t], c)
    ensures m == Counted(p, strata)
  {
    forall t: nat | t < LABELS ensures m[t] == Counted(p, strata)[t] {
    }
  }

  method CountHits(rows: seq<Row>, p: Prediction) returns (m: Matrix)
    requires Answers(p, rows) && forall k | 0 <= k < |rows| :: rows[k].task < LABELS
    ensures Shaped(m)
    ensures forall t: nat, c: nat | t < LABELS && c < COLUMNS :: m[t][c] == Hits(p, rows, t, c)
  {
    var zero: seq<nat> := [0, 0, 0, 0, 0, 0, 0];
    m := [zero, zero, zero, zero, zero, zero];
    for k := 0 to |rows|
      invariant Shaped(m) && Answers(p, rows[..k])
      invariant forall t: nat, c: nat | t < LABELS && c < COLUMNS :: m[t][c] == Hits(p, rows[..k], t, c)
    {
      assert rows[..k + 1][..k] == rows[..k] && rows[k] in rows;
      var t, c := rows[k].task, Column(p, rows[k]);
      m := m[t := m[t][c := m[t][c] + 1]];
    }
    assert rows[..|rows|] == rows;
  }
}
