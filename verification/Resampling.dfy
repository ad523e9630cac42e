/** The family bootstrap: whole scenario families are drawn with replacement inside each label, and a sparse
    weighted confusion matrix is filled in per candidate. */
module Resampling {
  import opened Tallies

  const LABELS: nat := 6
  const COLUMNS: nat := 7   // one for every label, and one for anything else

  datatype Row = Row(id: nat, task: nat, family: nat)

  /** A candidate's answer for each case, by label index; anything else is not a label. */
  type Prediction = map<nat, nat>

  predicate Answers(p: Prediction, rows: seq<Row>) {
    forall r | r in rows :: r.id in p
  }

  function Column(p: Prediction, r: Row): nat
    requires r.id in p
  {
    if p[r.id] < LABELS then p[r.id] else LABELS
  }

  function Columns(p: Prediction, rows: seq<Row>): (cs: seq<nat>)
    requires Answers(p, rows)
    ensures |cs| == |rows| && forall i | 0 <= i < |rows| :: cs[i] == Column(p, rows[i]) < COLUMNS
  {
    seq(|rows|, i requires 0 <= i < |rows| => assert rows[i] in rows; Column(p, rows[i]))
  }

  /** One cell of a confusion matrix, counted case by case. */
  function Cell(p: Prediction, rows: seq<Row>, c: nat): nat
    requires Answers(p, rows)
  {
    Total(Columns(p, rows), Is(c))
  }

  predicate Within(draws: seq<nat>, n: nat) {
    forall k | 0 <= k < |draws| :: draws[k] < n
  }

  // ----- the naive resample: drawn families one after another -----

  function Concat(families: seq<seq<Row>>, draws: seq<nat>): seq<Row>
    requires Within(draws, |families|)
  {
    if draws == [] then [] else Concat(families, draws[..|draws| - 1]) + families[draws[|draws| - 1]]
  }

  predicate AnswersAll(p: Prediction, families: seq<seq<Row>>) {
    forall k | 0 <= k < |families| :: Answers(p, families[k])
  }

  lemma {:induction false} ConcatAnswered(p: Prediction, families: seq<seq<Row>>, draws: seq<nat>)
    requires AnswersAll(p, families) && Within(draws, |families|)
    ensures Answers(p, Concat(families, draws))
    decreases |draws|
  {
    if draws != [] {
      ConcatAnswered(p, families, draws[..|draws| - 1]);
    }
  }

  lemma CellJoins(p: Prediction, a: seq<Row>, b: seq<Row>, c: nat)
    requires Answers(p, a) && Answers(p, b)
    ensures Answers(p, a + b) && Cell(p, a + b, c) == Cell(p, a, c) + Cell(p, b, c)
  {
    assert Columns(p, a + b) == Columns(p, a) + Columns(p, b);
    TotalJoins(Columns(p, a), Columns(p, b), Is(c));
  }

  // ----- the sparse form -----

  /** The stored counts of one family for one candidate. */
  function Sparse(p: Prediction, family: seq<Row>): Tally
    requires Answers(p, family)
  {
    Tallied(Columns(p, family))
  }

  /** What one draw of a family adds to a cell of one candidate. */
  function Share(vectors: seq<seq<Tally>>, s: nat, c: nat): nat -> nat {
    (i: nat) => if i < |vectors| && s < |vectors[i]| then Weigh(vectors[i][s], Is(c)) else 0
  }

  predicate AllAnswer(ps: seq<Prediction>, families: seq<seq<Row>>) {
    forall s | 0 <= s < |ps| :: AnswersAll(ps[s], families)
  }

  /** The sparse counts of every family of one label, for every candidate. */
  predicate Encodes(vectors: seq<seq<Tally>>, ps: seq<Prediction>, families: seq<seq<Row>>)
    requires AllAnswer(ps, families)
  {
    && |vectors| == |families|
    && forall k | 0 <= k < |families| ::
         |vectors[k]| == |ps| && forall s | 0 <= s < |ps| :: vectors[k][s] == Sparse(ps[s], families[k])
  }

  lemma {:induction false} DrawsAddUp(vectors: seq<seq<Tally>>, ps: seq<Prediction>, s: nat, families: seq<seq<Row>>,
                                      draws: seq<nat>, c: nat)
    requires AllAnswer(ps, families) && Encodes(vectors, ps, families) && s < |ps|
    requires Within(draws, |families|)
    ensures Answers(ps[s], Concat(families, draws))
    ensures Total(draws, Share(vectors, s, c)) == Cell(ps[s], Concat(families, draws), c)
    decreases |draws|
  {
    ConcatAnswered(ps[s], families, draws);
    if draws != [] {
      var rest, last := draws[..|draws| - 1], draws[|draws| - 1];
      DrawsAddUp(vectors, ps, s, families, rest, c);
      CellJoins(ps[s], Concat(families, rest), families[last], c);
      TallyWeighs(Columns(ps[s], families[last]), Is(c));
    }
  }

  /** Weighing each distinct family once is the same as counting every drawn case. */
  lemma SparseIsNaive(vectors: seq<seq<Tally>>, ps: seq<Prediction>, s: nat, families: seq<seq<Row>>,
                      draws: seq<nat>, c: nat)
    requires AllAnswer(ps, families) && Encodes(vectors, ps, families) && s < |ps|
    requires Within(draws, |families|)
    ensures Answers(ps[s], Concat(families, draws))
    ensures Weigh(Tallied(draws), Share(vectors, s, c)) == Cell(ps[s], Concat(families, draws), c)
  {
    TallyWeighs(draws, Share(vectors, s, c));
    DrawsAddUp(vectors, ps, s, families, draws, c);
  }

  // ----- filling in one row of the matrix -----

  lemma EntryAdds(t: Tally, i: nat, weight: nat, c: nat)
    requires i < |t|
    ensures weight * Weigh(t[i..], Is(c)) ==
            weight * Weigh(t[i + 1..], Is(c)) + (if t[i].0 == c then t[i].1 * weight else 0)
  {
    assert t[i..][1..] == t[i + 1..];
    var one, rest := Is(c)(t[i].0), Weigh(t[i + 1..], Is(c));
    assert Weigh(t[i..], Is(c)) == t[i].1 * one + rest;
    assert weight * (t[i].1 * one + rest) == weight * (t[i].1 * one) + weight * rest;
  }

  /** Add one family's counts, weighted, into a matrix row. */
  method AddWeighted(row: seq<nat>, sparse: Tally, weight: nat) returns (sum: seq<nat>)
    requires |row| == COLUMNS && KeysBelow(sparse, COLUMNS)
    ensures |sum| == COLUMNS
    ensures forall c: nat | c < COLUMNS :: sum[c] == row[c] + weight * Weigh(sparse, Is(c))
  {
    sum := row;
    for i := 0 to |sparse|
      invariant |sum| == COLUMNS
      invariant forall c: nat | c < COLUMNS ::
                  sum[c] + weight * Weigh(sparse[i..], Is(c)) == row[c] + weight * Weigh(sparse, Is(c))
    {
      assert sparse[i] in sparse;
      forall c: nat | c < COLUMNS {
        EntryAdds(sparse, i, weight, c);
      }
      sum := sum[sparse[i].0 := sum[sparse[i].0] + sparse[i].1 * weight];
    }
  }

  /** A row's cells so far, plus what the remaining weights add, are the whole weighted sum. */
  predicate Filling(row: seq<nat>, vectors: seq<seq<Tally>>, rest: Tally, weights: Tally, s: nat) {
    && |row| == COLUMNS
    && forall c: nat | c < COLUMNS ::
         row[c] + Weigh(rest, Share(vectors, s, c)) == Weigh(weights, Share(vectors, s, c))
  }

  /** The row of one label is the confusion counted over the drawn cases. */
  predicate IsNaive(row: seq<nat>, p: Prediction, drawn: seq<Row>) {
    && |row| == COLUMNS && Answers(p, drawn)
    && forall c: nat | c < COLUMNS :: row[c] == Cell(p, drawn, c)
  }

  lemma FilledIsNaive(row: seq<nat>, vectors: seq<seq<Tally>>, ps: seq<Prediction>, s: nat, families: seq<seq<Row>>,
                      draws: seq<nat>)
    requires AllAnswer(ps, families) && Encodes(vectors, ps, families) && s < |ps|
    requires Within(draws, |families|) && Filling(row, vectors, [], Tallied(draws), s)
    ensures IsNaive(row, ps[s], Concat(families, draws))
  {
    ConcatAnswered(ps[s], families, draws);
    forall c: nat | c < COLUMNS ensures row[c] == Cell(ps[s], Concat(families, draws), c) {
      SparseIsNaive(vectors, ps, s, families, draws, c);
    }
  }

  /** The row of one label in every candidate's matrix, for one resample. */
  method FillRows(vectors: seq<seq<Tally>>, draws: seq<nat>, ps: seq<Prediction>, ghost families: seq<seq<Row>>)
    returns (rows: seq<seq<nat>>)
    requires AllAnswer(ps, families) && Encodes(vectors, ps, families) && Within(draws, |families|)
    ensures |rows| == |ps|
    ensures forall s: nat | s < |ps| :: IsNaive(rows[s], ps[s], Concat(families, draws))
  {
    var weights := Tallied(draws);
    TallyStaysBelow(draws, |families|);
    rows := seq(|ps|, i => [0, 0, 0, 0, 0, 0, 0]);
    assert weights[0..] == weights;
    for i := 0 to |weights|
      invariant |rows| == |ps|
      invariant forall s: nat | s < |ps| :: Filling(rows[s], vectors, weights[i..], weights, s)
    {
      rows := FillFamily(rows, vectors, weights, i, ps, families);
    }
    assert weights[|weights|..] == [];
    forall s: nat | s < |ps| ensures IsNaive(rows[s], ps[s], Concat(families, draws)) {
      FilledIsNaive(rows[s], vectors, ps, s, families, draws);
    }
  }

  method FillFamily(before: seq<seq<nat>>, vectors: seq<seq<Tally>>, weights: Tally, i: nat, ps: seq<Prediction>,
                    ghost families: seq<seq<Row>>)
    returns (rows: seq<seq<nat>>)
    requires AllAnswer(ps, families) && Encodes(vectors, ps, families)
    requires i < |weights| && KeysBelow(weights, |families|) && |before| == |ps|
    requires forall s: nat | s < |ps| :: Filling(before[s], vectors, weights[i..], weights, s)
    ensures |rows| == |ps|
    ensures forall s: nat | s < |ps| :: Filling(rows[s], vectors, weights[i + 1..], weights, s)
  {
    rows := [];
    var (index, weight) := weights[i];
    assert weights[i] in weights && weights[i..][1..] == weights[i + 1..];
    for s := 0 to |ps|
      invariant |rows| == s
      invariant forall k: nat | k < s :: Filling(rows[k], vectors, weights[i + 1..], weights, k)
    {
      TallyStaysBelow(Columns(ps[s], families[index]), COLUMNS);
      assert Filling(before[s], vectors, weights[i..], weights, s);
      var row := AddWeighted(before[s], vectors[index][s], weight);
      forall c: nat | c < COLUMNS
        ensures row[c] + Weigh(weights[i + 1..], Share(vectors, s, c)) == Weigh(weights, Share(vectors, s, c))
      {
        assert Weigh(weights[i..], Share(vectors, s, c)) ==
               weight * Share(vectors, s, c)(index) + Weigh(weights[i + 1..], Share(vectors, s, c));
      }
      rows := rows + [row];
    }
  }
}
