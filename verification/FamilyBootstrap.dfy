/** The class-stratified paired family bootstrap: checks, grouping into families, resampling, measuring. */
module FamilyBootstrap {
  import opened Tallies
  import opened Resampling
  import opened ConfusionMatrices

  datatype Error = TooFewResamples | CoverageDiffers | LabelsMissing | FamilySpansLabels | FamilySizesDiffer

  datatype Result<T> = Ok(value: T) | Err(error: Error)

  // ----- the checks -----

  predicate Covered(rows: seq<Row>, ps: seq<Prediction>) {
    forall s | 0 <= s < |ps| :: ps[s].Keys == set r | r in rows :: r.id
  }

  predicate AllLabels(rows: seq<Row>) {
    (set r | r in rows :: r.task) == {0, 1, 2, 3, 4, 5}
  }

  predicate FamiliesWhole(rows: seq<Row>) {
    forall i, j | 0 <= i < |rows| && 0 <= j < |rows| ::
      rows[i].family == rows[j].family ==> rows[i].task == rows[j].task
  }

  /** The cases of one family within one label, in order. */
  function Family(rows: seq<Row>, task: nat, family: nat): seq<Row> {
    if rows == [] then []
    else
      var r := rows[|rows| - 1];
      Family(rows[..|rows| - 1], task, family) + if r.task == task && r.family == family then [r] else []
  }

  predicate SizesEqual(rows: seq<Row>) {
    forall i, j | 0 <= i < |rows| && 0 <= j < |rows| ::
      |Family(rows, rows[i].task, rows[i].family)| == |Family(rows, rows[j].task, rows[j].family)|
  }

  /** The first check that fails, in the order they are made. */
  function FirstError(rows: seq<Row>, ps: seq<Prediction>, resamples: nat): Result<()> {
    if resamples < 100 then Err(TooFewResamples)
    else if !Covered(rows, ps) then Err(CoverageDiffers)
    else if !AllLabels(rows) then Err(LabelsMissing)
    else if !FamiliesWhole(rows) then Err(FamilySpansLabels)
    else if !SizesEqual(rows) then Err(FamilySizesDiffer)
    else Ok(())
  }

  // ----- grouping -----

  type Groups = map<nat, seq<Row>>

  predicate GroupsBy(byTask: map<nat, Groups>, rows: seq<Row>) {
    && (forall r | r in rows :: r.task in byTask && r.family in byTask[r.task])
    && (forall t | t in byTask :: forall f | f in byTask[t] :: byTask[t][f] == Family(rows, t, f) != [])
  }

  lemma {:induction false} FamilyHolds(rows: seq<Row>, task: nat, family: nat)
    ensures forall r :: r in Family(rows, task, family) <==> r in rows && r.task == task && r.family == family
    decreases |rows|
  {
    if rows != [] {
      FamilyHolds(rows[..|rows| - 1], task, family);
      assert rows == rows[..|rows| - 1] + [rows[|rows| - 1]];
    }
  }

  lemma FamilyOneMore(rows: seq<Row>, r: Row, task: nat, family: nat)
    ensures Family(rows + [r], task, family) ==
            Family(rows, task, family) + (if r.task == task && r.family == family then [r] else [])
  {
    assert (rows + [r])[..|rows|] == rows;
  }

  method GroupRows(rows: seq<Row>) returns (byTask: map<nat, Groups>)
    ensures GroupsBy(byTask, rows)
  {
    byTask := map[];
    for i := 0 to |rows|
      invariant GroupsBy(byTask, rows[..i])
    {
      var r := rows[i];
      assert rows[..i + 1] == rows[..i] + [r];
      ghost var before := byTask;
      var groups: Groups := if r.task in byTask then byTask[r.task] else map[];
      var family := if r.family in groups then groups[r.family] else [];
      byTask := byTask[r.task := groups[r.family := family + [r]]];
      forall t, f | t in byTask && f in byTask[t] ensures byTask[t][f] == Family(rows[..i + 1], t, f) != [] {
        FamilyOneMore(rows[..i], r, t, f);
        FamilyHolds(rows[..i], t, f);
        if t in before && f in before[t] {
          assert before[t][f] == Family(rows[..i], t, f);
        } else {
          FamilyIsNew(before, rows[..i], t, f);
        }
      }
    }
    assert rows[..|rows|] == rows;
  }

  lemma FamilyIsNew(byTask: map<nat, Groups>, rows: seq<Row>, t: nat, f: nat)
    requires GroupsBy(byTask, rows) && (t !in byTask || f !in byTask[t])
    ensures Family(rows, t, f) == []
  {
    FamilyHolds(rows, t, f);
    if Family(rows, t, f) != [] {
      assert Family(rows, t, f)[0] in Family(rows, t, f);
    }
  }

  /** The families of one label in ascending order of their identifiers. */
  predicate Sorted(keys: seq<nat>) {
    forall i, j | 0 <= i < j < |keys| :: keys[i] < keys[j]
  }

  predicate Lists(families: seq<seq<Row>>, keys: seq<nat>, rows: seq<Row>, task: nat) {
    && Sorted(keys) && |families| == |keys|
    && (forall k | 0 <= k < |keys| :: families[k] == Family(rows, task, keys[k]) != [])
    && (forall r | r in rows && r.task == task :: r.family in keys)
  }

  lemma {:induction false} LeastExists(s: set<nat>) returns (m: nat)
    requires s != {}
    ensures m in s && forall k | k in s :: m <= k
    decreases |s|
  {
    var x :| x in s;
    var others := s - {x};
    if others == {} {
      m := x;
    } else {
      m := LeastExists(others);
      m := if x < m then x else m;
    }
    forall k | k in s ensures m <= k {
      assert k == x || k in others;
    }
  }

  method Least(s: set<nat>) returns (m: nat)
    requires s != {}
    ensures m in s && forall k | k in s :: m <= k
  {
    ghost var least := LeastExists(s);
    m :| m in s && forall k | k in s :: m <= k;
  }

  method SortFamilies(groups: Groups) returns (families: seq<seq<Row>>, keys: seq<nat>)
    ensures Sorted(keys) && |families| == |keys|
    ensures forall k | 0 <= k < |keys| :: keys[k] in groups && families[k] == groups[keys[k]]
    ensures forall f | f in groups :: f in keys
  {
    families, keys := [], [];
    var rest := groups.Keys;
    while rest != {}
      invariant rest <= groups.Keys && Sorted(keys) && |families| == |keys|
      invariant forall k | 0 <= k < |keys| :: keys[k] in groups && families[k] == groups[keys[k]]
      invariant forall f | f in groups :: f in keys || f in rest
      invariant forall k, f | 0 <= k < |keys| && f in rest :: keys[k] < f
      decreases |rest|
    {
      var f := Least(rest);
      assert Sorted(keys + [f]);
      families, keys := families + [groups[f]], keys + [f];
      rest := rest - {f};
    }
  }

  // ----- the sparse vectors of one label -----

  method Encode(families: seq<seq<Row>>, ps: seq<Prediction>) returns (vectors: seq<seq<Tally>>)
    requires AllAnswer(ps, families)
    ensures Encodes(vectors, ps, families)
  {
    vectors := [];
    for k := 0 to |families|
      invariant |vectors| == k
      invariant forall j | 0 <= j < k ::
                  |vectors[j]| == |ps| && forall s | 0 <= s < |ps| :: vectors[j][s] == Sparse(ps[s], families[j])
    {
      var counts := seq(|ps|, s requires 0 <= s < |ps| => assert Answers(ps[s], families[k]); Sparse(ps[s], families[k]));
      vectors := vectors + [counts];
    }
  }

  // ----- resampling -----

  /** As many families as the label has, each any of them. */
  method Choices(k: nat) returns (draws: seq<nat>)
    requires k > 0
    ensures |draws| == k && Within(draws, k)
  {
    draws := [];
    for i := 0 to k
      invariant |draws| == i && Within(draws, k)
    {
      var d: nat :| d < k;
      draws := draws + [d];
    }
  }

  predicate Drawable(strata: seq<seq<seq<Row>>>, draws: seq<seq<nat>>) {
    && |strata| == LABELS && |draws| == LABELS
    && forall t: nat | t < LABELS :: |draws[t]| == |strata[t]| && Within(draws[t], |strata[t]|)
  }

  /** The drawn cases of every label. */
  function Drawn(strata: seq<seq<seq<Row>>>, draws: seq<seq<nat>>): (s: seq<seq<Row>>)
    requires Drawable(strata, draws)
    ensures |s| == LABELS && forall t: nat | t < LABELS :: s[t] == Concat(strata[t], draws[t])
  {
    seq(LABELS, t requires 0 <= t < LABELS => Concat(strata[t], draws[t]))
  }

  predicate AnswersStrata(p: Prediction, strata: seq<seq<seq<Row>>>) {
    forall t: nat | t < |strata| :: AnswersAll(p, strata[t])
  }

  lemma DrawnAnswered(p: Prediction, strata: seq<seq<seq<Row>>>, draws: seq<seq<nat>>)
    requires Drawable(strata, draws) && AnswersStrata(p, strata)
    ensures AnswersAll(p, Drawn(strata, draws))
  {
    forall t: nat | t < LABELS ensures Answers(p, Drawn(strata, draws)[t]) {
      assert AnswersAll(p, strata[t]);
      ConcatAnswered(p, strata[t], draws[t]);
    }
  }

  /** Each label has families, all of one size. */
  predicate Balanced(strata: seq<seq<seq<Row>>>, size: nat) {
    && |strata| == LABELS && size > 0
    && forall t: nat | t < LABELS :: strata[t] != [] && forall k | 0 <= k < |strata[t]| :: |strata[t][k]| == size
  }

  lemma {:induction false} ConcatSize(families: seq<seq<Row>>, draws: seq<nat>, size: nat)
    requires Within(draws, |families|) && forall k | 0 <= k < |families| :: |families[k]| == size
    ensures |Concat(families, draws)| == |draws| * size
    decreases |draws|
  {
    if draws != [] {
      ConcatSize(families, draws[..|draws| - 1], size);
      assert |draws| * size == (|draws| - 1) * size + size;
    }
  }

  /** Whatever is drawn, each label's row adds up to the label's own number of cases. */
  lemma RowsKeepTheirSize(p: Prediction, strata: seq<seq<seq<Row>>>, draws: seq<seq<nat>>, size: nat, t: nat)
    requires Drawable(strata, draws) && AnswersStrata(p, strata) && Balanced(strata, size) && t < LABELS
    ensures AnswersAll(p, Drawn(strata, draws))
    ensures Sum(Counted(p, Drawn(strata, draws))[t]) == |strata[t]| * size > 0
  {
    DrawnAnswered(p, strata, draws);
    assert Answers(p, Drawn(strata, draws)[t]);
    RowAddsUp(Counted(p, Drawn(strata, draws))[t], p, Concat(strata[t], draws[t]));
    ConcatSize(strata[t], draws[t], size);
    assert |strata[t]| * size > 0;
  }

  /** One resample, measured for every candidate. */
  method Resample(vectors: seq<seq<seq<Tally>>>, ps: seq<Prediction>, cases: nat,
                  ghost strata: seq<seq<seq<Row>>>, ghost size: nat)
    returns (measured: seq<Measured>, ghost draws: seq<seq<nat>>)
    requires Balanced(strata, size) && cases > 0 && |vectors| == LABELS
    requires forall s: nat | s < |ps| :: AnswersStrata(ps[s], strata)
    requires forall t: nat | t < LABELS :: AllAnswer(ps, strata[t]) && Encodes(vectors[t], ps, strata[t])
    ensures Drawable(strata, draws) && |measured| == |ps|
    ensures forall s: nat | s < |ps| :: AnswersAll(ps[s], Drawn(strata, draws))
    ensures forall s: nat | s < |ps| :: IsMeasured(measured[s], Counted(ps[s], Drawn(strata, draws)), cases)
  {
    var matrices: seq<seq<seq<nat>>>;
    matrices, draws := Draw(vectors, ps, strata);
    measured := [];
    for s := 0 to |ps|
      invariant |measured| == s
      invariant forall k: nat | k < |ps| :: AnswersAll(ps[k], Drawn(strata, draws))
      invariant forall k: nat | k < s :: IsMeasured(measured[k], Counted(ps[k], Drawn(strata, draws)), cases)
    {
      forall t: nat | t < LABELS ensures Sum(matrices[s][t]) > 0 {
        RowsKeepTheirSize(ps[s], strata, draws, size, t);
      }
      var m := Measure(matrices[s], cases);
      measured := measured + [m];
    }
  }

  predicate IsMeasured(m: Measured, matrix: Matrix, cases: nat)
    requires Shaped(matrix) && cases > 0
  {
    && m.accuracy == Accuracy(matrix, cases) && m.macroF1 == MacroF1(matrix)
    && |m.byTask| == LABELS
    && forall t: nat | t < LABELS :: Sum(matrix[t]) > 0 && m.byTask[t] == Ratio(matrix[t][t], Sum(matrix[t]))
  }

  /** Draw families for each label and fill every candidate's matrix from the sparse counts. */
  method Draw(vectors: seq<seq<seq<Tally>>>, ps: seq<Prediction>, ghost strata: seq<seq<seq<Row>>>)
    returns (matrices: seq<Matrix>, ghost draws: seq<seq<nat>>)
    requires |vectors| == LABELS == |strata|
    requires forall s: nat | s < |ps| :: AnswersStrata(ps[s], strata)
    requires forall t: nat | t < LABELS ::
               strata[t] != [] && AllAnswer(ps, strata[t]) && Encodes(vectors[t], ps, strata[t])
    ensures Drawable(strata, draws) && |matrices| == |ps|
    ensures forall s: nat | s < |ps| :: AnswersAll(ps[s], Drawn(strata, draws))
    ensures forall s: nat | s < |ps| :: matrices[s] == Counted(ps[s], Drawn(strata, draws))
  {
    draws := [];
    matrices := seq(|ps|, s => []);
    for t := 0 to LABELS
      invariant |draws| == t && |matrices| == |ps|
      invariant forall u: nat | u < t :: |draws[u]| == |strata[u]| && Within(draws[u], |strata[u]|)
      invariant forall s: nat | s < |ps| :: |matrices[s]| == t
      invariant forall s: nat, u: nat | s < |ps| && u < t ::
                  IsNaive(matrices[s][u], ps[s], Concat(strata[u], draws[u]))
    {
      var chosen := Choices(|vectors[t]|);
      var rows := FillRows(vectors[t], chosen, ps, strata[t]);
      ghost var before := draws;
      draws := draws + [chosen];
      assert forall u: nat | u < t :: draws[u] == before[u];
      matrices := seq(|ps|, s requires 0 <= s < |ps| => matrices[s] + [rows[s]]);
    }
    forall s: nat | s < |ps|
      ensures AnswersAll(ps[s], Drawn(strata, draws)) && matrices[s] == Counted(ps[s], Drawn(strata, draws))
    {
      DrawnAnswered(ps[s], strata, draws);
      assert forall u: nat | u < LABELS :: IsNaive(matrices[s][u], ps[s], Concat(strata[u], draws[u]));
      SameMatrix(matrices[s], ps[s], Drawn(strata, draws));
    }
  }

  // ----- the whole analysis -----

  /** The families of every label. */
  predicate Stratified(strata: seq<seq<seq<Row>>>, keys: seq<seq<nat>>, rows: seq<Row>) {
    && |strata| == LABELS == |keys|
    && forall t: nat | t < LABELS :: Lists(strata[t], keys[t], rows, t)
  }

  lemma StrataAnswered(p: Prediction, strata: seq<seq<seq<Row>>>, keys: seq<seq<nat>>, rows: seq<Row>)
    requires Stratified(strata, keys, rows) && Answers(p, rows)
    ensures AnswersStrata(p, strata)
  {
    forall t: nat, k | t < LABELS && 0 <= k < |strata[t]| ensures Answers(p, strata[t][k]) {
      assert Lists(strata[t], keys[t], rows, t);
      FamilyHolds(rows, t, keys[t][k]);
    }
  }

  /** Equal family sizes and all labels present make the strata balanced. */
  lemma StrataAreBalanced(strata: seq<seq<seq<Row>>>, keys: seq<seq<nat>>, rows: seq<Row>) returns (size: nat)
    requires Stratified(strata, keys, rows) && AllLabels(rows) && SizesEqual(rows)
    ensures Balanced(strata, size)
  {
    LabelOccurs(rows, 0);
    size := |Family(rows, rows[0].task, rows[0].family)|;
    FamilyHolds(rows, rows[0].task, rows[0].family);
    assert rows[0] in Family(rows, rows[0].task, rows[0].family);
    forall t: nat | t < LABELS
      ensures strata[t] != [] && forall k | 0 <= k < |strata[t]| :: |strata[t][k]| == size
    {
      assert Lists(strata[t], keys[t], rows, t);
      LabelOccurs(rows, t);
      forall k | 0 <= k < |strata[t]| ensures |strata[t][k]| == size {
        var r := strata[t][k][0];
        FamilyHolds(rows, t, keys[t][k]);
        assert r in strata[t][k];
        var i :| 0 <= i < |rows| && rows[i] == r;
        assert |Family(rows, rows[i].task, rows[i].family)| == |Family(rows, rows[0].task, rows[0].family)|;
      }
    }
  }

  lemma LabelOccurs(rows: seq<Row>, t: nat)
    requires AllLabels(rows) && t < LABELS
    ensures exists r :: r in rows && r.task == t
  {
    assert t in set r | r in rows :: r.task;
  }

  /** The measures of every candidate over the same draws, resample by resample. */
  predicate Bootstrapped(samples: seq<seq<Measured>>, ps: seq<Prediction>, cases: nat,
                         strata: seq<seq<seq<Row>>>, draws: seq<seq<seq<nat>>>)
    requires cases > 0
  {
    && |samples| == |draws|
    && forall b: nat | b < |draws| ::
         && Drawable(strata, draws[b]) && |samples[b]| == |ps|
         && forall s: nat | s < |ps| ::
              && AnswersAll(ps[s], Drawn(strata, draws[b]))
              && IsMeasured(samples[b][s], Counted(ps[s], Drawn(strata, draws[b])), cases)
  }

  method Bootstrap(rows: seq<Row>, ps: seq<Prediction>, resamples: nat)
    returns (r: Result<seq<seq<Measured>>>, ghost strata: seq<seq<seq<Row>>>, ghost keys: seq<seq<nat>>,
             ghost draws: seq<seq<seq<nat>>>)
    ensures r.Err? ==> FirstError(rows, ps, resamples) == Err(r.error)
    ensures r.Ok? ==> && FirstError(rows, ps, resamples).Ok? && rows != [] && |draws| == resamples
                      && Stratified(strata, keys, rows)
                      && Bootstrapped(r.value, ps, |rows|, strata, draws)
  {
    strata, keys, draws := [], [], [];
    if resamples < 100 { return Err(TooFewResamples), strata, keys, draws; }
    if !Covered(rows, ps) { return Err(CoverageDiffers), strata, keys, draws; }
    if !AllLabels(rows) { return Err(LabelsMissing), strata, keys, draws; }
    if !FamiliesWhole(rows) { return Err(FamilySpansLabels), strata, keys, draws; }
    if !SizesEqual(rows) { return Err(FamilySizesDiffer), strata, keys, draws; }
    var vectors;
    vectors, strata, keys := Vectors(rows, ps);
    assert Stratified(strata, keys, rows);
    ghost var size := StrataAreBalanced(strata, keys, rows);
    LabelOccurs(rows, 0);
    AllAnswerStrata(ps, strata, keys, rows);
    var samples;
    samples, draws := ResampleAll(vectors, ps, |rows|, resamples, strata, size);
    r := Ok(samples);
  }

  lemma AllAnswerStrata(ps: seq<Prediction>, strata: seq<seq<seq<Row>>>, keys: seq<seq<nat>>, rows: seq<Row>)
    requires Covered(rows, ps) && Stratified(strata, keys, rows)
    ensures forall s: nat | s < |ps| :: AnswersStrata(ps[s], strata)
  {
    forall s: nat | s < |ps| ensures AnswersStrata(ps[s], strata) {
      CoveredAnswers(rows, ps, s);
      StrataAnswered(ps[s], strata, keys, rows);
    }
  }

  /** As many resamples as asked for, each with draws of its own. */
  method ResampleAll(vectors: seq<seq<seq<Tally>>>, ps: seq<Prediction>, cases: nat, resamples: nat,
                     ghost strata: seq<seq<seq<Row>>>, ghost size: nat)
    returns (samples: seq<seq<Measured>>, ghost draws: seq<seq<seq<nat>>>)
    requires Balanced(strata, size) && cases > 0 && |vectors| == LABELS
    requires forall s: nat | s < |ps| :: AnswersStrata(ps[s], strata)
    requires forall t: nat | t < LABELS :: AllAnswer(ps, strata[t]) && Encodes(vectors[t], ps, strata[t])
    ensures |draws| == resamples && Bootstrapped(samples, ps, cases, strata, draws)
  {
    samples, draws := [], [];
    for b := 0 to resamples
      invariant |samples| == b == |draws| && Bootstrapped(samples, ps, cases, strata, draws)
    {
      var measured;
      ghost var drawn;
      measured, drawn := Resample(vectors, ps, cases, strata, size);
      samples, draws := samples + [measured], draws + [drawn];
    }
  }

  lemma CoveredAnswers(rows: seq<Row>, ps: seq<Prediction>, s: nat)
    requires Covered(rows, ps) && s < |ps|
    ensures Answers(ps[s], rows)
  {
    forall r | r in rows ensures r.id in ps[s] {
      assert r.id in set q | q in rows :: q.id;
    }
  }

  method Vectors(rows: seq<Row>, ps: seq<Prediction>)
    returns (vectors: seq<seq<seq<Tally>>>, ghost strata: seq<seq<seq<Row>>>, ghost keys: seq<seq<nat>>)
    requires Covered(rows, ps) && AllLabels(rows)
    ensures |vectors| == LABELS && AllPrepared(vectors, strata, keys, rows, ps)
  {
    var byTask := GroupRows(rows);
    vectors, strata, keys := [], [], [];
    for t := 0 to LABELS
      invariant |vectors| == t && AllPrepared(vectors, strata, keys, rows, ps)
    {
      var families, names, encoded := LabelVectors(byTask, rows, ps, t);
      OneMorePrepared(vectors, strata, keys, rows, ps, encoded, families, names);
      vectors, strata, keys := vectors + [encoded], strata + [families], keys + [names];
    }
  }

  lemma OneMorePrepared(vectors: seq<seq<seq<Tally>>>, strata: seq<seq<seq<Row>>>, keys: seq<seq<nat>>, rows: seq<Row>,
                        ps: seq<Prediction>, encoded: seq<seq<Tally>>, families: seq<seq<Row>>, names: seq<nat>)
    requires AllPrepared(vectors, strata, keys, rows, ps)
    requires Prepared(encoded, families, names, rows, ps, |vectors|)
    ensures AllPrepared(vectors + [encoded], strata + [families], keys + [names], rows, ps)
  {
    forall t: nat | t < |vectors| + 1
      ensures Prepared((vectors + [encoded])[t], (strata + [families])[t], (keys + [names])[t], rows, ps, t)
    {
      if t < |vectors| {
        assert Prepared(vectors[t], strata[t], keys[t], rows, ps, t);
      }
    }
  }

  predicate AllPrepared(vectors: seq<seq<seq<Tally>>>, strata: seq<seq<seq<Row>>>, keys: seq<seq<nat>>,
                        rows: seq<Row>, ps: seq<Prediction>)
  {
    && |vectors| == |strata| == |keys|
    && forall t: nat | t < |vectors| :: Prepared(vectors[t], strata[t], keys[t], rows, ps, t)
  }

  /** One label's families and their sparse counts. */
  predicate Prepared(encoded: seq<seq<Tally>>, families: seq<seq<Row>>, keys: seq<nat>, rows: seq<Row>,
                     ps: seq<Prediction>, t: nat)
  {
    Lists(families, keys, rows, t) && AllAnswer(ps, families) && Encodes(encoded, ps, families)
  }

  method LabelVectors(byTask: map<nat, Groups>, rows: seq<Row>, ps: seq<Prediction>, t: nat)
    returns (families: seq<seq<Row>>, names: seq<nat>, encoded: seq<seq<Tally>>)
    requires GroupsBy(byTask, rows) && Covered(rows, ps) && AllLabels(rows) && t < LABELS
    ensures Prepared(encoded, families, names, rows, ps, t)
  {
    LabelOccurs(rows, t);
    families, names := SortFamilies(byTask[t]);
    forall s | 0 <= s < |ps| ensures AnswersAll(ps[s], families) {
      CoveredAnswers(rows, ps, s);
      forall k | 0 <= k < |families| ensures Answers(ps[s], families[k]) {
        FamilyHolds(rows, t, names[k]);
      }
    }
    encoded := Encode(families, ps);
  }

  // ----- each family drawn once -----

  function Once(n: nat): (draws: seq<nat>)
    ensures |draws| == n && Within(draws, n)
  {
    seq(n, i => i)
  }

  /** What the families with these keys contribute to a cell. */
  function FamilyCells(p: Prediction, rows: seq<Row>, task: nat, keys: seq<nat>, c: nat): nat
    requires Answers(p, rows)
  {
    if keys == [] then 0
    else
      var f := keys[|keys| - 1];
      FamilyAnswered(p, rows, task, f);
      FamilyCells(p, rows, task, keys[..|keys| - 1], c) + Cell(p, Family(rows, task, f), c)
  }

  lemma FamilyAnswered(p: Prediction, rows: seq<Row>, task: nat, f: nat)
    requires Answers(p, rows)
    ensures Answers(p, Family(rows, task, f))
  {
    FamilyHolds(rows, task, f);
  }

  lemma {:induction false} NoRowsNoCells(p: Prediction, task: nat, keys: seq<nat>, c: nat)
    ensures FamilyCells(p, [], task, keys, c) == 0
    decreases |keys|
  {
    if keys != [] {
      NoRowsNoCells(p, task, keys[..|keys| - 1], c);
    }
  }

  /** One more case of this label lands in exactly one family. */
  lemma {:induction false} CaseInOneFamily(p: Prediction, rows: seq<Row>, r: Row, task: nat, keys: seq<nat>, c: nat)
    requires Answers(p, rows) && r.id in p && Sorted(keys)
    ensures Answers(p, rows + [r])
    ensures FamilyCells(p, rows + [r], task, keys, c) ==
            FamilyCells(p, rows, task, keys, c)
            + (if r.task == task && r.family in keys && Column(p, r) == c then 1 else 0)
    decreases |keys|
  {
    if keys != [] {
      var rest, f := keys[..|keys| - 1], keys[|keys| - 1];
      CaseInOneFamily(p, rows, r, task, rest, c);
      FamilyOneMore(rows, r, task, f);
      FamilyAnswered(p, rows, task, f);
      if r.task == task && r.family == f {
        CellJoins(p, Family(rows, task, f), [r], c);
        OneCell(p, r, c);
        assert f !in rest;
      } else {
        assert Family(rows + [r], task, f) == Family(rows, task, f);
        assert r.family in keys <==> r.family in rest || r.family == f;
      }
    }
  }

  lemma {:induction false} FamiliesCoverTheLabel(p: Prediction, rows: seq<Row>, task: nat, keys: seq<nat>, c: nat)
    requires Answers(p, rows) && Sorted(keys) && forall r | r in rows && r.task == task :: r.family in keys
    ensures Answers(p, Stratum(rows, task)) && FamilyCells(p, rows, task, keys, c) == Cell(p, Stratum(rows, task), c)
    decreases |rows|
  {
    HitsAreCells(p, rows, task, c);
    if rows == [] {
      NoRowsNoCells(p, task, keys, c);
    } else {
      var rest, r := rows[..|rows| - 1], rows[|rows| - 1];
      assert rows == rest + [r];
      FamiliesCoverTheLabel(p, rest, task, keys, c);
      HitsAreCells(p, rest, task, c);
      CaseInOneFamily(p, rest, r, task, keys, c);
    }
  }

  lemma {:induction false} OnceAddsFamilies(p: Prediction, rows: seq<Row>, task: nat, families: seq<seq<Row>>,
                                            keys: seq<nat>, n: nat, c: nat)
    requires Answers(p, rows) && Lists(families, keys, rows, task) && n <= |keys|
    ensures Answers(p, Concat(families, Once(n)))
    ensures Cell(p, Concat(families, Once(n)), c) == FamilyCells(p, rows, task, keys[..n], c)
    decreases n
  {
    if n > 0 {
      OnceAddsFamilies(p, rows, task, families, keys, n - 1, c);
      assert Once(n)[..n - 1] == Once(n - 1) && keys[..n][..n - 1] == keys[..n - 1];
      FamilyAnswered(p, rows, task, keys[n - 1]);
      CellJoins(p, Concat(families, Once(n - 1)), families[n - 1], c);
    }
  }

  function EachOnce(strata: seq<seq<seq<Row>>>): (draws: seq<seq<nat>>)
    requires |strata| == LABELS
    ensures Drawable(strata, draws)
  {
    seq(LABELS, t requires 0 <= t < LABELS => Once(|strata[t]|))
  }

  /** Drawing every family exactly once gives the matrix that scoring the cases directly gives, and so
      the same accuracy and macro F1. */
  lemma EachOnceIsTheScore(p: Prediction, rows: seq<Row>, strata: seq<seq<seq<Row>>>, keys: seq<seq<nat>>)
    requires Answers(p, rows) && Stratified(strata, keys, rows)
    ensures AnswersAll(p, Drawn(strata, EachOnce(strata))) && AnswersAll(p, Strata(rows))
    ensures Counted(p, Drawn(strata, EachOnce(strata))) == Counted(p, Strata(rows))
  {
    StrataAnswered(p, strata, keys, rows);
    DrawnAnswered(p, strata, EachOnce(strata));
    forall t: nat | t < LABELS ensures Answers(p, Strata(rows)[t]) {
      StratumAnswered(p, rows, t);
    }
    forall t: nat, c: nat | t < LABELS && c < COLUMNS
      ensures Cell(p, Drawn(strata, EachOnce(strata))[t], c) == Cell(p, Strata(rows)[t], c)
    {
      assert Lists(strata[t], keys[t], rows, t);
      OnceAddsFamilies(p, rows, t, strata[t], keys[t], |keys[t]|, c);
      assert keys[t][..|keys[t]|] == keys[t];
      FamiliesCoverTheLabel(p, rows, t, keys[t], c);
    }
    SameMatrix(Counted(p, Drawn(strata, EachOnce(strata))), p, Strata(rows));
  }

  /** In every resample each label's row adds up to the label's number of cases in the corpus. */
  lemma RowsAreTheClassSizes(p: Prediction, rows: seq<Row>, strata: seq<seq<seq<Row>>>, keys: seq<seq<nat>>,
                             draws: seq<seq<nat>>, t: nat)
    requires Answers(p, rows) && Stratified(strata, keys, rows) && AllLabels(rows) && SizesEqual(rows)
    requires Drawable(strata, draws) && t < LABELS
    ensures AnswersAll(p, Drawn(strata, draws))
    ensures Sum(Counted(p, Drawn(strata, draws))[t]) == |Stratum(rows, t)| > 0
  {
    var size := StrataAreBalanced(strata, keys, rows);
    StrataAnswered(p, strata, keys, rows);
    RowsKeepTheirSize(p, strata, draws, size, t);
    RowsKeepTheirSize(p, strata, EachOnce(strata), size, t);
    EachOnceIsTheScore(p, rows, strata, keys);
    RowAddsUp(Counted(p, Strata(rows))[t], p, Stratum(rows, t));
  }

  lemma {:induction false} ClassesMakeTheCorpus(rows: seq<Row>)
    requires forall i | 0 <= i < |rows| :: rows[i].task < LABELS
    ensures |Stratum(rows, 0)| + |Stratum(rows, 1)| + |Stratum(rows, 2)| + |Stratum(rows, 3)| + |Stratum(rows, 4)|
            + |Stratum(rows, 5)| == |rows|
    decreases |rows|
  {
    if rows != [] {
      ClassesMakeTheCorpus(rows[..|rows| - 1]);
    }
  }

  // ----- a dominating candidate -----

  predicate Dominates(better: Prediction, base: Prediction, rows: seq<Row>)
    requires Answers(better, rows) && Answers(base, rows)
  {
    forall r | r in rows :: Column(base, r) == r.task ==> Column(better, r) == r.task
  }

  lemma {:induction false} MoreHits(better: Prediction, base: Prediction, cases: seq<Row>, task: nat)
    requires Answers(better, cases) && Answers(base, cases) && Dominates(better, base, cases)
    requires forall r | r in cases :: r.task == task
    ensures Cell(base, cases, task) <= Cell(better, cases, task)
    decreases |cases|
  {
    if cases != [] {
      var rest, r := cases[..|cases| - 1], cases[|cases| - 1];
      assert r in cases;
      MoreHits(better, base, rest, task);
      assert Columns(base, cases)[..|rest|] == Columns(base, rest);
      assert Columns(better, cases)[..|rest|] == Columns(better, rest);
      assert Is(task)(Column(base, r)) <= Is(task)(Column(better, r));
    }
  }

  lemma {:induction false} ConcatComesFrom(families: seq<seq<Row>>, draws: seq<nat>, rows: seq<Row>, task: nat)
    requires Within(draws, |families|)
    requires forall k, r | 0 <= k < |families| && r in families[k] :: r in rows && r.task == task
    ensures forall r | r in Concat(families, draws) :: r in rows && r.task == task
    decreases |draws|
  {
    if draws != [] {
      ConcatComesFrom(families, draws[..|draws| - 1], rows, task);
    }
  }

  lemma {:induction false} LongerDiagonal(m: Matrix, m': Matrix, n: nat)
    requires Shaped(m) && Shaped(m') && n <= LABELS
    requires forall t: nat | t < LABELS :: m[t][t] <= m'[t][t]
    ensures Diagonal(m, n) <= Diagonal(m', n)
    decreases n
  {
    if n > 0 {
      LongerDiagonal(m, m', n - 1);
    }
  }

  /** A candidate that is right wherever the baseline is has a non-negative paired difference in every
      resample, whatever is drawn. */
  lemma DominanceSurvivesResampling(better: Prediction, base: Prediction, rows: seq<Row>,
                                    strata: seq<seq<seq<Row>>>, keys: seq<seq<nat>>, draws: seq<seq<nat>>)
    requires Answers(better, rows) && Answers(base, rows) && Dominates(better, base, rows) && rows != []
    requires Stratified(strata, keys, rows) && Drawable(strata, draws)
    ensures AnswersAll(better, Drawn(strata, draws)) && AnswersAll(base, Drawn(strata, draws))
    ensures Accuracy(Counted(better, Drawn(strata, draws)), |rows|)
            - Accuracy(Counted(base, Drawn(strata, draws)), |rows|) >= 0.0
  {
    StrataAnswered(better, strata, keys, rows);
    StrataAnswered(base, strata, keys, rows);
    DrawnAnswered(better, strata, draws);
    DrawnAnswered(base, strata, draws);
    var m, m' := Counted(base, Drawn(strata, draws)), Counted(better, Drawn(strata, draws));
    forall t: nat | t < LABELS ensures m[t][t] <= m'[t][t] {
      assert Lists(strata[t], keys[t], rows, t);
      forall k, r | 0 <= k < |strata[t]| && r in strata[t][k] ensures r in rows && r.task == t {
        FamilyHolds(rows, t, keys[t][k]);
      }
      ConcatComesFrom(strata[t], draws[t], rows, t);
      MoreHits(better, base, Drawn(strata, draws)[t], t);
    }
    LongerDiagonal(m, m', LABELS);
    RatioIsMonotone(Diagonal(m, LABELS), Diagonal(m', LABELS), |rows|);
  }

  lemma RatioIsMonotone(a: nat, b: nat, n: nat)
    requires a <= b && n > 0
    ensures Ratio(a, n) <= Ratio(b, n)
  {
    assert b as real == a as real + (b - a) as real;
    assert Ratio(b, n) == Ratio(a, n) + Ratio(b - a, n);
  }
}
