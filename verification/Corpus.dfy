/** The synthetic corpus: every label and domain contributes five families of four variants; one family of
    the five goes to development, the rest to test. */
module Corpus {

  const LABELS: nat := 6
  const DOMAINS: nat := 10
  const SLOTS: nat := 5
  const VARIANTS: nat := 4

  /** Families are named by a digest of exactly these three. */
  datatype Family = Family(task: nat, domain: nat, slot: nat)

  datatype Case = Case(family: Family, variant: nat, prompt: nat)

  datatype Written = Written(variant: nat, prompt: nat, blank: bool)

  type Document = seq<seq<Written>>

  datatype Reply<T> = Returned(value: T) | Raised

  // ----- flattening and collecting -----

  function VariantsOf(written: seq<Written>): seq<nat> {
    seq(|written|, i requires 0 <= i < |written| => written[i].variant)
  }

  /** All four variants, each once. */
  predicate OneOfEach(variants: seq<nat>) {
    |variants| == VARIANTS && forall v: nat | v < VARIANTS :: v in variants
  }

  predicate Acceptable(written: seq<Written>) {
    OneOfEach(VariantsOf(written)) && forall i | 0 <= i < |written| :: !written[i].blank
  }

  predicate Whole(document: Document) {
    |document| == SLOTS && forall s | 0 <= s < SLOTS :: Acceptable(document[s])
  }

  function FamilyCases(f: Family, written: seq<Written>): seq<Case> {
    seq(|written|, i requires 0 <= i < |written| => Case(f, written[i].variant, written[i].prompt))
  }

  /** The cases of the first families of one document, family after family. */
  function FlatCases(task: nat, domain: nat, document: Document, n: nat): seq<Case>
    requires n <= |document|
  {
    if n == 0 then []
    else FlatCases(task, domain, document, n - 1) + FamilyCases(Family(task, domain, n - 1), document[n - 1])
  }

  method Flatten(task: nat, domain: nat, document: Document) returns (r: Reply<seq<Case>>)
    ensures r.Returned? <==> Whole(document)
    ensures r.Returned? ==> r.value == FlatCases(task, domain, document, |document|)
  {
    if |document| != SLOTS { return Raised; }
    var cases: seq<Case> := [];
    for s := 0 to SLOTS
      invariant cases == FlatCases(task, domain, document, s)
      invariant forall t | 0 <= t < s :: Acceptable(document[t])
    {
      var family := FlattenFamily(Family(task, domain, s), document[s]);
      if family.Raised? { return Raised; }
      cases := cases + family.value;
    }
    return Returned(cases);
  }

  method FlattenFamily(f: Family, written: seq<Written>) returns (r: Reply<seq<Case>>)
    ensures r.Returned? <==> Acceptable(written)
    ensures r.Returned? ==> r.value == FamilyCases(f, written)
  {
    if !OneOfEach(VariantsOf(written)) { return Raised; }
    var cases: seq<Case> := [];
    for i := 0 to |written|
      invariant cases == FamilyCases(f, written[..i])
      invariant forall j | 0 <= j < i :: !written[j].blank
    {
      if written[i].blank { return Raised; }
      cases := cases + [Case(f, written[i].variant, written[i].prompt)];
    }
    assert written[..|written|] == written;
    return Returned(cases);
  }

  predicate AllWhole(documents: seq<Document>) {
    forall d | 0 <= d < |documents| :: Whole(documents[d])
  }

  /** One document for every label and domain, each acceptable. */
  predicate Complete(documents: seq<seq<Document>>) {
    && |documents| == LABELS
    && forall t | 0 <= t < LABELS :: |documents[t]| == DOMAINS && AllWhole(documents[t])
  }

  predicate Shaped(documents: seq<seq<Document>>) {
    |documents| == LABELS && forall t | 0 <= t < LABELS :: |documents[t]| == DOMAINS
  }

  function LabelCases(task: nat, documents: seq<Document>, n: nat): seq<Case>
    requires n <= |documents|
  {
    if n == 0 then []
    else LabelCases(task, documents, n - 1) + FlatCases(task, n - 1, documents[n - 1], |documents[n - 1]|)
  }

  function AllCases(documents: seq<seq<Document>>, n: nat): seq<Case>
    requires n <= |documents|
  {
    if n == 0 then []
    else AllCases(documents, n - 1) + LabelCases(n - 1, documents[n - 1], |documents[n - 1]|)
  }

  /** Of the first labels every document is whole. */
  predicate LabelsWhole(documents: seq<seq<Document>>, n: nat)
    requires n <= |documents|
  {
    n == 0 || (LabelsWhole(documents, n - 1) && AllWhole(documents[n - 1]))
  }

  lemma {:induction false} LabelWhole(documents: seq<seq<Document>>, n: nat, t: nat)
    requires t < n <= |documents| && LabelsWhole(documents, n)
    ensures AllWhole(documents[t])
    decreases n
  {
    if t < n - 1 {
      LabelWhole(documents, n - 1, t);
    }
  }

  lemma AllLabelsWhole(documents: seq<seq<Document>>)
    requires Shaped(documents) && LabelsWhole(documents, |documents|)
    ensures Complete(documents)
  {
    forall t | 0 <= t < |documents| ensures AllWhole(documents[t]) {
      LabelWhole(documents, |documents|, t);
    }
  }

  lemma NotComplete(documents: seq<seq<Document>>, t: nat)
    requires t < |documents| && !AllWhole(documents[t])
    ensures !Complete(documents)
  {
  }

  method Collect(documents: seq<seq<Document>>) returns (r: Reply<seq<Case>>)
    requires Shaped(documents)
    ensures r.Returned? <==> Complete(documents)
    ensures r.Returned? ==> r.value == AllCases(documents, |documents|)
  {
    var cases: seq<Case> := [];
    for t := 0 to |documents|
      invariant LabelsWhole(documents, t)
      invariant cases == AllCases(documents, t)
    {
      var collected := CollectLabel(t, documents[t]);
      if collected.Raised? {
        NotComplete(documents, t);
        return Raised;
      }
      cases := cases + collected.value;
    }
    AllLabelsWhole(documents);
    return Returned(cases);
  }

  method CollectLabel(task: nat, documents: seq<Document>) returns (r: Reply<seq<Case>>)
    requires |documents| == DOMAINS
    ensures r.Returned? <==> AllWhole(documents)
    ensures r.Returned? ==> r.value == LabelCases(task, documents, |documents|)
  {
    var cases: seq<Case> := [];
    for d := 0 to DOMAINS
      invariant forall e | 0 <= e < d :: Whole(documents[e])
      invariant cases == LabelCases(task, documents, d)
    {
      var flat := Flatten(task, d, documents[d]);
      if flat.Raised? { return Raised; }
      cases := cases + flat.value;
    }
    return Returned(cases);
  }

  // ----- splitting -----

  /** The slot drawn for every label and domain. */
  predicate Drawn(slots: seq<seq<nat>>) {
    && |slots| == LABELS
    && forall t | 0 <= t < LABELS :: |slots[t]| == DOMAINS && forall d | 0 <= d < DOMAINS :: slots[t][d] < SLOTS
  }

  predicate Placed(c: Case) {
    c.family.task < LABELS && c.family.domain < DOMAINS
  }

  /** Whether the case goes to development: it depends on the family alone. */
  predicate Chosen(slots: seq<seq<nat>>, f: Family) {
    f.task < |slots| && f.domain < |slots[f.task]| && f.slot == slots[f.task][f.domain]
  }

  /** Each case goes to one side, in the order given, which is that of the identifiers. */
  method SplitCases(ordered: seq<Case>, slots: seq<seq<nat>>) returns (dev: seq<Case>, test: seq<Case>)
    requires Drawn(slots) && forall i | 0 <= i < |ordered| :: Placed(ordered[i])
    ensures multiset(dev) + multiset(test) == multiset(ordered)
    ensures forall i | 0 <= i < |dev| :: Chosen(slots, dev[i].family)
    ensures forall i | 0 <= i < |test| :: !Chosen(slots, test[i].family)
    ensures forall i, j | 0 <= i < |dev| && 0 <= j < |test| :: dev[i].family != test[j].family
  {
    dev, test := [], [];
    for k := 0 to |ordered|
      invariant multiset(dev) + multiset(test) == multiset(ordered[..k])
      invariant forall i | 0 <= i < |dev| :: Chosen(slots, dev[i].family)
      invariant forall i | 0 <= i < |test| :: !Chosen(slots, test[i].family)
    {
      assert ordered[..k + 1] == ordered[..k] + [ordered[k]];
      assert multiset(ordered[..k + 1]) == multiset(dev) + multiset(test) + multiset{ordered[k]};
      var f := ordered[k].family;
      if f.slot == slots[f.task][f.domain] {
        dev := dev + [ordered[k]];
      } else {
        test := test + [ordered[k]];
      }
    }
    assert ordered[..|ordered|] == ordered;
  }

  // ----- counting -----

  function Count(cases: seq<Case>, p: Case -> bool): nat {
    if cases == [] then 0
    else Count(cases[..|cases| - 1], p) + if p(cases[|cases| - 1]) then 1 else 0
  }

  lemma {:induction false} CountJoins(a: seq<Case>, b: seq<Case>, p: Case -> bool)
    ensures Count(a + b, p) == Count(a, p) + Count(b, p)
    decreases |b|
  {
    if b == [] {
      assert a + b == a;
    } else {
      assert (a + b)[..|a + b| - 1] == a + b[..|b| - 1];
      CountJoins(a, b[..|b| - 1], p);
    }
  }

  lemma WithoutOne(rest: seq<Case>, x: Case, left: seq<Case>, right: seq<Case>)
    requires multiset(rest + [x]) == multiset(left + [x] + right)
    ensures multiset(rest) == multiset(left + right)
  {
    assert multiset(rest) == multiset(rest + [x]) - multiset{x};
    assert multiset(left + right) == multiset(left + [x] + right) - multiset{x};
  }

  /** Counting does not depend on the order. */
  lemma {:induction false} CountOfPermutation(a: seq<Case>, b: seq<Case>, p: Case -> bool)
    requires multiset(a) == multiset(b)
    ensures Count(a, p) == Count(b, p)
    decreases |a|
  {
    if a == [] {
      assert |multiset(b)| == 0;
    } else {
      var rest, x := a[..|a| - 1], a[|a| - 1];
      assert a == rest + [x] && x in multiset(a);
      var k :| 0 <= k < |b| && b[k] == x;
      var left, right := b[..k], b[k + 1..];
      assert b == left + [x] + right;
      WithoutOne(rest, x, left, right);
      CountOfPermutation(rest, left + right, p);
      CountJoins(left + [x], right, p);
      CountJoins(left, [x], p);
      CountJoins(left, right, p);
      CountJoins(rest, [x], p);
    }
  }

  /** The cases of one label that go to development. */
  function ChosenOf(slots: seq<seq<nat>>, task: nat): Case -> bool {
    (c: Case) => c.family.task == task && Chosen(slots, c.family)
  }

  lemma {:induction false} CountUniform(cases: seq<Case>, p: Case -> bool, hit: bool)
    requires forall i | 0 <= i < |cases| :: p(cases[i]) == hit
    ensures Count(cases, p) == if hit then |cases| else 0
    decreases |cases|
  {
    if cases != [] {
      CountUniform(cases[..|cases| - 1], p, hit);
    }
  }

  lemma {:induction false} OneFamilyPerDocument(slots: seq<seq<nat>>, l: nat, task: nat, domain: nat,
                                                document: Document, n: nat)
    requires Drawn(slots) && task < LABELS && domain < DOMAINS
    requires n <= |document| && forall s | 0 <= s < n :: Acceptable(document[s])
    ensures Count(FlatCases(task, domain, document, n), ChosenOf(slots, l)) ==
            if task == l && slots[task][domain] < n then VARIANTS else 0
    decreases n
  {
    if n > 0 {
      var f := Family(task, domain, n - 1);
      OneFamilyPerDocument(slots, l, task, domain, document, n - 1);
      CountJoins(FlatCases(task, domain, document, n - 1), FamilyCases(f, document[n - 1]), ChosenOf(slots, l));
      CountUniform(FamilyCases(f, document[n - 1]), ChosenOf(slots, l), task == l && Chosen(slots, f));
    }
  }

  lemma OneFamilyPerWholeDocument(slots: seq<seq<nat>>, l: nat, task: nat, domain: nat, document: Document)
    requires Drawn(slots) && task < LABELS && domain < DOMAINS && Whole(document)
    ensures Count(FlatCases(task, domain, document, |document|), ChosenOf(slots, l)) == if task == l then VARIANTS else 0
  {
    OneFamilyPerDocument(slots, l, task, domain, document, |document|);
  }

  /** When every document counts the same, the label counts that for each of its domains. */
  lemma {:induction false} EveryDomainCounts(task: nat, documents: seq<Document>, n: nat, p: Case -> bool, hit: bool)
    requires n <= |documents|
    requires forall d | 0 <= d < n :: Count(FlatCases(task, d, documents[d], |documents[d]|), p) == if hit then VARIANTS else 0
    ensures Count(LabelCases(task, documents, n), p) == if hit then n * VARIANTS else 0
    decreases n
  {
    if n > 0 {
      EveryDomainCounts(task, documents, n - 1, p, hit);
      CountJoins(LabelCases(task, documents, n - 1), FlatCases(task, n - 1, documents[n - 1], |documents[n - 1]|), p);
    }
  }

  /** When only the cases of one label count, the corpus counts what that label does. */
  lemma {:induction false} OnlyOneLabelCounts(documents: seq<seq<Document>>, n: nat, p: Case -> bool, l: nat, k: nat)
    requires n <= |documents|
    requires forall t | 0 <= t < n :: Count(LabelCases(t, documents[t], |documents[t]|), p) == if t == l then k else 0
    ensures Count(AllCases(documents, n), p) == if l < n then k else 0
    decreases n
  {
    if n > 0 {
      OnlyOneLabelCounts(documents, n - 1, p, l, k);
      CountJoins(AllCases(documents, n - 1), LabelCases(n - 1, documents[n - 1], |documents[n - 1]|), p);
    }
  }

  lemma ChosenOfLabel(slots: seq<seq<nat>>, l: nat, task: nat, documents: seq<Document>)
    requires Drawn(slots) && task < LABELS && |documents| == DOMAINS && AllWhole(documents)
    ensures Count(LabelCases(task, documents, |documents|), ChosenOf(slots, l)) ==
            if task == l then DOMAINS * VARIANTS else 0
  {
    forall d | 0 <= d < |documents|
      ensures Count(FlatCases(task, d, documents[d], |documents[d]|), ChosenOf(slots, l)) == if task == l then VARIANTS else 0
    {
      OneFamilyPerWholeDocument(slots, l, task, d, documents[d]);
    }
    EveryDomainCounts(task, documents, |documents|, ChosenOf(slots, l), task == l);
  }

  lemma ChosenPerLabel(slots: seq<seq<nat>>, l: nat, documents: seq<seq<Document>>)
    requires Drawn(slots) && Complete(documents) && l < LABELS
    ensures Count(AllCases(documents, |documents|), ChosenOf(slots, l)) == DOMAINS * VARIANTS
  {
    forall t | 0 <= t < |documents|
      ensures Count(LabelCases(t, documents[t], |documents[t]|), ChosenOf(slots, l)) ==
              if t == l then DOMAINS * VARIANTS else 0
    {
      ChosenOfLabel(slots, l, t, documents[t]);
    }
    OnlyOneLabelCounts(documents, |documents|, ChosenOf(slots, l), l, DOMAINS * VARIANTS);
  }

  // ----- the cases of one label -----

  function OfTask(task: nat): Case -> bool {
    (c: Case) => c.family.task == task
  }

  lemma {:induction false} FlatCasesOfTask(task: nat, domain: nat, document: Document, n: nat)
    requires n <= |document|
    ensures forall c | c in FlatCases(task, domain, document, n) :: c.family.task == task
    decreases n
  {
    if n > 0 {
      FlatCasesOfTask(task, domain, document, n - 1);
    }
  }

  lemma {:induction false} LabelCasesOfTask(task: nat, documents: seq<Document>, n: nat)
    requires n <= |documents|
    ensures forall c | c in LabelCases(task, documents, n) :: c.family.task == task
    decreases n
  {
    if n > 0 {
      LabelCasesOfTask(task, documents, n - 1);
      FlatCasesOfTask(task, n - 1, documents[n - 1], |documents[n - 1]|);
    }
  }

  lemma CasesPerLabel(documents: seq<seq<Document>>, l: nat)
    requires Complete(documents) && l < LABELS
    ensures Count(AllCases(documents, |documents|), OfTask(l)) == DOMAINS * SLOTS * VARIANTS
  {
    forall t | 0 <= t < |documents|
      ensures Count(LabelCases(t, documents[t], |documents[t]|), OfTask(l)) == if t == l then DOMAINS * SLOTS * VARIANTS else 0
    {
      LabelCasesOfTask(t, documents[t], |documents[t]|);
      CountUniform(LabelCases(t, documents[t], |documents[t]|), OfTask(l), t == l);
      SizeOfLabel(t, documents[t], |documents[t]|);
    }
    OnlyOneLabelCounts(documents, |documents|, OfTask(l), l, DOMAINS * SLOTS * VARIANTS);
  }

  lemma {:induction false} CountAgrees(cases: seq<Case>, p: Case -> bool, q: Case -> bool)
    requires forall i | 0 <= i < |cases| :: p(cases[i]) == q(cases[i])
    ensures Count(cases, p) == Count(cases, q)
    decreases |cases|
  {
    if cases != [] {
      CountAgrees(cases[..|cases| - 1], p, q);
    }
  }

  lemma {:induction false} SizeOfLabel(task: nat, documents: seq<Document>, n: nat)
    requires n <= |documents|
    requires AllWhole(documents)
    ensures |LabelCases(task, documents, n)| == n * SLOTS * VARIANTS
    decreases n
  {
    if n > 0 {
      SizeOfLabel(task, documents, n - 1);
      assert |FlatCases(task, n - 1, documents[n - 1], 0)| == 0;
      assert |FlatCases(task, n - 1, documents[n - 1], 1)| == 4;
      assert |FlatCases(task, n - 1, documents[n - 1], 2)| == 8;
      assert |FlatCases(task, n - 1, documents[n - 1], 3)| == 12;
      assert |FlatCases(task, n - 1, documents[n - 1], 4)| == 16;
    }
  }

  lemma {:induction false} SizeOfCorpus(documents: seq<seq<Document>>, n: nat)
    requires Complete(documents) && n <= LABELS
    ensures |AllCases(documents, n)| == n * DOMAINS * SLOTS * VARIANTS
    decreases n
  {
    if n > 0 {
      SizeOfCorpus(documents, n - 1);
      SizeOfLabel(n - 1, documents[n - 1], |documents[n - 1]|);
    }
  }

  lemma {:induction false} LabelsAddUp(cases: seq<Case>, slots: seq<seq<nat>>)
    requires Drawn(slots) && forall i | 0 <= i < |cases| :: Chosen(slots, cases[i].family)
    ensures |cases| == Count(cases, ChosenOf(slots, 0)) + Count(cases, ChosenOf(slots, 1)) + Count(cases, ChosenOf(slots, 2))
                       + Count(cases, ChosenOf(slots, 3)) + Count(cases, ChosenOf(slots, 4))
                       + Count(cases, ChosenOf(slots, 5))
    decreases |cases|
  {
    if cases != [] {
      LabelsAddUp(cases[..|cases| - 1], slots);
    }
  }

  /** Development gets forty cases of the label, test the others. */
  lemma SplitOfLabel(documents: seq<seq<Document>>, slots: seq<seq<nat>>, dev: seq<Case>, test: seq<Case>, l: nat)
    requires Complete(documents) && Drawn(slots) && l < LABELS
    requires multiset(dev + test) == multiset(AllCases(documents, |documents|))
    requires forall i | 0 <= i < |dev| :: Chosen(slots, dev[i].family)
    requires forall i | 0 <= i < |test| :: !Chosen(slots, test[i].family)
    ensures Count(dev, ChosenOf(slots, l)) == Count(dev, OfTask(l)) == 40 && Count(test, OfTask(l)) == 160
  {
    var all := AllCases(documents, |documents|);
    CountOfPermutation(dev + test, all, ChosenOf(slots, l));
    CountJoins(dev, test, ChosenOf(slots, l));
    CountUniform(test, ChosenOf(slots, l), false);
    ChosenPerLabel(slots, l, documents);
    CountAgrees(dev, ChosenOf(slots, l), OfTask(l));
    CountOfPermutation(dev + test, all, OfTask(l));
    CountJoins(dev, test, OfTask(l));
    CasesPerLabel(documents, l);
  }

  /** For every draw, and whatever order the identifiers put the cases in, a fifth of the corpus is
      development and the rest is test, with forty and a hundred and sixty cases of each label. */
  lemma SplitSizes(documents: seq<seq<Document>>, slots: seq<seq<nat>>, dev: seq<Case>, test: seq<Case>, l: nat)
    requires Complete(documents) && Drawn(slots) && l < LABELS
    requires multiset(dev) + multiset(test) == multiset(AllCases(documents, |documents|))
    requires forall i | 0 <= i < |dev| :: Chosen(slots, dev[i].family)
    requires forall i | 0 <= i < |test| :: !Chosen(slots, test[i].family)
    ensures Count(dev, OfTask(l)) == 40 && Count(test, OfTask(l)) == 160
    ensures |dev| == 240 && |test| == 960
  {
    var all := AllCases(documents, |documents|);
    assert multiset(dev + test) == multiset(all);
    forall k: nat | k < LABELS ensures Count(dev, ChosenOf(slots, k)) == 40 {
      SplitOfLabel(documents, slots, dev, test, k);
    }
    SplitOfLabel(documents, slots, dev, test, l);
    LabelsAddUp(dev, slots);
    SizeOfCorpus(documents, |documents|);
    assert |multiset(dev + test)| == |multiset(all)|;
  }

  // ----- validation -----

  /** A case as it is stored: nothing ties its family to its label or domain yet. */
  datatype Stored = Stored(id: nat, prompt: nat, words: nat, family: nat, task: nat, domain: nat, variant: nat)

  function Members(cases: seq<Stored>, f: nat): seq<Stored> {
    if cases == [] then []
    else
      var c := cases[|cases| - 1];
      Members(cases[..|cases| - 1], f) + if c.family == f then [c] else []
  }

  function OfLabel(cases: seq<Stored>, t: nat): seq<Stored> {
    if cases == [] then []
    else
      var c := cases[|cases| - 1];
      OfLabel(cases[..|cases| - 1], t) + if c.task == t then [c] else []
  }

  predicate Distinct(xs: seq<nat>) {
    forall i, j | 0 <= i < j < |xs| :: xs[i] != xs[j]
  }

  predicate CaseOk(c: Stored) {
    c.task < LABELS && c.domain < DOMAINS && 10 <= c.words <= 160
  }

  predicate FamilyOk(family: seq<Stored>) {
    && OneOfEach(seq(|family|, i requires 0 <= i < |family| => family[i].variant))
    && (forall i, j | 0 <= i < |family| && 0 <= j < |family| ::
          family[i].task == family[j].task && family[i].domain == family[j].domain)
  }

  /** The sizes of the labels that occur are all the expected one, and there is one. */
  predicate LabelsEven(cases: seq<Stored>, size: nat) {
    && cases != []
    && forall i | 0 <= i < |cases| :: |OfLabel(cases, cases[i].task)| == size / 6
  }

  predicate Accepted(cases: seq<Stored>, size: nat) {
    && |cases| == size
    && Distinct(seq(|cases|, i requires 0 <= i < |cases| => cases[i].id))
    && Distinct(seq(|cases|, i requires 0 <= i < |cases| => cases[i].prompt))
    && (forall i | 0 <= i < |cases| :: CaseOk(cases[i]))
    && (forall i | 0 <= i < |cases| :: FamilyOk(Members(cases, cases[i].family)))
    && LabelsEven(cases, size)
  }

  method ValidateCases(cases: seq<Stored>, size: nat) returns (ok: bool)
    ensures ok <==> Accepted(cases, size)
  {
    if |cases| != size { return false; }
    if !Distinct(seq(|cases|, i requires 0 <= i < |cases| => cases[i].id)) { return false; }
    if !Distinct(seq(|cases|, i requires 0 <= i < |cases| => cases[i].prompt)) { return false; }
    var grouped, families := GroupCases(cases);
    if !grouped { return false; }
    if exists f | f in families :: !FamilyOk(families[f]) {
      ghost var f :| f in families && !FamilyOk(families[f]);
      MemberOccurs(cases, f);
      return false;
    }
    return LabelsEven(cases, size);
  }

  method GroupOne(families: map<nat, seq<Stored>>, cases: seq<Stored>, k: nat) returns (more: map<nat, seq<Stored>>)
    requires k < |cases| && Groups(families, cases[..k])
    ensures Groups(more, cases[..k + 1])
  {
    AddToGroup(families, cases[..k], cases[k]);
    assert cases[..k + 1] == cases[..k] + [cases[k]];
    more := Added(families, cases[k]);
  }

  method GroupCases(cases: seq<Stored>) returns (ok: bool, families: map<nat, seq<Stored>>)
    ensures ok <==> forall i | 0 <= i < |cases| :: CaseOk(cases[i])
    ensures ok ==> Groups(families, cases)
  {
    families := map[];
    for k := 0 to |cases|
      invariant forall i | 0 <= i < k :: CaseOk(cases[i])
      invariant Groups(families, cases[..k])
    {
      if !CaseOk(cases[k]) { return false, families; }
      families := GroupOne(families, cases, k);
    }
    assert cases[..|cases|] == cases;
    ok := true;
  }

  predicate Groups(families: map<nat, seq<Stored>>, cases: seq<Stored>) {
    && (forall i | 0 <= i < |cases| :: cases[i].family in families)
    && (forall f | f in families :: families[f] == Members(cases, f) != [])
  }

  function Added(families: map<nat, seq<Stored>>, c: Stored): map<nat, seq<Stored>> {
    families[c.family := (if c.family in families then families[c.family] else []) + [c]]
  }

  lemma AddToGroup(families: map<nat, seq<Stored>>, cases: seq<Stored>, c: Stored)
    requires Groups(families, cases)
    ensures Groups(Added(families, c), cases + [c])
  {
    var after := Added(families, c);
    if c.family !in families {
      NoMembers(cases, c.family);
    }
    forall f | f in after ensures after[f] == Members(cases + [c], f) != [] {
      OneMore(cases, c, f, 0);
    }
  }

  lemma {:induction false} NoMembers(cases: seq<Stored>, f: nat)
    requires forall i | 0 <= i < |cases| :: cases[i].family != f
    ensures Members(cases, f) == []
    decreases |cases|
  {
    if cases != [] {
      NoMembers(cases[..|cases| - 1], f);
    }
  }

  lemma {:induction false} MemberOccurs(cases: seq<Stored>, f: nat)
    requires Members(cases, f) != []
    ensures exists i :: 0 <= i < |cases| && cases[i].family == f
    decreases |cases|
  {
    var rest := cases[..|cases| - 1];
    if cases[|cases| - 1].family != f {
      MemberOccurs(rest, f);
      var i :| 0 <= i < |rest| && rest[i].family == f;
      assert cases[i].family == f;
    }
  }

  function FamiliesOf(cases: seq<Stored>): set<nat> {
    set c | c in cases :: c.family
  }

  function Without(cases: seq<Stored>, f: nat): seq<Stored> {
    if cases == [] then []
    else
      var c := cases[|cases| - 1];
      Without(cases[..|cases| - 1], f) + if c.family != f then [c] else []
  }

  lemma OneMore(rest: seq<Stored>, c: Stored, f: nat, t: nat)
    ensures Members(rest + [c], f) == if c.family == f then Members(rest, f) + [c] else Members(rest, f)
    ensures Without(rest + [c], f) == if c.family != f then Without(rest, f) + [c] else Without(rest, f)
    ensures OfLabel(rest + [c], t) == if c.task == t then OfLabel(rest, t) + [c] else OfLabel(rest, t)
  {
    assert (rest + [c])[..|rest|] == rest;
  }

  lemma {:induction false} WithoutSplits(cases: seq<Stored>, f: nat)
    ensures |cases| == |Members(cases, f)| + |Without(cases, f)|
    ensures forall c :: c in Without(cases, f) <==> c in cases && c.family != f
    decreases |cases|
  {
    if cases != [] {
      WithoutSplits(cases[..|cases| - 1], f);
      assert cases == cases[..|cases| - 1] + [cases[|cases| - 1]];
    }
  }

  lemma {:induction false} WithoutKeepsOthers(cases: seq<Stored>, f: nat, g: nat)
    requires g != f
    ensures Members(Without(cases, f), g) == Members(cases, g)
    decreases |cases|
  {
    if cases != [] {
      var rest, c := cases[..|cases| - 1], cases[|cases| - 1];
      assert cases == rest + [c];
      WithoutKeepsOthers(rest, f, g);
      OneMore(rest, c, f, 0);
      OneMore(rest, c, g, 0);
      OneMore(Without(rest, f), c, g, 0);
    }
  }

  /** Families of four make up a quarter as many families as cases. */
  lemma {:induction false} FourToAFamily(cases: seq<Stored>)
    requires forall f | f in FamiliesOf(cases) :: |Members(cases, f)| == VARIANTS
    ensures |cases| == VARIANTS * |FamiliesOf(cases)|
    decreases |cases|
  {
    if cases != [] {
      var f := cases[|cases| - 1].family;
      var rest := Without(cases, f);
      assert cases[|cases| - 1] in cases;
      WithoutSplits(cases, f);
      assert FamiliesOf(rest) == FamiliesOf(cases) - {f};
      forall g | g in FamiliesOf(rest) ensures |Members(rest, g)| == VARIANTS {
        WithoutKeepsOthers(cases, f, g);
      }
      FourToAFamily(rest);
    }
  }

  lemma {:induction false} LabelHolds(cases: seq<Stored>, t: nat)
    ensures forall c :: c in OfLabel(cases, t) <==> c in cases && c.task == t
    decreases |cases|
  {
    if cases != [] {
      LabelHolds(cases[..|cases| - 1], t);
      assert cases == cases[..|cases| - 1] + [cases[|cases| - 1]];
    }
  }

  lemma {:induction false} LabelKeepsFamilies(cases: seq<Stored>, t: nat, f: nat)
    requires forall c | c in cases && c.family == f :: c.task == t
    ensures Members(OfLabel(cases, t), f) == Members(cases, f)
    decreases |cases|
  {
    if cases != [] {
      var rest, c := cases[..|cases| - 1], cases[|cases| - 1];
      assert cases == rest + [c];
      LabelKeepsFamilies(rest, t, f);
      OneMore(rest, c, f, t);
      OneMore(OfLabel(rest, t), c, f, t);
    }
  }

  lemma {:induction false} MembersHold(cases: seq<Stored>, f: nat)
    ensures forall c :: c in Members(cases, f) <==> c in cases && c.family == f
    decreases |cases|
  {
    if cases != [] {
      MembersHold(cases[..|cases| - 1], f);
      assert cases == cases[..|cases| - 1] + [cases[|cases| - 1]];
    }
  }

  lemma {:induction false} LabelsMakeTheWhole(cases: seq<Stored>)
    requires forall i | 0 <= i < |cases| :: cases[i].task < LABELS
    ensures |cases| == |OfLabel(cases, 0)| + |OfLabel(cases, 1)| + |OfLabel(cases, 2)| + |OfLabel(cases, 3)|
                       + |OfLabel(cases, 4)| + |OfLabel(cases, 5)|
    decreases |cases|
  {
    if cases != [] {
      LabelsMakeTheWhole(cases[..|cases| - 1]);
    }
  }

  /** A label that occurs at all has its sixth of an accepted corpus. */
  lemma EmptyOrEven(cases: seq<Stored>, size: nat, t: nat)
    requires LabelsEven(cases, size)
    ensures |OfLabel(cases, t)| == 0 || |OfLabel(cases, t)| == size / 6
  {
    if OfLabel(cases, t) != [] {
      var c := OfLabel(cases, t)[0];
      LabelHolds(cases, t);
      assert c in OfLabel(cases, t);
      var i :| 0 <= i < |cases| && cases[i] == c;
      assert |OfLabel(cases, cases[i].task)| == size / 6;
    }
  }

  lemma AcceptedLabelsAreSixths(cases: seq<Stored>, size: nat, t: nat)
    requires Accepted(cases, size) && t < LABELS
    ensures |OfLabel(cases, t)| * 6 == |cases| == size > 0
  {
    LabelsMakeTheWhole(cases);
    forall u: nat | u < LABELS ensures |OfLabel(cases, u)| == 0 || |OfLabel(cases, u)| == size / 6 {
      EmptyOrEven(cases, size, u);
    }
    SixSixths(size / 6, size, |OfLabel(cases, 0)|, |OfLabel(cases, 1)|, |OfLabel(cases, 2)|,
              |OfLabel(cases, 3)|, |OfLabel(cases, 4)|, |OfLabel(cases, 5)|);
  }

  lemma FamiliesHaveFour(cases: seq<Stored>)
    requires forall i | 0 <= i < |cases| :: FamilyOk(Members(cases, cases[i].family))
    ensures forall f | f in FamiliesOf(cases) :: |Members(cases, f)| == VARIANTS
  {
    forall f | f in FamiliesOf(cases) ensures |Members(cases, f)| == VARIANTS {
      var c :| c in cases && c.family == f;
      var i :| 0 <= i < |cases| && cases[i] == c;
      assert FamilyOk(Members(cases, cases[i].family));
    }
  }

  /** Acceptance forces the design: every label occurs, with a twenty-fourth of the cases as families,
      a quarter of the cases in all. */
  lemma AcceptedIsBalanced(cases: seq<Stored>, size: nat, t: nat)
    requires Accepted(cases, size) && t < LABELS
    ensures |FamiliesOf(cases)| * 4 == size > 0
    ensures |FamiliesOf(OfLabel(cases, t))| * 24 == size
  {
    FamiliesHaveFour(cases);
    FourToAFamily(cases);
    AcceptedLabelsAreSixths(cases, size, t);
    FamiliesOfOneLabel(cases, t);
    FourToAFamily(OfLabel(cases, t));
  }

  lemma SixSixths(sixth: nat, size: nat, a: nat, b: nat, c: nat, d: nat, e: nat, f: nat)
    requires sixth == size / 6 && size > 0 && a + b + c + d + e + f == size
    requires (a == 0 || a == sixth) && (b == 0 || b == sixth) && (c == 0 || c == sixth)
    requires (d == 0 || d == sixth) && (e == 0 || e == sixth) && (f == 0 || f == sixth)
    ensures 6 * sixth == size && a == b == c == d == e == f == sixth
  {
    assert 6 * sixth <= size;
  }

  lemma FamiliesOfOneLabel(cases: seq<Stored>, t: nat)
    requires forall i | 0 <= i < |cases| :: FamilyOk(Members(cases, cases[i].family))
    ensures forall f | f in FamiliesOf(OfLabel(cases, t)) :: |Members(OfLabel(cases, t), f)| == VARIANTS
  {
    forall f | f in FamiliesOf(OfLabel(cases, t)) ensures |Members(OfLabel(cases, t), f)| == VARIANTS {
      LabelHolds(cases, t);
      var c :| c in OfLabel(cases, t) && c.family == f;
      var i :| 0 <= i < |cases| && cases[i] == c;
      assert FamilyOk(Members(cases, cases[i].family));
      MembersHold(cases, f);
      assert forall d | d in cases && d.family == f :: d in Members(cases, f);
      LabelKeepsFamilies(cases, t, f);
    }
  }
}
