/** Benchmark aggregation: per-sample means and the weighted mean over the samples of a mode, over exact reals. */
module Bench {

  /** The question category number of the data set. */
  datatype Category = Category(number: int)

  datatype QAResult = QAResult(category: Category, f1: real, hitRate: real)

  datatype CatMetrics = CatMetrics(f1: real, hitRate: real, questions: nat, validF1: nat)

  datatype AggMetrics = AggMetrics(f1: real, hitRate: real, byCategory: map<Category, CatMetrics>, questions: nat, validF1: nat)

  // ------------------------------------------------------------- sums

  /** Scores below zero mark a failed grading and do not count. */
  function SumF1(qs: seq<QAResult>): real {
    if qs == [] then 0.0 else SumF1(qs[..|qs| - 1]) + (if qs[|qs| - 1].f1 >= 0.0 then qs[|qs| - 1].f1 else 0.0)
  }

  function CountF1(qs: seq<QAResult>): nat {
    if qs == [] then 0 else CountF1(qs[..|qs| - 1]) + (if qs[|qs| - 1].f1 >= 0.0 then 1 else 0)
  }

  function SumHit(qs: seq<QAResult>): real {
    if qs == [] then 0.0 else SumHit(qs[..|qs| - 1]) + qs[|qs| - 1].hitRate
  }

  function Only(qs: seq<QAResult>, category: Category): seq<QAResult> {
    if qs == [] then []
    else Only(qs[..|qs| - 1], category) + (if qs[|qs| - 1].category == category then [qs[|qs| - 1]] else [])
  }

  function Categories(qs: seq<QAResult>): set<Category> {
    set i | 0 <= i < |qs| :: qs[i].category
  }

  function Mean(sum: real, n: nat): real {
    if n == 0 then 0.0 else sum / n as real
  }

  /** The metrics of one category, or of everything, seen as plain means of the questions. */
  function CatOf(qs: seq<QAResult>): CatMetrics {
    CatMetrics(Mean(SumF1(qs), CountF1(qs)), Mean(SumHit(qs), |qs|), |qs|, CountF1(qs))
  }

  /** What aggregation means: overall means, and the means of each category that occurs. */
  function Aggregate(qs: seq<QAResult>): AggMetrics {
    AggMetrics(CatOf(qs).f1, CatOf(qs).hitRate, map c | c in Categories(qs) :: CatOf(Only(qs, c)), |qs|, CountF1(qs))
  }

  // ------------------------------------------------------- one sample

  datatype Acc = Acc(f1Sum: real, f1Count: nat, hitSum: real, hitCount: nat)

  function AccOf(qs: seq<QAResult>): Acc {
    Acc(SumF1(qs), CountF1(qs), SumHit(qs), |qs|)
  }

  function Table(qs: seq<QAResult>): map<Category, Acc> {
    map c | c in Categories(qs) :: AccOf(Only(qs, c))
  }

  lemma {:induction false} OnlyAbsent(qs: seq<QAResult>, category: Category)
    requires category !in Categories(qs)
    ensures Only(qs, category) == []
    decreases |qs|
  {
    if qs != [] {
      var front := qs[..|qs| - 1];
      assert qs[|qs| - 1].category in Categories(qs);
      forall c | c in Categories(front) ensures c in Categories(qs) {
        var i :| 0 <= i < |front| && front[i].category == c;
        assert qs[i].category == c;
      }
      OnlyAbsent(front, category);
    }
  }

  lemma {:induction false} OnlyPresent(qs: seq<QAResult>, category: Category)
    requires category in Categories(qs)
    ensures Only(qs, category) != []
    decreases |qs|
  {
    var i :| 0 <= i < |qs| && qs[i].category == category;
    if i < |qs| - 1 {
      assert qs[..|qs| - 1][i].category == category;
      OnlyPresent(qs[..|qs| - 1], category);
    }
  }

  lemma {:induction false} CategoriesOneMore(qs: seq<QAResult>, q: QAResult)
    ensures Categories(qs + [q]) == Categories(qs) + {q.category}
  {
    var next := qs + [q];
    forall c | c in Categories(next) ensures c in Categories(qs) + {q.category} {
      var j :| 0 <= j < |next| && next[j].category == c;
      assert j < |qs| ==> qs[j].category == c;
    }
    forall c | c in Categories(qs) ensures c in Categories(next) {
      var j :| 0 <= j < |qs| && qs[j].category == c;
      assert next[j].category == c;
    }
    assert next[|qs|].category in Categories(next);
  }

  lemma {:induction false} OnlyOneMore(qs: seq<QAResult>, q: QAResult, category: Category)
    ensures Only(qs + [q], category) == if category == q.category then Only(qs, category) + [q] else Only(qs, category)
  {
    assert (qs + [q])[..|qs|] == qs;
  }

  function Entry(table: map<Category, Acc>, category: Category): Acc {
    if category in table then table[category] else Acc(0.0, 0, 0.0, 0)
  }

  lemma {:induction false} TableEntry(qs: seq<QAResult>, category: Category)
    ensures Entry(Table(qs), category) == AccOf(Only(qs, category))
  {
    if category !in Categories(qs) {
      OnlyAbsent(qs, category);
    }
  }

  /** The category table after one more question. */
  lemma {:induction false} TableOneMore(qs: seq<QAResult>, q: QAResult)
    ensures Table(qs + [q]) == Table(qs)[q.category := AccOf(Only(qs, q.category) + [q])]
  {
    CategoriesOneMore(qs, q);
    forall c | c in Categories(qs + [q])
      ensures Table(qs + [q])[c] == Table(qs)[q.category := AccOf(Only(qs, q.category) + [q])][c]
    {
      OnlyOneMore(qs, q, c);
    }
  }

  function Score(q: QAResult): Acc {
    if q.f1 >= 0.0 then Acc(q.f1, 1, q.hitRate, 1) else Acc(0.0, 0, q.hitRate, 1)
  }

  lemma {:induction false} AccOneMore(qs: seq<QAResult>, q: QAResult)
    ensures AccOf(qs + [q]) == Plus(AccOf(qs), Score(q))
  {
    assert (qs + [q])[..|qs|] == qs;
  }

  /** One question joins an accumulator; a failed grading only counts as asked. */
  method AddQuestion(acc: Acc, q: QAResult) returns (next: Acc)
    ensures next == Plus(acc, Score(q))
  {
    next := acc;
    if q.f1 >= 0.0 {
      next := next.(f1Sum := next.f1Sum + q.f1, f1Count := next.f1Count + 1);
    }
    next := next.(hitSum := next.hitSum + q.hitRate, hitCount := next.hitCount + 1);
  }

  /** The accumulating loop: sums and counts, overall and per category. */
  method Accumulate(qs: seq<QAResult>) returns (total: Acc, table: map<Category, Acc>)
    ensures total == AccOf(qs) && table == Table(qs)
  {
    table := map[];
    total := Acc(0.0, 0, 0.0, 0);
    for i := 0 to |qs|
      invariant total == AccOf(qs[..i])
      invariant table == Table(qs[..i])
    {
      var q := qs[i];
      total := AddQuestion(total, q);
      var acc := AddQuestion(Entry(table, q.category), q);
      table := table[q.category := acc];
      assert qs[..i + 1] == qs[..i] + [q];
      AccOneMore(qs[..i], q);
      AccOneMore(Only(qs[..i], q.category), q);
      TableEntry(qs[..i], q.category);
      TableOneMore(qs[..i], q);
    }
    assert qs[..|qs|] == qs;
  }

  method AggregateMetrics(qs: seq<QAResult>) returns (agg: AggMetrics)
    ensures agg == Aggregate(qs)
  {
    var total, table := Accumulate(qs);
    var nHit := |qs|;
    if nHit == 0 { nHit := 1; }
    var byCategory := map c | c in table ::
      CatMetrics(if table[c].f1Count > 0 then table[c].f1Sum / table[c].f1Count as real else 0.0,
                 if table[c].hitCount > 0 then table[c].hitSum / table[c].hitCount as real else 0.0,
                 table[c].hitCount, table[c].f1Count);
    var overall := 0.0;
    if total.f1Count > 0 { overall := total.f1Sum / total.f1Count as real; }
    agg := AggMetrics(overall, total.hitSum / nHit as real, byCategory, |qs|, total.f1Count);
    assert |qs| == 0 ==> SumHit(qs) == 0.0;
  }

  // ----------------------------------------------- the samples of a mode

  /** Means weighted by their counts. */
  function Unaveraged(f1: real, validF1: nat, hitRate: real, questions: nat): Acc {
    Acc(f1 * validF1 as real, validF1, hitRate * questions as real, questions)
  }

  function OverallWeight(r: AggMetrics): Acc {
    Unaveraged(r.f1, r.validF1, r.hitRate, r.questions)
  }

  /** What one sample adds to each category it has. */
  function Weights(r: AggMetrics): map<Category, Acc> {
    map c | c in r.byCategory ::
      Unaveraged(r.byCategory[c].f1, r.byCategory[c].validF1, r.byCategory[c].hitRate, r.byCategory[c].questions)
  }

  function EachOverall(rs: seq<AggMetrics>): seq<Acc> {
    seq(|rs|, i requires 0 <= i < |rs| => OverallWeight(rs[i]))
  }

  function EachWeights(rs: seq<AggMetrics>): seq<map<Category, Acc>> {
    seq(|rs|, i requires 0 <= i < |rs| => Weights(rs[i]))
  }

  function Plus(a: Acc, b: Acc): Acc {
    Acc(a.f1Sum + b.f1Sum, a.f1Count + b.f1Count, a.hitSum + b.hitSum, a.hitCount + b.hitCount)
  }

  function Sum(accs: seq<Acc>): Acc {
    if accs == [] then Acc(0.0, 0, 0.0, 0) else Plus(Sum(accs[..|accs| - 1]), accs[|accs| - 1])
  }

  function CategorySum(ws: seq<map<Category, Acc>>, category: Category): Acc {
    if ws == [] then Acc(0.0, 0, 0.0, 0) else Plus(CategorySum(ws[..|ws| - 1], category), Entry(ws[|ws| - 1], category))
  }

  function ModeCategories(ws: seq<map<Category, Acc>>): set<Category> {
    if ws == [] then {} else ModeCategories(ws[..|ws| - 1]) + ws[|ws| - 1].Keys
  }

  function Averaged(a: Acc): CatMetrics {
    CatMetrics(Mean(a.f1Sum, a.f1Count), Mean(a.hitSum, a.hitCount), a.hitCount, a.f1Count)
  }

  /** The count-weighted averages over the samples. */
  function ModeAggregate(rs: seq<AggMetrics>): AggMetrics {
    var overall := Averaged(Sum(EachOverall(rs)));
    AggMetrics(overall.f1, overall.hitRate,
               map c | c in ModeCategories(EachWeights(rs)) :: Averaged(CategorySum(EachWeights(rs), c)),
               overall.questions, overall.validF1)
  }

  lemma {:induction false} CategorySumAbsent(ws: seq<map<Category, Acc>>, category: Category)
    requires category !in ModeCategories(ws)
    ensures CategorySum(ws, category) == Acc(0.0, 0, 0.0, 0)
    decreases |ws|
  {
    if ws != [] {
      CategorySumAbsent(ws[..|ws| - 1], category);
    }
  }

  /** The entry of `c` once the categories of `w` outside `todo` have been added to `table`. */
  function FoldedEntry(table: map<Category, Acc>, w: map<Category, Acc>, todo: set<Category>, c: Category): Acc {
    if c in todo then Entry(table, c) else Plus(Entry(table, c), Entry(w, c))
  }

  /** `next` is `table` with the categories of `w` outside `todo` added in. */
  ghost predicate Folded(next: map<Category, Acc>, table: map<Category, Acc>, w: map<Category, Acc>, todo: set<Category>) {
    && (forall c :: c in next <==> c in table || (c in w && c !in todo))
    && (forall c | c in next :: next[c] == FoldedEntry(table, w, todo, c))
  }

  lemma {:induction false} FoldOne(next: map<Category, Acc>, table: map<Category, Acc>, w: map<Category, Acc>, todo: set<Category>, c: Category)
    requires Folded(next, table, w, todo) && c in todo && c in w
    ensures Folded(next[c := Plus(Entry(next, c), w[c])], table, w, todo - {c})
  {
    assert Entry(next, c) == Entry(table, c) by {
      if c in next { assert next[c] == FoldedEntry(table, w, todo, c); }
    }
  }

  /** Folds one sample's category table, in whatever order its keys come. */
  method AddSample(table: map<Category, Acc>, r: AggMetrics) returns (next: map<Category, Acc>)
    ensures Folded(next, table, Weights(r), {})
  {
    next := table;
    ghost var w := Weights(r);
    var todo: set<Category> := r.byCategory.Keys;
    while todo != {}
      invariant todo <= r.byCategory.Keys && Folded(next, table, w, todo)
      decreases |todo|
    {
      var c: Category :| c in todo;
      var cm := r.byCategory[c];
      FoldOne(next, table, w, todo, c);
      next := next[c := Plus(Entry(next, c), Unaveraged(cm.f1, cm.validF1, cm.hitRate, cm.questions))];
      todo := todo - {c};
    }
  }

  /** Folding the next sample into a table of sums gives the table of sums of one more sample. */
  lemma {:induction false} SampleAdded(ws: seq<map<Category, Acc>>, w: map<Category, Acc>, before: map<Category, Acc>, after: map<Category, Acc>)
    requires before.Keys == ModeCategories(ws) && forall c | c in before :: before[c] == CategorySum(ws, c)
    requires Folded(after, before, w, {})
    ensures after.Keys == ModeCategories(ws + [w])
    ensures forall c | c in after :: after[c] == CategorySum(ws + [w], c)
  {
    assert (ws + [w])[..|ws|] == ws;
    assert after.Keys == before.Keys + w.Keys;
    forall c | c in after ensures after[c] == CategorySum(ws + [w], c) {
      if c !in before { CategorySumAbsent(ws, c); }
    }
  }

  lemma {:induction false} EachOneMore(rs: seq<AggMetrics>, r: AggMetrics)
    ensures EachOverall(rs + [r]) == EachOverall(rs) + [OverallWeight(r)]
    ensures EachWeights(rs + [r]) == EachWeights(rs) + [Weights(r)]
    ensures Sum(EachOverall(rs + [r])) == Plus(Sum(EachOverall(rs)), OverallWeight(r))
  {
    assert EachOverall(rs + [r]) == EachOverall(rs) + [OverallWeight(r)];
    assert (EachOverall(rs) + [OverallWeight(r)])[..|rs|] == EachOverall(rs);
  }

  /** The summing loop over the samples. */
  method SumSamples(rs: seq<AggMetrics>) returns (overall: Acc, table: map<Category, Acc>)
    ensures overall == Sum(EachOverall(rs))
    ensures table.Keys == ModeCategories(EachWeights(rs))
    ensures forall c | c in table :: table[c] == CategorySum(EachWeights(rs), c)
  {
    overall, table := Acc(0.0, 0, 0.0, 0), map[];
    for i := 0 to |rs|
      invariant overall == Sum(EachOverall(rs[..i]))
      invariant table.Keys == ModeCategories(EachWeights(rs[..i]))
      invariant forall c | c in table :: table[c] == CategorySum(EachWeights(rs[..i]), c)
    {
      var r := rs[i];
      assert rs[..i + 1] == rs[..i] + [r];
      EachOneMore(rs[..i], r);
      overall := Plus(overall, OverallWeight(r));
      ghost var before := table;
      table := AddSample(table, r);
      SampleAdded(EachWeights(rs[..i]), Weights(r), before, table);
    }
    assert rs[..|rs|] == rs;
  }

  /** Divides in place, leaving a sum of zero where nothing was counted. */
  method Average(a: Acc) returns (metrics: CatMetrics)
    requires NothingWithoutCount(a)
    ensures metrics == Averaged(a)
  {
    var f1, hitRate := a.f1Sum, a.hitSum;
    if a.f1Count > 0 { f1 := f1 / a.f1Count as real; }
    if a.hitCount > 0 { hitRate := hitRate / a.hitCount as real; }
    metrics := CatMetrics(f1, hitRate, a.hitCount, a.f1Count);
  }

  predicate NothingWithoutCount(a: Acc) {
    (a.f1Count == 0 ==> a.f1Sum == 0.0) && (a.hitCount == 0 ==> a.hitSum == 0.0)
  }

  lemma {:induction false} NothingSummed(accs: seq<Acc>)
    requires forall i | 0 <= i < |accs| :: NothingWithoutCount(accs[i])
    ensures NothingWithoutCount(Sum(accs))
  {
    if accs != [] {
      NothingSummed(accs[..|accs| - 1]);
    }
  }

  lemma {:induction false} NothingCounted(ws: seq<map<Category, Acc>>, category: Category)
    requires forall i | 0 <= i < |ws| :: NothingWithoutCount(Entry(ws[i], category))
    ensures NothingWithoutCount(CategorySum(ws, category))
    decreases |ws|
  {
    if ws != [] {
      NothingCounted(ws[..|ws| - 1], category);
    }
  }

  lemma {:induction false} WeightsCount(r: AggMetrics, category: Category)
    ensures NothingWithoutCount(OverallWeight(r)) && NothingWithoutCount(Entry(Weights(r), category))
  {
  }

  method AverageAll(table: map<Category, Acc>) returns (byCategory: map<Category, CatMetrics>)
    requires forall c | c in table :: NothingWithoutCount(table[c])
    ensures byCategory == map c | c in table :: Averaged(table[c])
  {
    byCategory := map[];
    var todo: set<Category> := table.Keys;
    while todo != {}
      invariant todo <= table.Keys && byCategory.Keys == table.Keys - todo
      invariant forall c | c in byCategory :: byCategory[c] == Averaged(table[c])
      decreases |todo|
    {
      var c: Category :| c in todo;
      var cat := Average(table[c]);
      byCategory := byCategory[c := cat];
      todo := todo - {c};
    }
  }

  method ComputeModeAgg(rs: seq<AggMetrics>) returns (agg: AggMetrics)
    ensures agg == ModeAggregate(rs)
  {
    var overall, table := SumSamples(rs);
    forall i, c | 0 <= i < |rs| ensures NothingWithoutCount(EachOverall(rs)[i]) && NothingWithoutCount(Entry(EachWeights(rs)[i], c)) {
      WeightsCount(rs[i], c);
    }
    assert rs != [] ==> NothingWithoutCount(Entry(EachWeights(rs)[0], Category(0)));
    NothingSummed(EachOverall(rs));
    var metrics := Average(overall);
    forall c | c in table ensures NothingWithoutCount(table[c]) {
      NothingCounted(EachWeights(rs), c);
    }
    var byCategory := AverageAll(table);
    agg := AggMetrics(metrics.f1, metrics.hitRate, byCategory, metrics.questions, metrics.validF1);
  }

  // --------------------------------------------------- the homomorphism

  function Flatten(samples: seq<seq<QAResult>>): seq<QAResult> {
    if samples == [] then [] else Flatten(samples[..|samples| - 1]) + samples[|samples| - 1]
  }

  function Each(samples: seq<seq<QAResult>>): seq<AggMetrics> {
    seq(|samples|, i requires 0 <= i < |samples| => Aggregate(samples[i]))
  }

  lemma {:induction false} AccConcat(xs: seq<QAResult>, ys: seq<QAResult>)
    ensures AccOf(xs + ys) == Plus(AccOf(xs), AccOf(ys))
    decreases |ys|
  {
    if ys == [] {
      assert xs + ys == xs;
    } else {
      AccConcat(xs, ys[..|ys| - 1]);
      assert (xs + ys)[..|xs + ys| - 1] == xs + ys[..|ys| - 1];
    }
  }

  lemma {:induction false} OnlyConcat(xs: seq<QAResult>, ys: seq<QAResult>, category: Category)
    ensures Only(xs + ys, category) == Only(xs, category) + Only(ys, category)
    decreases |ys|
  {
    if ys == [] {
      assert xs + ys == xs;
    } else {
      OnlyConcat(xs, ys[..|ys| - 1], category);
      assert (xs + ys)[..|xs + ys| - 1] == xs + ys[..|ys| - 1];
    }
  }

  lemma {:induction false} CategoriesConcat(xs: seq<QAResult>, ys: seq<QAResult>)
    ensures Categories(xs + ys) == Categories(xs) + Categories(ys)
  {
    var zs := xs + ys;
    forall c | c in Categories(xs) + Categories(ys) ensures c in Categories(zs) {
      if c in Categories(xs) {
        var i :| 0 <= i < |xs| && xs[i].category == c;
        assert zs[i].category == c;
      } else {
        var i :| 0 <= i < |ys| && ys[i].category == c;
        assert zs[|xs| + i].category == c;
      }
    }
  }

  lemma {:induction false} NoScoresNoSum(qs: seq<QAResult>)
    ensures CountF1(qs) == 0 ==> SumF1(qs) == 0.0
    ensures |qs| == 0 ==> SumHit(qs) == 0.0
    decreases |qs|
  {
    if qs != [] {
      NoScoresNoSum(qs[..|qs| - 1]);
    }
  }

  /** Weighting a mean by its count gives the sum back, also when nothing was counted. */
  lemma {:induction false} MeanTimesCount(sum: real, n: nat)
    requires n == 0 ==> sum == 0.0
    ensures Mean(sum, n) * n as real == sum
  {
  }

  /** Undoing the means of a list gives its sums and counts back. */
  lemma {:induction false} CatGivesSums(qs: seq<QAResult>)
    ensures var cm := CatOf(qs); Unaveraged(cm.f1, cm.validF1, cm.hitRate, cm.questions) == AccOf(qs)
  {
    NoScoresNoSum(qs);
    MeanTimesCount(SumF1(qs), CountF1(qs));
    MeanTimesCount(SumHit(qs), |qs|);
  }

  /** The metrics retain all sums and counts of the questions. */
  ghost predicate Represents(r: AggMetrics, qs: seq<QAResult>) {
    OverallWeight(r) == AccOf(qs) && Weights(r) == Table(qs)
  }

  lemma {:induction false} AggregateRepresents(qs: seq<QAResult>)
    ensures Represents(Aggregate(qs), qs)
  {
    CatGivesSums(qs);
    forall c | c in Categories(qs) ensures Weights(Aggregate(qs))[c] == AccOf(Only(qs, c)) {
      CatGivesSums(Only(qs, c));
    }
  }

  function EachAcc(samples: seq<seq<QAResult>>): seq<Acc> {
    seq(|samples|, i requires 0 <= i < |samples| => AccOf(samples[i]))
  }

  function EachTable(samples: seq<seq<QAResult>>): seq<map<Category, Acc>> {
    seq(|samples|, i requires 0 <= i < |samples| => Table(samples[i]))
  }

  /** Sums over the samples are sums over all questions. */
  lemma {:induction false} OverallOfSamples(samples: seq<seq<QAResult>>)
    ensures Sum(EachAcc(samples)) == AccOf(Flatten(samples))
  {
    if samples != [] {
      var n := |samples| - 1;
      OverallOfSamples(samples[..n]);
      assert EachAcc(samples)[..n] == EachAcc(samples[..n]);
      AccConcat(Flatten(samples[..n]), samples[n]);
    }
  }

  lemma {:induction false} CategoryOfSamples(samples: seq<seq<QAResult>>, category: Category)
    ensures CategorySum(EachTable(samples), category) == AccOf(Only(Flatten(samples), category))
    decreases |samples|
  {
    if samples != [] {
      var n := |samples| - 1;
      var front, last := samples[..n], samples[n];
      CategoryOfSamples(front, category);
      assert EachTable(samples)[..n] == EachTable(front);
      OnlyConcat(Flatten(front), last, category);
      AccConcat(Only(Flatten(front), category), Only(last, category));
      TableEntry(last, category);
    }
  }

  lemma {:induction false} CategoriesOfSamples(samples: seq<seq<QAResult>>)
    ensures ModeCategories(EachTable(samples)) == Categories(Flatten(samples))
  {
    if samples != [] {
      var n := |samples| - 1;
      CategoriesOfSamples(samples[..n]);
      assert EachTable(samples)[..n] == EachTable(samples[..n]);
      CategoriesConcat(Flatten(samples[..n]), samples[n]);
    }
  }

  /** Aggregating per sample and then over the mode is aggregating all questions at once, for any split. */
  lemma {:induction false} ModeIsHomomorphic(samples: seq<seq<QAResult>>)
    ensures ModeAggregate(Each(samples)) == Aggregate(Flatten(samples))
  {
    forall i | 0 <= i < |samples|
      ensures EachOverall(Each(samples))[i] == EachAcc(samples)[i] && EachWeights(Each(samples))[i] == EachTable(samples)[i]
    {
      AggregateRepresents(samples[i]);
    }
    assert EachOverall(Each(samples)) == EachAcc(samples) && EachWeights(Each(samples)) == EachTable(samples);
    OverallOfSamples(samples);
    CategoriesOfSamples(samples);
    forall c | c in Categories(Flatten(samples)) ensures CategorySum(EachTable(samples), c) == AccOf(Only(Flatten(samples), c)) {
      CategoryOfSamples(samples, c);
    }
  }
}
