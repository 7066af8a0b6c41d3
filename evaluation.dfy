/** Model.run_evaluate: token accuracy and chunk precision, recall and F1 over a test set. */
module Evaluation {
  import opened Common

  /** A chunk as get_chunks yields it: (chunk type, start, end). */
  type Chunk = (int, int, int)

  /** The {tag: index} dictionary handed to get_chunks. */
  type Tags = map<string, int>

  /** get_chunks from data_helper, which is not part of this model. */
  type Chunker = (seq<int>, Tags) -> seq<Chunk>

  /** What predict_batch returns for a batch: predicted labels and true lengths. */
  datatype Prediction = Prediction(labels: seq<seq<int>>, lengths: seq<nat>)

  /** predict_batch bound to a session; the network itself is not part of this model. */
  type Predictor = seq<Sentence> -> Prediction

  /** One minibatch of the test set: sentences and their true labels. */
  datatype Batch = Batch(words: seq<Sentence>, labels: seq<seq<int>>)

  /** One sentence as the inner loop sees it: true labels, predicted labels, true length. */
  datatype Row = Row(lab: seq<int>, pred: seq<int>, len: nat)

  // ---------------------------------------------------------------- accuracy

  /** `[a == b for (a, b) in zip(lab, lab_pred)]`: one entry per position the two
      sequences both have, true iff they agree there. */
  function Matches(a: seq<int>, b: seq<int>): (r: seq<bool>)
    ensures |r| == Min(|a|, |b|)
    ensures forall i :: 0 <= i < |r| ==> (r[i] <==> a[i] == b[i])
  {
    if a == [] || b == [] then [] else [a[0] == b[0]] + Matches(a[1..], b[1..])
  }

  /** The accuracy entries one sentence contributes, after both label sequences are cut
      to the true length. */
  function RowAccs(row: Row): seq<bool>
  {
    Matches(Take(row.lab, row.len), Take(row.pred, row.len))
  }

  function Accs(rows: seq<Row>): seq<bool>
  {
    if rows == [] then [] else Accs(rows[..|rows| - 1]) + RowAccs(rows[|rows| - 1])
  }

  function CountTrue(bs: seq<bool>): nat
  {
    if bs == [] then 0 else CountTrue(bs[..|bs| - 1]) + (if bs[|bs| - 1] then 1 else 0)
  }

  lemma {:induction false} CountTrueBounded(bs: seq<bool>)
    ensures CountTrue(bs) <= |bs|
  {
    if bs != [] {
      CountTrueBounded(bs[..|bs| - 1]);
    }
  }

  /** np.mean over a list of booleans: the fraction of true entries, a number in [0, 1];
      None stands for the NaN of an empty list. */
  function Mean(bs: seq<bool>): (m: Option<real>)
    ensures m.Some? <==> |bs| > 0
    ensures m.Some? ==> m.value * |bs| as real == CountTrue(bs) as real
    ensures m.Some? ==> 0.0 <= m.value <= 1.0
  {
    if |bs| == 0 then None
    else
      CountTrueBounded(bs);
      RatioAtMostOne(CountTrue(bs), |bs|);
      Some(CountTrue(bs) as real / |bs| as real)
  }

  lemma RatioAtMostOne(a: nat, b: nat)
    requires 0 < b && a <= b
    ensures 0.0 <= a as real / b as real <= 1.0
  {
  }

  // ---------------------------------------------------------------- chunk counts

  /** `set(...)`: duplicates collapse. */
  function ChunkSet(cs: seq<Chunk>): set<Chunk>
  {
    set c | c in cs
  }

  /** The three accumulators: correct_preds, total_preds, total_correct. */
  datatype Counts = Counts(correct: nat, preds: nat, gold: nat)

  function Add(a: Counts, b: Counts): Counts
  {
    Counts(a.correct + b.correct, a.preds + b.preds, a.gold + b.gold)
  }

  /** What one sentence adds to the accumulators. */
  function RowCounts(row: Row, getChunks: Chunker, tags: Tags): Counts
  {
    var labChunks := ChunkSet(getChunks(Take(row.lab, row.len), tags));
    var predChunks := ChunkSet(getChunks(Take(row.pred, row.len), tags));
    Counts(|labChunks * predChunks|, |predChunks|, |labChunks|)
  }

  function Tally(rows: seq<Row>, getChunks: Chunker, tags: Tags): Counts
  {
    if rows == [] then Counts(0, 0, 0)
    else Add(Tally(rows[..|rows| - 1], getChunks, tags), RowCounts(rows[|rows| - 1], getChunks, tags))
  }

  predicate Bounded(c: Counts)
  {
    c.correct <= c.preds && c.correct <= c.gold
  }

  /** An intersection is no larger than either operand. */
  lemma {:induction false} IntersectionBounded(a: set<Chunk>, b: set<Chunk>)
    ensures |a * b| <= |a| && |a * b| <= |b|
  {
    assert a * b <= a && a * b <= b;
    SubsetSmaller(a * b, a);
    SubsetSmaller(a * b, b);
  }

  lemma {:induction false} SubsetSmaller(a: set<Chunk>, b: set<Chunk>)
    requires a <= b
    ensures |a| <= |b|
  {
    assert b == a + (b - a);
  }

  /** correct_preds never exceeds total_preds nor total_correct: each sentence adds the
      size of an intersection, which is bounded by both set sizes. */
  lemma {:induction false} TallyBounded(rows: seq<Row>, getChunks: Chunker, tags: Tags)
    ensures Bounded(Tally(rows, getChunks, tags))
  {
    if rows != [] {
      TallyBounded(rows[..|rows| - 1], getChunks, tags);
      var row := rows[|rows| - 1];
      IntersectionBounded(ChunkSet(getChunks(Take(row.lab, row.len), tags)),
                          ChunkSet(getChunks(Take(row.pred, row.len), tags)));
    }
  }

  // ---------------------------------------------------------------- scores

  datatype Scores = Scores(p: real, r: real, f1: real)

  /** The three guarded expressions: each is 0 unless correct_preds > 0. The divisions
      only happen under the guard, where the bounds on the counters make the
      denominators positive. */
  function ChunkScores(c: Counts): (s: Scores)
    requires Bounded(c)
    ensures 0.0 <= s.p <= 1.0 && 0.0 <= s.r <= 1.0 && 0.0 <= s.f1 <= 1.0
  {
    var p := if c.correct > 0 then c.correct as real / c.preds as real else 0.0;
    var r := if c.correct > 0 then c.correct as real / c.gold as real else 0.0;
    var f1 := if c.correct > 0 then
                RatioInUnit(c.correct, c.preds);
                RatioInUnit(c.correct, c.gold);
                HarmonicMeanBetween(p, r);
                HarmonicMean(p, r)
              else 0.0;
    Scores(p, r, f1)
  }

  /** No correct chunk: precision, recall and F1 are all reported as 0, even when no
      chunk was predicted or none was expected at all. */
  lemma ScoresWithoutCorrect(c: Counts)
    requires Bounded(c) && c.correct == 0
    ensures ChunkScores(c) == Scores(0.0, 0.0, 0.0)
  {
  }

  lemma RatioInUnit(a: nat, b: nat)
    requires 0 < a <= b
    ensures 0.0 < a as real / b as real <= 1.0
  {
    var q := a as real / b as real;
    DivTimes(a as real, b as real);
    CancelLe(q, 1.0, b as real);
  }

  // Small facts of real arithmetic, each with a context small enough to stay stable.

  lemma DivTimes(x: real, d: real)
    requires d > 0.0
    ensures (x / d) * d == x
  {
  }

  lemma TimesIsDiv(f: real, x: real, d: real)
    requires d > 0.0 && f * d == x
    ensures f == x / d
  {
  }

  lemma CancelLe(a: real, b: real, s: real)
    requires s > 0.0 && a * s <= b * s
    ensures a <= b
  {
  }

  lemma MulLeft(a: real, b: real, c: real)
    requires a <= b && c >= 0.0
    ensures c * a <= c * b
  {
  }

  lemma HarmonicAbove(p: real, r: real, h: real)
    requires 0.0 < p <= r && h * (p + r) == 2.0 * p * r
    ensures p <= h
  {
    MulLeft(p, r, p);
    assert p * (p + r) == p * p + p * r;
    assert p * (p + r) <= h * (p + r);
    CancelLe(p, h, p + r);
  }

  lemma HarmonicBelow(p: real, r: real, h: real)
    requires 0.0 < p <= r && h * (p + r) == 2.0 * p * r
    ensures h <= r
  {
    MulLeft(p, r, r);
    assert r * (p + r) == r * p + r * r;
    assert h * (p + r) <= r * (p + r);
    CancelLe(h, r, p + r);
  }

  /** F1 as the source computes it, 2pr / (p + r); the division is characterised by
      what multiplying back gives. */
  function HarmonicMean(p: real, r: real): (h: real)
    requires p > 0.0 && r > 0.0
    ensures h * (p + r) == 2.0 * p * r
  {
    DivTimes(2.0 * p * r, p + r);
    2.0 * p * r / (p + r)
  }

  /** The harmonic mean of two positive numbers lies between them. */
  lemma {:induction false} HarmonicMeanBetween(p: real, r: real)
    requires p > 0.0 && r > 0.0
    ensures var h := HarmonicMean(p, r);
      (if p <= r then p else r) <= h <= (if p <= r then r else p)
  {
    var h := HarmonicMean(p, r);
    if p <= r {
      HarmonicAbove(p, r, h);
      HarmonicBelow(p, r, h);
    } else {
      assert h * (r + p) == 2.0 * r * p;
      HarmonicAbove(r, p, h);
      HarmonicBelow(r, p, h);
    }
  }

  /** With at least one correct chunk, precision and recall lie in (0, 1] and F1 lies
      between them. */
  lemma {:induction false} ScoresBounds(c: Counts)
    requires Bounded(c) && c.correct > 0
    ensures var s := ChunkScores(c);
      && 0.0 < s.p <= 1.0 && 0.0 < s.r <= 1.0
      && (if s.p <= s.r then s.p else s.r) <= s.f1 <= (if s.p <= s.r then s.r else s.p)
  {
    var s := ChunkScores(c);
    RatioInUnit(c.correct, c.preds);
    RatioInUnit(c.correct, c.gold);
    assert s.f1 == HarmonicMean(s.p, s.r);
    HarmonicMeanBetween(s.p, s.r);
  }

  /** An independent form of the same F1: 2 * correct / (predicted + true). */
  lemma {:induction false} F1ClosedForm(c: Counts)
    requires Bounded(c) && c.correct > 0
    ensures ChunkScores(c).f1 == 2.0 * c.correct as real / (c.preds as real + c.gold as real)
  {
    var n, tp, tc := c.correct as real, c.preds as real, c.gold as real;
    var p, r := n / tp, n / tc;
    DivTimes(n, tp);
    DivTimes(n, tc);
    RatioInUnit(c.correct, c.preds);
    RatioInUnit(c.correct, c.gold);
    var f := HarmonicMean(p, r);
    assert ChunkScores(c).f1 == f;
    calc {
      f * n * (tp + tc);
      f * (n * tc + n * tp);
      { assert n * tc == p * tp * tc && n * tp == r * tc * tp; }
      f * ((p + r) * (tp * tc));
      (f * (p + r)) * (tp * tc);
      (2.0 * p * r) * (tp * tc);
      2.0 * (p * tp) * (r * tc);
      2.0 * n * n;
    }
    assert (f * (tp + tc)) * n == (2.0 * n) * n;
    TimesIsDiv(f * (tp + tc), 2.0 * n * n, n);
    TimesIsDiv(2.0 * n, 2.0 * n * n, n);
    TimesIsDiv(f, 2.0 * n, tp + tc);
  }

  lemma ScoresFromHalf()
    ensures ChunkScores(Counts(1, 2, 2)) == Scores(0.5, 0.5, 0.5)
  {
  }

  // ---------------------------------------------------------------- the test set

  /** `zip(labels, labels_pred, sequence_lengths)`, which stops at the shortest. */
  function BatchRows(labels: seq<seq<int>>, p: Prediction): seq<Row>
  {
    var n := Min(|labels|, Min(|p.labels|, |p.lengths|));
    seq(n, j requires 0 <= j < n => Row(labels[j], p.labels[j], p.lengths[j]))
  }

  /** Every sentence of the test set, batch by batch, in order. */
  function AllRows(test: seq<Batch>, predict: Predictor): seq<Row>
  {
    if test == [] then []
    else
      var last := test[|test| - 1];
      AllRows(test[..|test| - 1], predict) + BatchRows(last.labels, predict(last.words))
  }

  lemma AppendRow(rows: seq<Row>, row: Row, getChunks: Chunker, tags: Tags)
    ensures Accs(rows + [row]) == Accs(rows) + RowAccs(row)
    ensures Tally(rows + [row], getChunks, tags) == Add(Tally(rows, getChunks, tags), RowCounts(row, getChunks, tags))
  {
  }

  lemma PrefixStep(done: seq<Row>, rows: seq<Row>, j: nat)
    requires j < |rows|
    ensures done + rows[..j + 1] == (done + rows[..j]) + [rows[j]]
  {
  }

  lemma {:induction false} AllRowsStep(test: seq<Batch>, b: nat, predict: Predictor)
    requires b < |test|
    ensures AllRows(test[..b + 1], predict) == AllRows(test[..b], predict) + BatchRows(test[b].labels, predict(test[b].words))
  {
    assert test[..b + 1][..b] == test[..b];
  }

  /** Accuracy and F1 of a test set, as run_evaluate returns them. */
  function EvaluationResult(rows: seq<Row>, getChunks: Chunker, tags: Tags): (Option<real>, real)
  {
    TallyBounded(rows, getChunks, tags);
    (Mean(Accs(rows)), ChunkScores(Tally(rows, getChunks, tags)).f1)
  }

  /** The body of the inner loop of Model.run_evaluate, for one sentence: cut both label
      sequences to the true length, append their agreement to the accuracy list, and add
      the sizes of the common, predicted and true chunk sets to the three counters. */
  method AddSentence(accs: seq<bool>, correctPreds: nat, totalPreds: nat, totalCorrect: nat,
                     lab: seq<int>, labPred: seq<int>, length: nat, getChunks: Chunker, tags: Tags)
    returns (accs': seq<bool>, correctPreds': nat, totalPreds': nat, totalCorrect': nat)
    ensures accs' == accs + RowAccs(Row(lab, labPred, length))
    ensures Counts(correctPreds', totalPreds', totalCorrect')
      == Add(Counts(correctPreds, totalPreds, totalCorrect), RowCounts(Row(lab, labPred, length), getChunks, tags))
    ensures correctPreds <= totalPreds ==> correctPreds' <= totalPreds'
    ensures correctPreds <= totalCorrect ==> correctPreds' <= totalCorrect'
  {
    var labCut := Take(lab, length);
    var labPredCut := Take(labPred, length);
    accs' := accs + Matches(labCut, labPredCut);
    var labChunks := ChunkSet(getChunks(labCut, tags));
    var labPredChunks := ChunkSet(getChunks(labPredCut, tags));
    IntersectionBounded(labChunks, labPredChunks);
    correctPreds' := correctPreds + |labChunks * labPredChunks|;
    totalPreds' := totalPreds + |labPredChunks|;
    totalCorrect' := totalCorrect + |labChunks|;
  }

  /** The inner loop of Model.run_evaluate over the sentences of one batch, as `zip`
      pairs them. `done` holds the sentences seen before. */
  method AccumulateBatch(ghost done: seq<Row>, accs: seq<bool>, correctPreds: nat, totalPreds: nat,
                         totalCorrect: nat, labels: seq<seq<int>>, prediction: Prediction,
                         getChunks: Chunker, tags: Tags)
    returns (accs': seq<bool>, correctPreds': nat, totalPreds': nat, totalCorrect': nat)
    requires accs == Accs(done)
    requires Counts(correctPreds, totalPreds, totalCorrect) == Tally(done, getChunks, tags)
    requires correctPreds <= totalPreds && correctPreds <= totalCorrect
    ensures accs' == Accs(done + BatchRows(labels, prediction))
    ensures Counts(correctPreds', totalPreds', totalCorrect') == Tally(done + BatchRows(labels, prediction), getChunks, tags)
    ensures correctPreds' <= totalPreds' && correctPreds' <= totalCorrect'
  {
    accs', correctPreds', totalPreds', totalCorrect' := accs, correctPreds, totalPreds, totalCorrect;
    var labelsPred, sequenceLengths := prediction.labels, prediction.lengths;
    ghost var rows := BatchRows(labels, prediction);
    var n := Min(|labels|, Min(|labelsPred|, |sequenceLengths|));
    ghost var seen := done;
    for j := 0 to n
      invariant seen == done + rows[..j]
      invariant accs' == Accs(seen)
      invariant Counts(correctPreds', totalPreds', totalCorrect') == Tally(seen, getChunks, tags)
      invariant correctPreds' <= totalPreds' && correctPreds' <= totalCorrect'
    {
      accs', correctPreds', totalPreds', totalCorrect' :=
        AddSentence(accs', correctPreds', totalPreds', totalCorrect', labels[j], labelsPred[j],
                    sequenceLengths[j], getChunks, tags);
      ghost var row := Row(labels[j], labelsPred[j], sequenceLengths[j]);
      assert rows[j] == row;
      AppendRow(seen, row, getChunks, tags);
      PrefixStep(done, rows, j);
      seen := seen + [row];
    }
    assert rows[..n] == rows;
  }

  /** Model.run_evaluate. Walks the batches, predicting each, and accumulates the
      accuracy list and the chunk counters over their sentences, keeping correct_preds
      below total_preds and total_correct all along; then returns the mean accuracy
      (None for the NaN of an empty list) and the guarded F1. */
  method RunEvaluate(test: seq<Batch>, predict: Predictor, getChunks: Chunker, tags: Tags)
    returns (acc: Option<real>, f1: real)
    ensures (acc, f1) == EvaluationResult(AllRows(test, predict), getChunks, tags)
    ensures 0.0 <= f1 <= 1.0
  {
    var accs: seq<bool> := [];
    var correctPreds: nat, totalCorrect: nat, totalPreds: nat := 0, 0, 0;
    for b := 0 to |test|
      invariant accs == Accs(AllRows(test[..b], predict))
      invariant Counts(correctPreds, totalPreds, totalCorrect) == Tally(AllRows(test[..b], predict), getChunks, tags)
      invariant correctPreds <= totalPreds && correctPreds <= totalCorrect
    {
      var prediction := predict(test[b].words);
      accs, correctPreds, totalPreds, totalCorrect :=
        AccumulateBatch(AllRows(test[..b], predict), accs, correctPreds, totalPreds, totalCorrect,
                        test[b].labels, prediction, getChunks, tags);
      AllRowsStep(test, b, predict);
    }
    assert test[..|test|] == test;
    var counts := Counts(correctPreds, totalPreds, totalCorrect);
    var scores := ChunkScores(counts);
    if correctPreds > 0 {
      ScoresBounds(counts);
    }
    f1 := scores.f1;
    acc := Mean(accs);
  }

  // ---------------------------------------------------------------- properties

  /** Each sentence adds exactly as many accuracy entries as its two truncated label
      sequences have positions in common, each true iff the labels agree there. */
  lemma AccsAppend(rows: seq<Row>, row: Row)
    ensures Accs(rows + [row]) == Accs(rows) + RowAccs(row)
    ensures |Accs(rows + [row])| == |Accs(rows)| + Min(Min(|row.lab|, row.len), Min(|row.pred|, row.len))
    ensures forall i :: 0 <= i < |RowAccs(row)| ==>
      (Accs(rows + [row])[|Accs(rows)| + i] <==> row.lab[i] == row.pred[i])
  {
  }

  lemma {:induction false} AllTrueCount(bs: seq<bool>)
    requires forall i :: 0 <= i < |bs| ==> bs[i]
    ensures CountTrue(bs) == |bs|
  {
    if bs != [] {
      AllTrueCount(bs[..|bs| - 1]);
    }
  }

  lemma {:induction false} MeanAllTrue(bs: seq<bool>)
    requires |bs| > 0 && forall i :: 0 <= i < |bs| ==> bs[i]
    ensures Mean(bs) == Some(1.0)
  {
    AllTrueCount(bs);
    var n := |bs| as real;
    assert CountTrue(bs) as real == n;
    assert n / n == 1.0;
  }

  /** The hypothesis of PerfectPredictionAccuracy, for one sentence. */
  predicate RightWithinLength(row: Row)
  {
    forall t :: 0 <= t < row.len && t < |row.lab| && t < |row.pred| ==> row.lab[t] == row.pred[t]
  }

  lemma RowAccsAllTrue(row: Row)
    requires RightWithinLength(row)
    ensures forall k :: 0 <= k < |RowAccs(row)| ==> RowAccs(row)[k]
  {
  }

  lemma {:induction false} AccsAllTrue(rows: seq<Row>)
    requires forall i :: 0 <= i < |rows| ==> RightWithinLength(rows[i])
    ensures forall k :: 0 <= k < |Accs(rows)| ==> Accs(rows)[k]
  {
    if rows != [] {
      var init, last := rows[..|rows| - 1], rows[|rows| - 1];
      AccsAllTrue(init);
      RowAccsAllTrue(last);
      var a, ra := Accs(init), RowAccs(last);
      assert Accs(rows) == a + ra;
      forall k | 0 <= k < |a + ra| ensures (a + ra)[k] {
        if k < |a| {
          assert (a + ra)[k] == a[k];
        } else {
          assert (a + ra)[k] == ra[k - |a|];
        }
      }
    }
  }

  /** Labels predicted right at every position below each sentence's true length give
      accuracy entries that are all true, and an accuracy of 1, whatever lies beyond. */
  lemma {:induction false} PerfectPredictionAccuracy(rows: seq<Row>)
    requires forall i :: 0 <= i < |rows| ==> RightWithinLength(rows[i])
    ensures forall k :: 0 <= k < |Accs(rows)| ==> Accs(rows)[k]
    ensures |Accs(rows)| > 0 ==> Mean(Accs(rows)) == Some(1.0)
  {
    AccsAllTrue(rows);
    if |Accs(rows)| > 0 {
      MeanAllTrue(Accs(rows));
    }
  }

  /** Two rows that agree once cut to their true lengths. */
  predicate SameWithinLength(a: Row, b: Row)
  {
    Take(a.lab, a.len) == Take(b.lab, b.len) && Take(a.pred, a.len) == Take(b.pred, b.len)
  }

  /** Values beyond a sentence's true length, in the true or the predicted labels,
      change neither the accuracy list nor any of the three counters. */
  lemma {:induction false} EvaluationIgnoresPadding(rows: seq<Row>, rows': seq<Row>, getChunks: Chunker, tags: Tags)
    requires |rows| == |rows'|
    requires forall i :: 0 <= i < |rows| ==> SameWithinLength(rows[i], rows'[i])
    ensures Accs(rows) == Accs(rows')
    ensures Tally(rows, getChunks, tags) == Tally(rows', getChunks, tags)
  {
    if rows != [] {
      EvaluationIgnoresPadding(rows[..|rows| - 1], rows'[..|rows'| - 1], getChunks, tags);
      assert SameWithinLength(rows[|rows| - 1], rows'[|rows'| - 1]);
    }
  }

  /** The counters see each chunk once: a chunker that repeats a chunk counts as one
      that lists it once. */
  lemma {:induction false} DuplicateChunksCountOnce(row: Row, getChunks: Chunker, getChunks': Chunker, tags: Tags)
    requires ChunkSet(getChunks(Take(row.lab, row.len), tags)) == ChunkSet(getChunks'(Take(row.lab, row.len), tags))
    requires ChunkSet(getChunks(Take(row.pred, row.len), tags)) == ChunkSet(getChunks'(Take(row.pred, row.len), tags))
    ensures RowCounts(row, getChunks, tags) == RowCounts(row, getChunks', tags)
  {
  }

  /** True chunks {(PER,0,2), (LOC,3,4)} and predicted chunks {(PER,0,2), (ORG,3,4)}, the
      latter listed with a duplicate, with PER, LOC, ORG = 1, 2, 3: one correct chunk of two
      predicted and two true, so precision, recall and F1 are all one half. */
  lemma {:induction false} ChunkScoresExample(row: Row, getChunks: Chunker, tags: Tags)
    requires getChunks(Take(row.lab, row.len), tags) == [(1, 0, 2), (2, 3, 4)]
    requires getChunks(Take(row.pred, row.len), tags) == [(1, 0, 2), (3, 3, 4), (1, 0, 2)]
    ensures Tally([row], getChunks, tags) == Counts(1, 2, 2)
    ensures EvaluationResult([row], getChunks, tags).1 == 0.5
  {
    ExampleSets();
    assert [row][..0] == [];
    assert RowCounts(row, getChunks, tags) == Counts(1, 2, 2);
    ScoresFromHalf();
  }

  lemma ExampleSets()
    ensures |ChunkSet([(1, 0, 2), (2, 3, 4)])| == 2
    ensures |ChunkSet([(1, 0, 2), (3, 3, 4), (1, 0, 2)])| == 2
    ensures |ChunkSet([(1, 0, 2), (2, 3, 4)]) * ChunkSet([(1, 0, 2), (3, 3, 4), (1, 0, 2)])| == 1
  {
    var gold := ChunkSet([(1, 0, 2), (2, 3, 4)]);
    var pred := ChunkSet([(1, 0, 2), (3, 3, 4), (1, 0, 2)]);
    SetOfPair((1, 0, 2), (2, 3, 4), [(1, 0, 2), (2, 3, 4)]);
    SetOfPair((1, 0, 2), (3, 3, 4), [(1, 0, 2), (3, 3, 4), (1, 0, 2)]);
    assert gold * pred == {(1, 0, 2)};
  }

  lemma SetOfPair(x: Chunk, y: Chunk, cs: seq<Chunk>)
    requires x != y
    requires forall c :: c in cs <==> c == x || c == y
    ensures ChunkSet(cs) == {x, y} && |ChunkSet(cs)| == 2
  {
  }
}
