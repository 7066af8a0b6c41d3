# German-NER: the bookkeeping layer of the sequence-labelling model

This project models, in Dafny, the part of `model.py` (class `Model`) that does not
depend on TensorFlow:

- **Evaluation**: `run_evaluate` walks the test set batch by batch. For each sentence it
  cuts the true and predicted labels to the true length and appends their position-wise
  agreement to the accuracy list. It adds the sizes of the common, predicted and true
  chunk *sets* to the counters `correct_preds`, `total_preds` and `total_correct`. At the
  end it computes precision, recall and F1, each guarded to 0 when `correct_preds` is 0.
- **Prediction**: `predict_batch` builds the feed with dropout 1.0. With a CRF output
  layer it decodes each sentence from its logits cut to its own length, in batch order.
- **Feed assembly**: `get_feed_dict` pads the batch and binds the four input
  placeholders. It then binds labels, learning rate and dropout, each only when given.
- **Training arithmetic**: the ceiling division that gives `nbatches` in `run_epoch`, and
  the per-epoch decay `lr *= lr_decay` in `train`.

Everything the layer calls but does not define is a function-valued parameter:
`sess.run` (`Decoding.Session`), `viterbi_decode` (`Decoding.Decoder`), `pad_sequences`
(`Feed.Padder`), `get_chunks` (`Evaluation.Chunker`) and `predict_batch` as
`run_evaluate` calls it (`Evaluation.Predictor`). The model proves nothing about their
results beyond what the callers themselves rely on. The `minibatches` iterator is
replaced by the sequence of batches it yields.

The evaluator's `Predictor` stands for `Decoding.PredictBatch` run on the same session
and padder: `run_evaluate` calls `predict_batch(sess, words)` (model.py:276), which is
`PredictBatch` with that session, the configured decoder and the configured head. What
`PredictBatch` promises about its result (the padder's lengths, the dropout-1.0
prediction feed, one decoding per sentence) therefore holds for the labels and lengths
the evaluator consumes. The evaluator's own facts need only an arbitrary function of the
batch, so they are stated for any predictor.

Modules: `Common` (Option, slicing, sentences), `Feed`, `Decoding`, `Evaluation`,
`Training`, one file each.

Arithmetic: P, R, F1, accuracy and the learning rate are exact `real`s, standing in for
Python floats. The three counters are `nat`. In the source they are floats that always
hold integers, which is exact for any realistic test set.

## Model

| member | source | states |
|---|---|---|
| Feed.GetFeedDict | model.py:100-130 | builds the feed by inserting keys one at a time; the result equals the key-by-key specification `FeedSpec`, and the returned lengths are those the padder reports for the word ids |
| Feed.FeedKeys | model.py:113-128 | the feed always binds word ids, sentence lengths, char ids and word lengths to the padded values; it binds labels, lr and dropout iff the matching argument is given, to that value (labels padded); no other key |
| Feed.TrainingFeedBindsAll | model.py:249 | a training step's feed, which gets labels, lr and dropout, binds every placeholder |
| Decoding.PredictionFeedDisablesDropout | model.py:215 | the prediction feed binds exactly the four inputs plus dropout, and dropout is bound to 1.0 |
| Decoding.ViterbiSequences | model.py:218-229 | one decoded sequence per (logits, length) pair, as many as the shorter list has, in order; entry i is the decoder's tag sequence for sentence i's logits cut to its own length |
| Decoding.PredictBatch | model.py:205-234 | returns the padder's true lengths; runs on the prediction feed; the CRF head gives the per-sentence decodings of ViterbiSequences from that feed's logits and transitions; the softmax head gives the network's arg-max labels |
| Decoding.OneSequencePerSentence | model.py:222-227 | if the padder reports one length per sentence (each the sentence's word count) and the network yields one row of logits per sentence, the CRF head returns exactly one sequence per sentence |
| Decoding.DecodingIgnoresPadding | model.py:224-226 | two logit rows, each at least the true length, that agree on their first `length` steps give the same decoder result |
| Evaluation.Matches | model.py:281 | the accuracy entries have as many items as the shorter of the two sequences; entry i is true iff the labels agree at i |
| Evaluation.AccsAppend | model.py:279-281 | each sentence extends the accuracy list by exactly min(min(len(lab), length), min(len(lab_pred), length)) entries; each new entry is true iff the true and predicted labels agree at that position |
| Evaluation.AddSentence | model.py:278-286 | one sentence's step: the list grows by that sentence's agreement entries; each counter grows by its chunk-set size (intersection, predicted, true); correct_preds stays at or below each of the other two counters |
| Evaluation.AccumulateBatch | model.py:278-286 | after one batch, the list and the counters equal the accuracy list and tally of all sentences seen so far plus this batch's sentences, taken in zip order; the counter bounds still hold |
| Evaluation.RunEvaluate | model.py:262-292 | returns the mean of the accuracy entries of every sentence of every batch in order (None for an empty list), and the guarded F1 of the total counters; F1 lies in [0, 1] |
| Evaluation.TallyBounded | model.py:282-286 | over any sequence of sentences, correct_preds <= total_preds and correct_preds <= total_correct |
| Evaluation.IntersectionBounded | model.py:284 | an intersection is no larger than either chunk set; this is why the bound holds at each step |
| Evaluation.DuplicateChunksCountOnce | model.py:282-286 | counters depend only on the chunk sets: two chunkers whose outputs agree as sets give the same counts, duplicates included |
| Evaluation.Mean | model.py:291 | the accuracy is defined iff the list is non-empty; then it is the fraction of true entries (accuracy times length equals the count of true entries) and lies in [0, 1] |
| Evaluation.ChunkScores | model.py:288-290 | the guarded precision, recall and F1 of the counters each lie in [0, 1], for any counters with correct_preds at or below the other two |
| Evaluation.HarmonicMean | model.py:290 | F1 = 2pr/(p+r) for positive p and r, characterised by F1 * (p + r) = 2pr |
| Evaluation.ScoresWithoutCorrect | model.py:288-290 | when correct_preds is 0, precision, recall and F1 are all 0, whatever the other counters |
| Evaluation.ScoresBounds | model.py:288-290 | when correct_preds > 0: 0 < p <= 1, 0 < r <= 1, and min(p, r) <= F1 <= max(p, r) |
| Evaluation.HarmonicMeanBetween | model.py:290 | for positive p and r, 2pr/(p+r) lies between min(p, r) and max(p, r) |
| Evaluation.F1ClosedForm | model.py:288-290 | when correct_preds > 0, F1 equals 2 * correct_preds / (total_preds + total_correct) |
| Evaluation.ScoresFromHalf | model.py:288-290 | counters (1, 2, 2) give p = r = F1 = 0.5 |
| Evaluation.ChunkScoresExample | model.py:282-290 | true chunks [(PER,0,2), (LOC,3,4)] and predicted [(PER,0,2), (ORG,3,4), (PER,0,2)] give counters (1, 2, 2) and F1 0.5 |
| Evaluation.PerfectPredictionAccuracy | model.py:279-291 | if predictions match the true labels at every position below each sentence's length, every accuracy entry is true and the accuracy is 1 (when there is any entry), whatever lies beyond the lengths |
| Evaluation.EvaluationIgnoresPadding | model.py:278-286 | sentences that agree once cut to their true lengths give the same accuracy list and the same three counters |
| Training.NBatches | model.py:247 | nbatches * batch_size >= len(train); for len(train) > 0, (nbatches - 1) * batch_size < len(train); nbatches is 0 for an empty set |
| Training.NBatchesIsLeast | model.py:247 | nbatches is the least k with k * batch_size >= len(train) |
| Training.Config.DecayLearningRate | model.py:317 | an epoch's decay multiplies config.lr by lr_decay |
| Training.Train | model.py:311-317 | runs max(nepochs, 0) epochs; epoch e reads lr0 * decay^e; afterwards config.lr = lr0 * decay^nepochs |
| Training.LrAfterComposes | model.py:311-317 | decaying a epochs and then b epochs equals decaying a + b epochs |
| Training.LrDecays | model.py:317 | with lr0 > 0 and 0 < decay <= 1, the rate stays positive and does not grow from one epoch to the next |

## Left out

- Graph construction (model.py:22-97, 133-196, 330-337) is left out. That covers placeholders, embeddings, the character convolution and max-pooling, the BiLSTM, the projection, arg-max, both losses, the Adam step and initialisation. It is TensorFlow tensor numerics on floats.
- `tf.contrib.crf.viterbi_decode` and `crf_log_likelihood` are library code and not part of this model. The decoder is a parameter, so Viterbi facts are not stated. That includes the one-tag case decoding to all zeros, and determinism beyond being a function.
- `pad_sequences`, `minibatches` and `get_chunks` (data_helper) are not part of this model. They are parameters. The only assumption ever made about the padder is `PadsFaithfully`, in OneSequencePerSentence.
- Sessions, `Saver` save/restore, the TensorBoard summary writer with its step index `epoch*nbatches + i`, and printing are I/O. This covers `add_summary`, `evaluate` (model.py:321-327) and the prints in `run_epoch`/`train`.
- The training step of `run_epoch` (the `sess.run` of the train op) is left out, and so is its `train_loss` report, which keeps only the last batch's loss. Both are about the network. Only the feed it builds (TrainingFeedBindsAll) is modelled.
- `np.mean` over an empty accuracy list gives NaN. Here `Mean` returns `None` in that case.
- Feed.GetFeedDict requires a non-empty batch. `zip(*words)` cannot unpack an empty batch, so the source raises there.
- Training.NBatches requires batch_size > 0. A zero batch size raises ZeroDivisionError in the source.
- Training.Train returns the rate each epoch read as a ghost result. The source returns nothing, and `run_epoch`'s use of `config.lr` is represented only by that record.
- Floating-point rounding (float32 placeholders, float64 counters and rates) is not modelled. All arithmetic is exact.
