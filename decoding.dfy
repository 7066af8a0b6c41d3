/** Model.predict_batch: run the network on one batch and, with a CRF output layer,
    decode each sentence separately from its own time steps. */
module Decoding {
  import opened Common
  import opened Feed

  /** Per-tag scores for each time step of one sentence. */
  type Logits = seq<seq<real>>

  /** The learned CRF transition scores, ntags by ntags. */
  type Transitions = seq<seq<real>>

  /** tf.contrib.crf.viterbi_decode, not part of this model: a tag sequence and its score. */
  type Decoder = (Logits, Transitions) -> (seq<int>, real)

  /** The static choice of output layer (config.crf). */
  datatype OutputHead = Softmax | Crf

  /** What `sess.run` yields on a feed: the logits of every sentence, the transition
      matrix, and (softmax head) the arg-max label of every padded position. */
  datatype Session = Session(
    logits: FeedDict -> seq<Logits>,
    transitions: FeedDict -> Transitions,
    labelsPred: FeedDict -> seq<seq<int>>)

  /** The feed of a prediction: no labels, no learning rate, dropout keep-probability 1.0. */
  function PredictionFeed(pad: Padder, words: seq<Sentence>): FeedDict
  {
    FeedSpec(pad, words, None, None, Some(1.0))
  }

  /** Prediction binds only the four inputs and dropout, and dropout to 1.0. */
  lemma PredictionFeedDisablesDropout(pad: Padder, words: seq<Sentence>)
    ensures PredictionFeed(pad, words).Keys == InputKeys + {Dropout}
    ensures PredictionFeed(pad, words)[Dropout] == Scalar(1.0)
  {
  }

  /** The CRF loop of predict_batch: for each (logits, length) pair, in batch order,
      cut the logits to the true length and append the decoded sequence. */
  method ViterbiSequences(logits: seq<Logits>, lengths: seq<nat>, transitions: Transitions,
                          decode: Decoder)
    returns (sequences: seq<seq<int>>)
    ensures |sequences| == Min(|logits|, |lengths|)
    ensures forall i :: 0 <= i < |sequences| ==>
      sequences[i] == decode(Take(logits[i], lengths[i]), transitions).0
  {
    sequences := [];
    var n := Min(|logits|, |lengths|);
    for i := 0 to n
      invariant |sequences| == i
      invariant forall k :: 0 <= k < i ==>
        sequences[k] == decode(Take(logits[k], lengths[k]), transitions).0
    {
      var logit := Take(logits[i], lengths[i]);
      var decoded := decode(logit, transitions);
      sequences := sequences + [decoded.0];
    }
  }

  /** Model.predict_batch. With the CRF head the result has one sequence per
      (logits, length) pair, in order, each decoded from that sentence's logits cut to
      its own length; with the softmax head it is the network's arg-max output. Both
      run on the prediction feed, whose dropout is 1.0. */
  method PredictBatch(head: OutputHead, sess: Session, decode: Decoder, pad: Padder,
                      words: seq<Sentence>)
    returns (labelsPred: seq<seq<int>>, sequenceLengths: seq<nat>)
    requires |words| > 0
    ensures sequenceLengths == PaddedWords(pad, words).1
    ensures head == Softmax ==> labelsPred == sess.labelsPred(PredictionFeed(pad, words))
    ensures head == Crf ==>
      var fd := PredictionFeed(pad, words);
      && |labelsPred| == Min(|sess.logits(fd)|, |sequenceLengths|)
      && forall i :: 0 <= i < |labelsPred| ==>
           labelsPred[i] == decode(Take(sess.logits(fd)[i], sequenceLengths[i]), sess.transitions(fd)).0
  {
    var fd;
    fd, sequenceLengths := GetFeedDict(pad, words, None, None, Some(1.0));
    if head == Crf {
      var logits, transitionParams := sess.logits(fd), sess.transitions(fd);
      labelsPred := ViterbiSequences(logits, sequenceLengths, transitionParams, decode);
    } else {
      labelsPred := sess.labelsPred(fd);
    }
  }

  /** When the padder reports one length per sentence and the network one row of logits
      per sentence, the CRF head returns exactly one sequence per sentence. */
  lemma OneSequencePerSentence(sess: Session, pad: Padder, words: seq<Sentence>,
                                                  labelsPred: seq<seq<int>>)
    requires PadsFaithfully(pad)
    requires |sess.logits(PredictionFeed(pad, words))| == |words|
    requires |labelsPred| == Min(|sess.logits(PredictionFeed(pad, words))|, |PaddedWords(pad, words).1|)
    ensures |labelsPred| == |words|
    ensures forall i :: 0 <= i < |words| ==> PaddedWords(pad, words).1[i] == |words[i].wordIds|
  {
  }

  /** Padding beyond a sentence's true length never reaches the decoder: two logit rows,
      each padded to at least the true length, that agree on the first `length` steps
      decode alike. */
  lemma {:induction false} DecodingIgnoresPadding(logit: Logits, logit': Logits, length: nat,
                                                  transitions: Transitions, decode: Decoder)
    requires length <= |logit| && length <= |logit'|
    requires forall t :: 0 <= t < length ==> logit[t] == logit'[t]
    ensures decode(Take(logit, length), transitions) == decode(Take(logit', length), transitions)
  {
    assert Take(logit, length) == Take(logit', length);
  }
}
