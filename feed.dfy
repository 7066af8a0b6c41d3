/** Assembly of the feed dictionary that binds the network's inputs (Model.get_feed_dict). */
module Feed {
  import opened Common

  /** The placeholders of the graph that a feed can bind. */
  datatype FeedKey = WordIds | SentenceLengths | CharIds | WordLengths | Labels | Lr | Dropout

  datatype FeedValue =
    | Ids(ids: seq<seq<int>>)
    | Lengths(lengths: seq<nat>)
    | CharTensor(chars: seq<seq<seq<int>>>)
    | WordLengthMatrix(wordLengths: seq<seq<nat>>)
    | Scalar(x: real)

  type FeedDict = map<FeedKey, FeedValue>

  /** pad_sequences from data_helper, which is not part of this model, in its two modes:
      `sentences` pads a list of id lists and returns the true lengths, `words` pads a
      list of sentences of character-id lists and returns the word lengths. */
  datatype Padder = Padder(
    sentences: (seq<seq<int>>, int) -> (seq<seq<int>>, seq<nat>),
    words: (seq<seq<seq<int>>>, int) -> (seq<seq<seq<int>>>, seq<seq<nat>>))

  /** The one thing the callers rely on about the padder: one true length per sentence. */
  ghost predicate PadsFaithfully(pad: Padder)
  {
    forall xs :: |pad.sentences(xs, 0).1| == |xs| &&
      forall i :: 0 <= i < |xs| ==> pad.sentences(xs, 0).1[i] == |xs[i]|
  }

  /** The keys every feed binds, whatever the optional arguments. */
  const InputKeys: set<FeedKey> := {WordIds, SentenceLengths, CharIds, WordLengths}

  const AllKeys: set<FeedKey> := InputKeys + {Labels, Lr, Dropout}

  function PaddedWords(pad: Padder, words: seq<Sentence>): (seq<seq<int>>, seq<nat>)
  {
    pad.sentences(WordIdsOf(words), 0)
  }

  function PaddedChars(pad: Padder, words: seq<Sentence>): (seq<seq<seq<int>>>, seq<seq<nat>>)
  {
    pad.words(CharIdsOf(words), 0)
  }

  /** Key by key, what the feed binds `k` to, or None when it leaves `k` unbound. */
  function Binding(k: FeedKey, pad: Padder, words: seq<Sentence>, labels: Option<seq<seq<int>>>,
                   lr: Option<real>, dropout: Option<real>): Option<FeedValue>
  {
    match k
    case WordIds => Some(Ids(PaddedWords(pad, words).0))
    case SentenceLengths => Some(Lengths(PaddedWords(pad, words).1))
    case CharIds => Some(CharTensor(PaddedChars(pad, words).0))
    case WordLengths => Some(WordLengthMatrix(PaddedChars(pad, words).1))
    case Labels => if labels.Some? then Some(Ids(pad.sentences(labels.value, 0).0)) else None
    case Lr => if lr.Some? then Some(Scalar(lr.value)) else None
    case Dropout => if dropout.Some? then Some(Scalar(dropout.value)) else None
  }

  /** The feed as a whole: every key with a binding, bound to it. */
  function FeedSpec(pad: Padder, words: seq<Sentence>, labels: Option<seq<seq<int>>>,
                    lr: Option<real>, dropout: Option<real>): FeedDict
  {
    map k | k in AllKeys && Binding(k, pad, words, labels, lr, dropout).Some? ::
      Binding(k, pad, words, labels, lr, dropout).value
  }

  /** The feed always binds the four inputs, and binds labels, lr and dropout exactly
      when the matching argument is given, each to the value given (labels padded). */
  lemma FeedKeys(pad: Padder, words: seq<Sentence>, labels: Option<seq<seq<int>>>,
                 lr: Option<real>, dropout: Option<real>)
    ensures var fd := FeedSpec(pad, words, labels, lr, dropout);
      && InputKeys <= fd.Keys
      && (Labels in fd <==> labels.Some?)
      && (Lr in fd <==> lr.Some?)
      && (Dropout in fd <==> dropout.Some?)
      && fd.Keys <= AllKeys
      && fd[WordIds] == Ids(PaddedWords(pad, words).0)
      && fd[SentenceLengths] == Lengths(PaddedWords(pad, words).1)
      && fd[CharIds] == CharTensor(PaddedChars(pad, words).0)
      && fd[WordLengths] == WordLengthMatrix(PaddedChars(pad, words).1)
      && (labels.Some? ==> fd[Labels] == Ids(pad.sentences(labels.value, 0).0))
      && (lr.Some? ==> fd[Lr] == Scalar(lr.value))
      && (dropout.Some? ==> fd[Dropout] == Scalar(dropout.value))
  {
  }

  /** Model.get_feed_dict: pad the batch, bind the four inputs, then insert labels,
      lr and dropout one by one when given. Returns the feed and the true lengths.
      `zip(*words)` cannot unpack an empty batch, so the batch must not be empty. */
  method GetFeedDict(pad: Padder, words: seq<Sentence>, labels: Option<seq<seq<int>>>,
                     lr: Option<real>, dropout: Option<real>)
    returns (feed: FeedDict, sentenceLengths: seq<nat>)
    requires |words| > 0
    ensures feed == FeedSpec(pad, words, labels, lr, dropout)
    ensures sentenceLengths == PaddedWords(pad, words).1
  {
    var charIds, wordIds := CharIdsOf(words), WordIdsOf(words);
    var (paddedWords, lengths) := pad.sentences(wordIds, 0);
    var (paddedChars, wordLengths) := pad.words(charIds, 0);
    feed := map[WordIds := Ids(paddedWords), SentenceLengths := Lengths(lengths),
                CharIds := CharTensor(paddedChars), WordLengths := WordLengthMatrix(wordLengths)];
    if labels.Some? {
      var paddedLabels := pad.sentences(labels.value, 0).0;
      feed := feed[Labels := Ids(paddedLabels)];
    }
    if lr.Some? {
      feed := feed[Lr := Scalar(lr.value)];
    }
    if dropout.Some? {
      feed := feed[Dropout := Scalar(dropout.value)];
    }
    sentenceLengths := lengths;
    FeedKeys(pad, words, labels, lr, dropout);
    assert feed.Keys == FeedSpec(pad, words, labels, lr, dropout).Keys;
  }

  /** A training step (Model.run_epoch) passes labels, lr and dropout, so its feed binds
      every placeholder. */
  lemma TrainingFeedBindsAll(pad: Padder, words: seq<Sentence>, labels: seq<seq<int>>,
                             lr: real, dropout: real)
    ensures FeedSpec(pad, words, Some(labels), Some(lr), Some(dropout)).Keys == AllKeys
  {
  }
}
