/** Values shared by the feed, decoding and evaluation modules. */
module Common {

  datatype Option<T> = None | Some(value: T)

  function Min(a: int, b: int): int { if a <= b then a else b }

  /** Python's slice `s[:n]` for a non-negative `n`: the first `n` items, or all of `s`
      when it is shorter. */
  function Take<T>(s: seq<T>, n: nat): (r: seq<T>)
    ensures |r| == Min(|s|, n)
    ensures forall i :: 0 <= i < |r| ==> r[i] == s[i]
  {
    if n <= |s| then s[..n] else s
  }

  /** One sentence as a minibatch holds it: the character ids of each word, and the word ids. */
  datatype Sentence = Sentence(charIds: seq<seq<int>>, wordIds: seq<int>)

  /** The two halves of `zip(*words)`. */
  function CharIdsOf(words: seq<Sentence>): (r: seq<seq<seq<int>>>)
    ensures |r| == |words|
  {
    seq(|words|, i requires 0 <= i < |words| => words[i].charIds)
  }

  function WordIdsOf(words: seq<Sentence>): (r: seq<seq<int>>)
    ensures |r| == |words|
  {
    seq(|words|, i requires 0 <= i < |words| => words[i].wordIds)
  }
}
