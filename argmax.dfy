/**
  The selection rule every detector loop shares: start from a best score of -1,
  visit the candidates in order, skip the ineligible ones, and replace the current
  best only on a strictly greater score. The winner is therefore the first
  eligible candidate, in visiting order, that reaches the maximum score, and
  nothing is chosen when no eligible score exceeds -1.
*/
module Argmax {
  import opened Base

  /** The best score seen so far and the index of the candidate that set it. */
  datatype Pick = Pick(score: real, winner: Option<nat>)

  /** The score the loops start from (`max_corr = -1`, `best_score = -1`). */
  const Initial: real := -1.0

  /** The state after visiting all of `keys`, as a left fold over the candidates. */
  function Scan<K>(keys: seq<K>, eligible: K -> bool, score: K -> real): (p: Pick)
    ensures p.winner.Some? ==> p.winner.value < |keys|
    ensures Initial <= p.score
    decreases |keys|
  {
    if |keys| == 0 then Pick(Initial, None)
    else
      var p := Scan(keys[..|keys| - 1], eligible, score);
      var k := keys[|keys| - 1];
      if eligible(k) && score(k) > p.score then Pick(score(k), Some(|keys| - 1)) else p
  }

  /** No eligible candidate scores above `v`. */
  ghost predicate Bounds<K>(keys: seq<K>, eligible: K -> bool, score: K -> real, v: real) {
    forall j :: 0 <= j < |keys| && eligible(keys[j]) ==> score(keys[j]) <= v
  }

  /**
    Candidate `i` is eligible, scores above the initial -1, is not beaten by any
    eligible candidate and strictly beats every eligible candidate before it.
  */
  ghost predicate IsFirstMax<K>(keys: seq<K>, eligible: K -> bool, score: K -> real, i: nat) {
    && i < |keys| && eligible(keys[i]) && score(keys[i]) > Initial
    && Bounds(keys, eligible, score, score(keys[i]))
    && forall j :: 0 <= j < i && eligible(keys[j]) ==> score(keys[j]) < score(keys[i])
  }

  /** What the scan computes, stated without the fold. */
  lemma {:induction false} ScanIsFirstMax<K>(keys: seq<K>, eligible: K -> bool, score: K -> real)
    ensures var p := Scan(keys, eligible, score);
      && (p.winner.Some? ==> IsFirstMax(keys, eligible, score, p.winner.value)
                             && p.score == score(keys[p.winner.value]))
      && (p.winner.None? ==> p.score == Initial && Bounds(keys, eligible, score, Initial))
    decreases |keys|
  {
    if |keys| > 0 {
      var front := keys[..|keys| - 1];
      ScanIsFirstMax(front, eligible, score);
      assert forall j :: 0 <= j < |front| ==> front[j] == keys[j];
    }
  }

  /** There is at most one first maximum. */
  lemma FirstMaxUnique<K>(keys: seq<K>, eligible: K -> bool, score: K -> real, i: nat, i': nat)
    requires IsFirstMax(keys, eligible, score, i) && IsFirstMax(keys, eligible, score, i')
    ensures i == i'
  {
  }

  /** The confidence test applied after the loop: `max_corr >= confidence` and a winner. */
  function Accept(p: Pick, confidence: real): (w: Option<nat>)
    ensures w.Some? ==> w == p.winner
  {
    if p.score >= confidence && p.winner.Some? then p.winner else None
  }

  /**
    The search succeeds exactly when some eligible candidate reaches the confidence
    and beats the initial -1; then the winner is the first maximum and clears the
    confidence.
  */
  lemma {:induction false} AcceptCharacterised<K>(keys: seq<K>, eligible: K -> bool, score: K -> real, confidence: real)
    ensures var w := Accept(Scan(keys, eligible, score), confidence);
      && (w.Some? <==> exists j :: 0 <= j < |keys| && eligible(keys[j])
                                    && score(keys[j]) >= confidence && score(keys[j]) > Initial)
      && (w.Some? ==> IsFirstMax(keys, eligible, score, w.value) && score(keys[w.value]) >= confidence)
  {
    ScanIsFirstMax(keys, eligible, score);
  }
}
