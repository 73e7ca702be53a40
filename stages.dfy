/** The three tempo stages of one challenge (`patternConfigs`) and the reveal
    percentage arithmetic of `updateRevealMask` and `handleRoundMiss`. */
module Stages {

  datatype PatternConfig = PatternConfig(startPercent: real, endPercent: real, bpm: real)

  /** `patternConfigs[p]` for the stages 1, 2 and 3. */
  function PatternConfigOf(p: int): PatternConfig
    requires 1 <= p <= 3
  {
    if p == 1 then PatternConfig(10.0, 40.0, 80.0)
    else if p == 2 then PatternConfig(40.0, 70.0, 100.0)
    else PatternConfig(70.0, 100.0, 120.0)
  }

  /** The stages tile the reveal from 10% to 100%, each one faster. */
  lemma StagesTile(p: int)
    requires 1 <= p <= 3
    ensures 0.0 < PatternConfigOf(p).startPercent < PatternConfigOf(p).endPercent <= 100.0
    ensures PatternConfigOf(p).bpm > 0.0
    ensures p < 3 ==> PatternConfigOf(p).endPercent == PatternConfigOf(p + 1).startPercent
    ensures p < 3 ==> PatternConfigOf(p).bpm < PatternConfigOf(p + 1).bpm
    ensures PatternConfigOf(1).startPercent == 10.0 && PatternConfigOf(3).endPercent == 100.0
  {
  }

  /** The width of one counting round: a third of the stage's range, which
      is 30 points in every stage. */
  function PercentPerRound(p: int): (w: real)
    requires 1 <= p <= 3
    ensures 3.0 * w == PatternConfigOf(p).endPercent - PatternConfigOf(p).startPercent
    ensures w == 10.0
  {
    (PatternConfigOf(p).endPercent - PatternConfigOf(p).startPercent) / 3.0
  }

  /** The reveal percentage at the start of milestone `m` of stage `p`, as
      `handleRoundMiss` resets it: the stage start for the reveal milestone,
      and one round width further for each counting round before `m`. */
  function RoundStartPercent(p: int, m: int): (r: real)
    requires 1 <= p <= 3 && 0 <= m
    ensures m <= 1 ==> r == PatternConfigOf(p).startPercent
    ensures m >= 1 ==> r == PatternConfigOf(p).startPercent + ((m - 1) as real) * PercentPerRound(p)
    ensures 1 <= m <= 4 ==> PatternConfigOf(p).startPercent <= r <= PatternConfigOf(p).endPercent
  {
    var cfg := PatternConfigOf(p);
    if m > 0 then cfg.startPercent + ((m - 1) as real) * PercentPerRound(p) else cfg.startPercent
  }

  /** The reveal percentage `updateRevealMask` computes after a hit in
      counting milestone `m` with `hits` of the `n` beats at the target. */
  function RevealPercent(p: int, m: int, hits: nat, n: nat): (r: real)
    requires 1 <= p <= 3 && 1 <= m <= 3 && 0 < n && hits <= n
    ensures RoundStartPercent(p, m) <= r <= RoundStartPercent(p, m) + PercentPerRound(p)
    ensures hits == n ==> r == PatternConfigOf(p).startPercent + (m as real) * PercentPerRound(p)
    ensures hits == 0 ==> r == RoundStartPercent(p, m)
    ensures PatternConfigOf(p).startPercent <= r <= PatternConfigOf(p).endPercent
  {
    FractionBounds(hits, n, PercentPerRound(p));
    RoundStartPercent(p, m) + Share(hits, n, PercentPerRound(p))
  }

  /** `hits` slices of size `w / n`. */
  function Share(hits: nat, n: nat, w: real): real
    requires 0 < n
  {
    (hits as real) * (w / (n as real))
  }

  /** `hits` slices of size `w / n` fill between none and all of `w`. */
  lemma FractionBounds(hits: nat, n: nat, w: real)
    requires 0 < n && hits <= n && w > 0.0
    ensures 0.0 <= Share(hits, n, w) <= w
    ensures hits == n ==> Share(hits, n, w) == w
  {
    var s := w / (n as real);
    assert s > 0.0;
    assert (n as real) * s == w;
    assert (hits as real) * s <= (n as real) * s;
  }

  lemma ScaleMonotone(x: real, y: real, s: real)
    requires x <= y && s >= 0.0
    ensures x * s <= y * s
  {
    assert y * s - x * s == (y - x) * s;
  }

  /** More hits never shrink the reveal. */
  lemma RevealPercentMonotone(p: int, m: int, h1: nat, h2: nat, n: nat)
    requires 1 <= p <= 3 && 1 <= m <= 3 && 0 < n && h1 <= h2 <= n
    ensures RevealPercent(p, m, h1, n) <= RevealPercent(p, m, h2, n)
  {
    ShareMonotone(h1, h2, n, PercentPerRound(p));
  }

  /** More slices of the same size make a larger share. */
  lemma ShareMonotone(h1: nat, h2: nat, n: nat, w: real)
    requires 0 < n && h1 <= h2 && w > 0.0
    ensures Share(h1, n, w) <= Share(h2, n, w)
  {
    var s := w / (n as real);
    assert s > 0.0;
    ScaleMonotone(h1 as real, h2 as real, s);
  }

  /** A completed round ends exactly where the next round starts, and the
      last round of a stage ends where the next stage starts. */
  lemma RoundsChain(p: int, m: int, n: nat)
    requires 1 <= p <= 3 && 1 <= m <= 3 && 0 < n
    ensures RevealPercent(p, m, n, n) == RoundStartPercent(p, m + 1)
    ensures m == 3 ==> RevealPercent(p, m, n, n) == PatternConfigOf(p).endPercent
    ensures m == 3 && p < 3 ==> RevealPercent(p, m, n, n) == RoundStartPercent(p + 1, 1)
  {
  }

  /** The reveal after a hit, written from the stage's range R = end - start:
      start + (m - 1) * R / 3 + hits * (R / 3) / n. */
  lemma RevealPercentFormula(p: int, m: int, hits: nat, n: nat)
    requires 1 <= p <= 3 && 1 <= m <= 3 && 0 < n && hits <= n
    ensures var c := PatternConfigOf(p);
      var third := (c.endPercent - c.startPercent) / 3.0;
      RevealPercent(p, m, hits, n) == c.startPercent + ((m - 1) as real) * third + (hits as real) * (third / (n as real))
  {
  }
}
