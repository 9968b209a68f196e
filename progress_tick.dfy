/**
 * The arithmetic shared by the two simulated operations of the tutorial
 * (app download and version update): every timer tick adds a random
 * increment `Math.random() * 15` and the result is clamped at 100.
 */
module ProgressTick {

  /** A possible value of `Math.random() * 15`. */
  predicate ValidIncrement(inc: real)
  {
    0.0 <= inc < 15.0
  }

  /**
   * One tick: `Math.min(p + inc, 100)` in the download step; the update step
   * writes the same value as `p + inc >= 100 ? 100 : p + inc`.
   */
  function Next(p: real, inc: real): (r: real)
    requires ValidIncrement(inc)
    ensures p <= 100.0 ==> p <= r <= 100.0
    ensures r == 100.0 <==> p + inc >= 100.0
    ensures r < 100.0 ==> r == p + inc
  {
    if p + inc < 100.0 then p + inc else 100.0
  }

  predicate AllValid(incs: seq<real>)
  {
    forall k :: 0 <= k < |incs| ==> ValidIncrement(incs[k])
  }

  /** The progress after a run of ticks with the given increments. */
  function Run(p: real, incs: seq<real>): (r: real)
    requires AllValid(incs)
    decreases |incs|
  {
    if incs == [] then p else Run(Next(p, incs[0]), incs[1..])
  }

  /** Across any run of ticks, progress never decreases and never passes 100. */
  lemma {:induction false} RunMonotoneBounded(p: real, incs: seq<real>)
    requires AllValid(incs) && 0.0 <= p <= 100.0
    ensures p <= Run(p, incs) <= 100.0
    decreases |incs|
  {
    if incs != [] {
      RunMonotoneBounded(Next(p, incs[0]), incs[1..]);
    }
  }

  /**
   * With an increment source bounded below by `d > 0`, a run of `n` ticks
   * with `n * d >= 100 - p` ends exactly at 100.
   */
  lemma {:induction false} RunReachesHundred(p: real, incs: seq<real>, d: real)
    requires AllValid(incs) && 0.0 <= p <= 100.0 && 0.0 < d
    requires forall k :: 0 <= k < |incs| ==> d <= incs[k]
    requires (|incs| as real) * d >= 100.0 - p
    ensures Run(p, incs) == 100.0
    decreases |incs|
  {
    if incs == [] {
    } else {
      var q := Next(p, incs[0]);
      if q == 100.0 {
        RunStaysAtHundred(incs[1..]);
      } else {
        assert q == p + incs[0];
        assert ((|incs| - 1) as real) * d == (|incs| as real) * d - d;
        RunReachesHundred(q, incs[1..], d);
      }
    }
  }

  lemma {:induction false} RunStaysAtHundred(incs: seq<real>)
    requires AllValid(incs)
    ensures Run(100.0, incs) == 100.0
    decreases |incs|
  {
    if incs != [] {
      RunStaysAtHundred(incs[1..]);
    }
  }
}
