/**
 * The combined upload percentage. Each upload task reports its progress as a
 * percentage in [0, 100], or `undefined`; whenever either report changes, the
 * latest pair is combined. A pair where either value is falsy (undefined or
 * 0) leaves the shown fraction alone; otherwise the fraction becomes the sum
 * of the two percentages divided by 200, the mean of the two fractions. No
 * earlier value is remembered: a later, lower pair lowers the fraction.
 */
module Progress {
  import opened Wrappers

  /** One progress report: `None` for `undefined`, otherwise a percentage. */
  type Report = Option<real>

  /** The latest pair of reports: the clip's first, the screenshot's second. */
  type Tick = (Report, Report)

  /** A report JavaScript treats as true: present and non-zero. */
  predicate Truthy(p: Report) {
    p.Some? && p.value != 0.0
  }

  /** A report within what the storage service promises, [0, 100] or undefined. */
  predicate InRange(p: Report) {
    p.Some? ==> 0.0 <= p.value <= 100.0
  }

  /** A pair that moves the shown fraction. */
  predicate Counts(t: Tick) {
    Truthy(t.0) && Truthy(t.1)
  }

  /** A shown fraction within [0, 1]. */
  predicate IsFraction(x: real) {
    0.0 <= x <= 1.0
  }

  /**
   * The fraction shown after the pair `(clip, shot)` arrives while `current`
   * is shown: unchanged if either report is falsy, otherwise the mean of the
   * two fractions; it stays a fraction when the reports are in range.
   */
  function Combine(current: real, clip: Report, shot: Report): (r: real)
    ensures !(Truthy(clip) && Truthy(shot)) ==> r == current
    ensures Truthy(clip) && Truthy(shot) ==> r == (clip.value / 100.0 + shot.value / 100.0) / 2.0
    ensures IsFraction(current) && InRange(clip) && InRange(shot) ==> IsFraction(r)
  {
    if !Truthy(clip) || !Truthy(shot) then current
    else (clip.value + shot.value) / 200.0
  }

  /** The fraction shown after a run of pairs, starting from `start`. */
  function AfterTicks(start: real, ticks: seq<Tick>): (r: real)
  {
    if ticks == [] then start
    else
      var last := ticks[|ticks| - 1];
      Combine(AfterTicks(start, ticks[..|ticks| - 1]), last.0, last.1)
  }

  /** The mean of a counting pair's two fractions. */
  function Mean(t: Tick): (r: real)
    requires Counts(t)
  {
    (t.0.value + t.1.value) / 200.0
  }

  /** A run with no counting pair leaves the starting fraction shown. */
  lemma {:induction false} NoCountingTickKeepsStart(start: real, ticks: seq<Tick>)
    requires forall k :: 0 <= k < |ticks| ==> !Counts(ticks[k])
    ensures AfterTicks(start, ticks) == start
  {
    if ticks != [] {
      NoCountingTickKeepsStart(start, ticks[..|ticks| - 1]);
    }
  }

  /**
   * After a run, the shown fraction is the mean of the LAST counting pair,
   * whatever came before it and whatever it was before the run: there is no
   * clamp against earlier values.
   */
  lemma {:induction false} LastCountingTickDecides(start: real, ticks: seq<Tick>, k: nat)
    requires k < |ticks| && Counts(ticks[k])
    requires forall m :: k < m < |ticks| ==> !Counts(ticks[m])
    ensures AfterTicks(start, ticks) == Mean(ticks[k])
  {
    if k < |ticks| - 1 {
      LastCountingTickDecides(start, ticks[..|ticks| - 1], k);
    }
  }

  /** A run of in-range reports keeps the shown value a fraction. */
  lemma {:induction false} AfterTicksIsFraction(start: real, ticks: seq<Tick>)
    requires IsFraction(start)
    requires forall k :: 0 <= k < |ticks| ==> InRange(ticks[k].0) && InRange(ticks[k].1)
    ensures IsFraction(AfterTicks(start, ticks))
  {
    if ticks != [] {
      AfterTicksIsFraction(start, ticks[..|ticks| - 1]);
    }
  }

  /**
   * The shown fraction can go down: a counting pair lower than the previous
   * one replaces it.
   */
  lemma FractionCanDecrease()
    ensures AfterTicks(0.0, [(Some(50.0), Some(50.0)), (Some(10.0), Some(10.0))]) == 0.1
  {
    var ticks: seq<Tick> := [(Some(50.0), Some(50.0)), (Some(10.0), Some(10.0))];
    assert ticks[..1] == [(Some(50.0), Some(50.0))];
    assert ticks[..1][..0] == [];
  }

  /**
   * A video report moving while the screenshot still reports 0 shows
   * nothing: the screenshot's 0 is falsy. Reports (0, 0), (40, 0), (40, 100),
   * (100, 100) show 0, 0, 0.7 and finally 1.
   */
  lemma ZeroScreenshotHidesVideoProgress()
    ensures AfterTicks(0.0, [(Some(0.0), Some(0.0)), (Some(40.0), Some(0.0))]) == 0.0
    ensures AfterTicks(0.0, [(Some(0.0), Some(0.0)), (Some(40.0), Some(0.0)), (Some(40.0), Some(100.0))]) == 0.7
    ensures AfterTicks(0.0, [(Some(0.0), Some(0.0)), (Some(40.0), Some(0.0)), (Some(40.0), Some(100.0)), (Some(100.0), Some(100.0))]) == 1.0
  {
    var t0: Tick, t1: Tick, t2: Tick, t3: Tick :=
      (Some(0.0), Some(0.0)), (Some(40.0), Some(0.0)), (Some(40.0), Some(100.0)), (Some(100.0), Some(100.0));
    assert [t0, t1, t2, t3][..3] == [t0, t1, t2];
    assert [t0, t1, t2][..2] == [t0, t1];
    assert [t0, t1][..1] == [t0];
    assert [t0][..0] == [];
  }
}
