/**
 * The song clock of sources/game/song.py: the section and step/beat
 * timelines derived from the chart's tempo, the step and beat cursors that
 * `update` advances, the "whose turn is it" lookup, and the
 * play/pause/resume/stop flags. The audio player's position is passed in
 * (in seconds); what `update` publishes on the bus is returned.
 */
module Song {
  import opened Wrappers
  import opened Chart

  /** What the timeline builders raise. */
  datatype TimelineError =
    | ZeroDivisionError  // `60000 / current_bpm` with an effective tempo of 0
    | IndexError         // `step_times[-0]` while no step exists yet

  /** `sec.get("lengthInSteps", 16)`. */
  function SectionSteps(s: ChartSection): nat {
    s.lengthInSteps.GetOr(16)
  }

  /**
   * The tempo section `i` is timed with, starting from the song's base
   * tempo: only a section with `changeBPM` set changes it, to its own `bpm`
   * when it has one.
   */
  function SectionBpm(base: real, secs: seq<ChartSection>, i: nat): real
    requires i < |secs|
    decreases i
  {
    var prev := BpmBefore(base, secs, i);
    if secs[i].changeBpm then secs[i].bpm.GetOr(prev) else prev
  }

  /** The tempo in force before section `i`. */
  function BpmBefore(base: real, secs: seq<ChartSection>, i: nat): real
    requires i <= |secs|
    decreases i, 0
  {
    if i == 0 then base else SectionBpm(base, secs, i - 1)
  }

  function BeatMs(bpm: real): real
    requires bpm != 0.0
  {
    60000.0 / bpm
  }

  function StepMs(bpm: real): real
    requires bpm != 0.0
  {
    BeatMs(bpm) / 4.0
  }

  /** One entry of the section timeline. */
  datatype SectionRange = SectionRange(start: real, end: real, mustHit: bool)

  /** Where the next section starts: the end of the last one, or 0. */
  function EndOf(rs: seq<SectionRange>): real {
    if rs == [] then 0.0 else rs[|rs| - 1].end
  }

  /** How long section `s` lasts at tempo `bpm`: `lengthInSteps` steps. */
  function SectionMs(s: ChartSection, bpm: real): real
    requires bpm != 0.0
  {
    SectionSteps(s) as real * StepMs(bpm)
  }

  /** The range of section `s` at tempo `bpm`, starting where `prev` ends. */
  function NextRange(prev: seq<SectionRange>, bpm: real, s: ChartSection): SectionRange
    requires bpm != 0.0
  {
    var start := EndOf(prev);
    SectionRange(start, start + SectionMs(s, bpm), s.mustHitSection)
  }

  /** One iteration of `_build_section_timeline`: the range of section `s` at tempo `bpm`. */
  function AddSectionRange(prev: seq<SectionRange>, bpm: real, s: ChartSection): Result<seq<SectionRange>, TimelineError> {
    if bpm == 0.0 then Failure(ZeroDivisionError) else Success(prev + [NextRange(prev, bpm, s)])
  }

  /** `_build_section_timeline` over the first `n` sections. */
  function SectionsUpTo(base: real, secs: seq<ChartSection>, n: nat): Result<seq<SectionRange>, TimelineError>
    requires n <= |secs|
  {
    if n == 0 then Success([])
    else
      var prev := SectionsUpTo(base, secs, n - 1);
      if prev.Failure? then prev else AddSectionRange(prev.value, SectionBpm(base, secs, n - 1), secs[n - 1])
  }

  /** `_build_section_timeline` over all sections. */
  function SectionTimeline(base: real, secs: seq<ChartSection>): Result<seq<SectionRange>, TimelineError> {
    SectionsUpTo(base, secs, |secs|)
  }

  /** Each of the first `n` sections is timed with a non-zero tempo. */
  ghost predicate NonZeroTempo(base: real, secs: seq<ChartSection>, n: nat)
    requires n <= |secs|
  {
    forall i :: 0 <= i < n ==> SectionBpm(base, secs, i) != 0.0
  }

  /** The section timeline fails, with `ZeroDivisionError`, exactly when some section's tempo is 0. */
  lemma {:induction false} SectionTimelineFails(base: real, secs: seq<ChartSection>, n: nat)
    requires n <= |secs|
    ensures SectionsUpTo(base, secs, n).Success? <==> NonZeroTempo(base, secs, n)
    ensures SectionsUpTo(base, secs, n).Failure? ==> SectionsUpTo(base, secs, n).error == ZeroDivisionError
  {
    if n > 0 {
      SectionTimelineFails(base, secs, n - 1);
    }
  }

  /**
   * The shape of the section timeline of the first `n` sections: one range
   * per section, the first starting at 0, each starting where the previous
   * one ends, each lasting its `lengthInSteps` steps at its own tempo and
   * carrying its section's must-hit flag.
   */
  ghost predicate Shaped(base: real, secs: seq<ChartSection>, n: nat, rs: seq<SectionRange>)
    requires n <= |secs|
  {
    && |rs| == n
    && (n > 0 ==> rs[0].start == 0.0)
    && (forall i :: 0 < i < n ==> rs[i].start == rs[i - 1].end)
    && (forall i :: 0 <= i < n ==>
          SectionBpm(base, secs, i) != 0.0 &&
          rs[i].end == rs[i].start + SectionMs(secs[i], SectionBpm(base, secs, i)))
    && (forall i :: 0 <= i < n ==> rs[i].mustHit == secs[i].mustHitSection)
  }

  lemma {:induction false} SectionTimelineShape(base: real, secs: seq<ChartSection>, n: nat)
    requires n <= |secs|
    requires SectionsUpTo(base, secs, n).Success?
    ensures Shaped(base, secs, n, SectionsUpTo(base, secs, n).value)
  {
    if n > 0 {
      SectionTimelineShape(base, secs, n - 1);
      var prev := SectionsUpTo(base, secs, n - 1).value;
      ShapedSnoc(base, secs, n, prev, NextRange(prev, SectionBpm(base, secs, n - 1), secs[n - 1]));
    }
  }

  /** Appending the range of section `n - 1` keeps the timeline's shape. */
  lemma ShapedSnoc(base: real, secs: seq<ChartSection>, n: nat, prev: seq<SectionRange>, last: SectionRange)
    requires 0 < n <= |secs|
    requires Shaped(base, secs, n - 1, prev)
    requires SectionBpm(base, secs, n - 1) != 0.0
    requires last == NextRange(prev, SectionBpm(base, secs, n - 1), secs[n - 1])
    ensures Shaped(base, secs, n, prev + [last])
  {
    var rs := prev + [last];
    assert rs[n - 1] == last;
    assert rs[0].start == 0.0 by {
      if n > 1 {
        assert rs[0] == prev[0];
      }
    }
    forall i | 0 < i < n
      ensures rs[i].start == rs[i - 1].end
    {
      assert rs[i - 1] == prev[i - 1];
      if i < n - 1 {
        assert rs[i] == prev[i];
      }
    }
    forall i | 0 <= i < n - 1
      ensures rs[i] == prev[i]
    {
    }
  }

  /** `[start, start + stepMs, ...]`, `n` entries. */
  function StepRun(start: real, stepMs: real, n: nat): (r: seq<real>)
    ensures |r| == n
  {
    seq(n, k requires 0 <= k < n => start + k as real * stepMs)
  }

  lemma StepRunSnoc(start: real, stepMs: real, n: nat)
    ensures StepRun(start, stepMs, n + 1) == StepRun(start, stepMs, n) + [start + n as real * stepMs]
  {
    var a, b := StepRun(start, stepMs, n + 1), StepRun(start, stepMs, n) + [start + n as real * stepMs];
    assert forall k :: 0 <= k < n + 1 ==> a[k] == b[k];
  }

  /** What `_build_time_timeline` has built after some sections, with its running `current_time`. */
  datatype Timeline = Timeline(beats: seq<real>, steps: seq<real>, end: real)

  /**
   * One iteration of `_build_time_timeline`: `n` steps from the running time
   * at tempo `bpm`, then `n // 4` beats from `step_times[-n]`.
   */
  function AddSectionTimes(prev: Timeline, bpm: real, n: nat): Result<Timeline, TimelineError> {
    if bpm == 0.0 then Failure(ZeroDivisionError)
    else
      var steps := prev.steps + StepRun(prev.end, StepMs(bpm), n);
      // Python's `step_times[-n]`: index 0 when n is 0
      var first := if n == 0 then 0 else |steps| - n;
      if first >= |steps| then Failure(IndexError)
      else Success(Timeline(prev.beats + StepRun(steps[first], BeatMs(bpm), n / 4), steps, prev.end + n as real * StepMs(bpm)))
  }

  /** `_build_time_timeline` over the first `n` sections. */
  function TimesUpTo(base: real, secs: seq<ChartSection>, n: nat): Result<Timeline, TimelineError>
    requires n <= |secs|
  {
    if n == 0 then Success(Timeline([], [], 0.0))
    else
      var prev := TimesUpTo(base, secs, n - 1);
      if prev.Failure? then prev else AddSectionTimes(prev.value, SectionBpm(base, secs, n - 1), SectionSteps(secs[n - 1]))
  }

  /** `_build_time_timeline` over all sections. */
  function TimeTimeline(base: real, secs: seq<ChartSection>): Result<Timeline, TimelineError> {
    TimesUpTo(base, secs, |secs|)
  }

  /** The steps of the first `n` sections. */
  function TotalSteps(secs: seq<ChartSection>, n: nat): nat
    requires n <= |secs|
  {
    if n == 0 then 0 else TotalSteps(secs, n - 1) + SectionSteps(secs[n - 1])
  }

  /** The whole groups of four steps of the first `n` sections. */
  function TotalBeats(secs: seq<ChartSection>, n: nat): nat
    requires n <= |secs|
  {
    if n == 0 then 0 else TotalBeats(secs, n - 1) + SectionSteps(secs[n - 1]) / 4
  }

  /**
   * When the step/beat timeline is built, `step_times` has one entry per
   * step of every section and `beat_times` one per whole group of four
   * steps; with no step yet, the running time is still 0.
   */
  lemma {:induction false} TimelineCounts(base: real, secs: seq<ChartSection>, n: nat)
    requires n <= |secs|
    requires TimesUpTo(base, secs, n).Success?
    ensures |TimesUpTo(base, secs, n).value.steps| == TotalSteps(secs, n)
    ensures |TimesUpTo(base, secs, n).value.beats| == TotalBeats(secs, n)
    ensures TimesUpTo(base, secs, n).value.steps == [] ==> TimesUpTo(base, secs, n).value.end == 0.0
  {
    if n > 0 {
      TimelineCounts(base, secs, n - 1);
    }
  }

  lemma {:induction false} TotalStepsPositive(secs: seq<ChartSection>, n: nat)
    requires 0 < n <= |secs| && SectionSteps(secs[0]) > 0
    ensures TotalSteps(secs, n) > 0
  {
    if n > 1 {
      TotalStepsPositive(secs, n - 1);
    }
  }

  /**
   * The step/beat timeline fails exactly when some section is timed with
   * tempo 0 (`ZeroDivisionError`) or, failing that, when the first section
   * has no steps, so that `step_times[-0]` indexes an empty list
   * (`IndexError`).
   */
  lemma {:induction false} TimeTimelineFails(base: real, secs: seq<ChartSection>, n: nat)
    requires n <= |secs|
    ensures TimesUpTo(base, secs, n).Success? <==>
              NonZeroTempo(base, secs, n) && (n > 0 ==> SectionSteps(secs[0]) > 0)
    ensures TimesUpTo(base, secs, n).Failure? && NonZeroTempo(base, secs, n) ==>
              TimesUpTo(base, secs, n).error == IndexError
  {
    if n > 0 {
      TimeTimelineFails(base, secs, n - 1);
      var prev := TimesUpTo(base, secs, n - 1);
      NonZeroTempoSnoc(base, secs, n);
      if prev.Success? {
        var bpm, k := SectionBpm(base, secs, n - 1), SectionSteps(secs[n - 1]);
        TimelineCounts(base, secs, n - 1);
        if n > 1 {
          TotalStepsPositive(secs, n - 1);
        }
        assert n > 1 && SectionSteps(secs[0]) > 0 ==> |prev.value.steps| > 0;
        assert n == 1 ==> |prev.value.steps| == 0;
        assert TimesUpTo(base, secs, n) == AddSectionTimes(prev.value, bpm, k);
        AddSectionTimesFails(prev.value, bpm, k);
      }
    }
  }

  lemma NonZeroTempoSnoc(base: real, secs: seq<ChartSection>, n: nat)
    requires 0 < n <= |secs|
    ensures NonZeroTempo(base, secs, n) <==> NonZeroTempo(base, secs, n - 1) && SectionBpm(base, secs, n - 1) != 0.0
  {
  }

  /** One section fails on tempo 0, or with no steps at all so far. */
  lemma AddSectionTimesFails(prev: Timeline, bpm: real, n: nat)
    ensures AddSectionTimes(prev, bpm, n).Success? <==> bpm != 0.0 && (n > 0 || |prev.steps| > 0)
    ensures AddSectionTimes(prev, bpm, n).Failure? ==>
              AddSectionTimes(prev, bpm, n).error == if bpm == 0.0 then ZeroDivisionError else IndexError
  {
  }

  /** The first step is at time 0. */
  lemma {:induction false} StepsStartAtZero(base: real, secs: seq<ChartSection>, n: nat)
    requires n <= |secs|
    requires TimesUpTo(base, secs, n).Success?
    ensures var t := TimesUpTo(base, secs, n).value;
            (t.steps == [] ==> t.end == 0.0) && (t.steps != [] ==> t.steps[0] == 0.0)
  {
    if n > 0 {
      StepsStartAtZero(base, secs, n - 1);
    }
  }

  /** Strictly ascending. */
  ghost predicate StrictlyAscending(s: seq<real>) {
    forall i, j :: 0 <= i < j < |s| ==> s[i] < s[j]
  }

  /** Each of the first `n` sections is timed with a positive tempo. */
  ghost predicate PositiveTempo(base: real, secs: seq<ChartSection>, n: nat)
    requires n <= |secs|
  {
    forall i :: 0 <= i < n ==> SectionBpm(base, secs, i) > 0.0
  }

  /** Ascending step times, all before the running time. */
  ghost predicate Ordered(t: Timeline) {
    StrictlyAscending(t.steps) && forall i :: 0 <= i < |t.steps| ==> t.steps[i] < t.end
  }

  lemma MulMono(a: nat, b: nat, d: real)
    requires a < b && d > 0.0
    ensures a as real * d < b as real * d
  {
    assert b as real * d - a as real * d == (b - a) as real * d;
  }

  /** A run of steps at a positive step length ascends strictly and stays in `[start, start + n * stepMs)`. */
  lemma RunOrdered(start: real, stepMs: real, n: nat)
    requires stepMs > 0.0
    ensures StrictlyAscending(StepRun(start, stepMs, n))
    ensures forall k :: 0 <= k < n ==> start <= StepRun(start, stepMs, n)[k] < start + n as real * stepMs
  {
    var run := StepRun(start, stepMs, n);
    forall k | 0 <= k < n
      ensures start <= run[k] < start + n as real * stepMs
    {
      MulMono(k, n, stepMs);
      if k > 0 {
        MulMono(0, k, stepMs);
      }
    }
    forall i, j | 0 <= i < j < n
      ensures run[i] < run[j]
    {
      MulMono(i, j, stepMs);
    }
  }

  lemma ConcatOrdered(a: seq<real>, b: seq<real>, mid: real, end: real)
    requires StrictlyAscending(a) && StrictlyAscending(b)
    requires forall i :: 0 <= i < |a| ==> a[i] < mid
    requires forall k :: 0 <= k < |b| ==> mid <= b[k] < end
    requires mid <= end
    ensures StrictlyAscending(a + b)
    ensures forall i :: 0 <= i < |a + b| ==> (a + b)[i] < end
  {
  }

  /** One section at a positive tempo keeps the step times ascending. */
  lemma AddSectionOrdered(prev: Timeline, bpm: real, n: nat)
    requires bpm > 0.0 && Ordered(prev)
    requires AddSectionTimes(prev, bpm, n).Success?
    ensures Ordered(AddSectionTimes(prev, bpm, n).value)
  {
    var t := AddSectionTimes(prev, bpm, n).value;
    var d := StepMs(bpm);
    assert d > 0.0;
    AddSectionTimesValue(prev, bpm, n);
    RunOrdered(prev.end, d, n);
    ConcatOrdered(prev.steps, StepRun(prev.end, d, n), prev.end, t.end);
  }

  /** With positive tempos the step times are strictly ascending. */
  lemma {:induction false} StepsAscending(base: real, secs: seq<ChartSection>, n: nat)
    requires n <= |secs|
    requires TimesUpTo(base, secs, n).Success?
    requires PositiveTempo(base, secs, n)
    ensures Ordered(TimesUpTo(base, secs, n).value)
  {
    if n > 0 {
      StepsAscending(base, secs, n - 1);
      AddSectionOrdered(TimesUpTo(base, secs, n - 1).value, SectionBpm(base, secs, n - 1), SectionSteps(secs[n - 1]));
    }
  }

  /** Every beat time is a step time. */
  ghost predicate BeatsAreSteps(t: Timeline) {
    forall b :: b in t.beats ==> b in t.steps
  }

  /** One section's beats fall on every fourth of its own steps. */
  lemma AddSectionBeatsOnSteps(prev: Timeline, bpm: real, n: nat)
    requires BeatsAreSteps(prev)
    requires AddSectionTimes(prev, bpm, n).Success?
    ensures BeatsAreSteps(AddSectionTimes(prev, bpm, n).value)
  {
    var t := AddSectionTimes(prev, bpm, n).value;
    var run := StepRun(prev.end, StepMs(bpm), n);
    var beats := StepRun(prev.end, BeatMs(bpm), n / 4);
    assert t.steps == prev.steps + run;
    if n > 0 {
      assert t.steps[|t.steps| - n] == run[0] == prev.end;
    }
    assert t.beats == prev.beats + beats;
    SectionBeatsOnSteps(prev.end, bpm, n);
    forall b | b in t.beats
      ensures b in t.steps
    {
      if b !in prev.beats {
        assert b in beats;
        assert b in run;
      }
    }
  }

  /** Beat `i` of a section falls on its step `4 * i`. */
  lemma SectionBeatsOnSteps(start: real, bpm: real, n: nat)
    requires bpm != 0.0
    ensures forall b :: b in StepRun(start, BeatMs(bpm), n / 4) ==> b in StepRun(start, StepMs(bpm), n)
  {
    var run := StepRun(start, StepMs(bpm), n);
    var beats := StepRun(start, BeatMs(bpm), n / 4);
    forall i | 0 <= i < n / 4
      ensures beats[i] in run
    {
      BeatOnStep(start, bpm, i);
      assert beats[i] == run[4 * i];
    }
  }

  /** Beat `i` of a section is its step `4 * i`. */
  lemma BeatOnStep(start: real, bpm: real, i: nat)
    requires bpm != 0.0
    ensures start + i as real * BeatMs(bpm) == start + (4 * i) as real * StepMs(bpm)
  {
  }

  /**
   * Every beat time is also a step time: a section's beats start at its
   * first step and fall on every fourth step after it.
   */
  lemma {:induction false} BeatsOnSteps(base: real, secs: seq<ChartSection>, n: nat)
    requires n <= |secs|
    requires TimesUpTo(base, secs, n).Success?
    ensures BeatsAreSteps(TimesUpTo(base, secs, n).value)
  {
    if n > 0 {
      BeatsOnSteps(base, secs, n - 1);
      AddSectionBeatsOnSteps(TimesUpTo(base, secs, n - 1).value, SectionBpm(base, secs, n - 1), SectionSteps(secs[n - 1]));
    }
  }

  lemma StepRunAt(start: real, stepMs: real, n: nat, k: nat)
    requires k < n
    ensures StepRun(start, stepMs, n)[k] == start + k as real * stepMs
  {
  }

  lemma StepRunFirst(start: real, stepMs: real, n: nat)
    requires 0 < n
    ensures StepRun(start, stepMs, n)[0] == start
  {
  }

  lemma NextRangeEnd(prev: seq<SectionRange>, bpm: real, s: ChartSection)
    requires bpm != 0.0
    ensures NextRange(prev, bpm, s).end == EndOf(prev) + SectionSteps(s) as real * StepMs(bpm)
  {
  }

  lemma PrefixAt<T>(a: seq<T>, b: seq<T>, k: nat)
    requires a <= b && k < |a|
    ensures k < |b| && b[k] == a[k]
  {
    assert a == b[..|a|];
  }

  lemma EndOfSnoc(rs: seq<SectionRange>, r: SectionRange)
    ensures EndOf(rs + [r]) == r.end
  {
  }

  /** What one successful iteration of `_build_time_timeline` appends, and its new running time. */
  lemma AddSectionTimesValue(prev: Timeline, bpm: real, n: nat)
    requires AddSectionTimes(prev, bpm, n).Success?
    ensures var t := AddSectionTimes(prev, bpm, n).value;
            && bpm != 0.0
            && t.steps == prev.steps + StepRun(prev.end, StepMs(bpm), n)
            && t.end == prev.end + n as real * StepMs(bpm)
            && (n > 0 ==> t.beats == prev.beats + StepRun(prev.end, BeatMs(bpm), n / 4))
            && (n == 0 ==> t.beats == prev.beats)
  {
    if n > 0 {
      var t := AddSectionTimes(prev, bpm, n).value;
      assert t.steps[|t.steps| - n] == StepRun(prev.end, StepMs(bpm), n)[0];
    }
  }

  /** Building over more sections only extends the step and beat times built over fewer. */
  lemma {:induction false} TimesPrefix(base: real, secs: seq<ChartSection>, m: nat, n: nat)
    requires m <= n <= |secs| && TimesUpTo(base, secs, n).Success?
    ensures TimesUpTo(base, secs, m).Success?
    ensures TimesUpTo(base, secs, m).value.steps <= TimesUpTo(base, secs, n).value.steps
    ensures TimesUpTo(base, secs, m).value.beats <= TimesUpTo(base, secs, n).value.beats
    decreases n
  {
    if m < n {
      var prev := TimesUpTo(base, secs, n - 1);
      assert prev.Success?;
      TimesPrefix(base, secs, m, n - 1);
    }
  }

  /** Building over more sections only appends to the ranges built over fewer. */
  lemma {:induction false} SectionsPrefix(base: real, secs: seq<ChartSection>, m: nat, n: nat)
    requires m <= n <= |secs| && SectionsUpTo(base, secs, n).Success?
    ensures SectionsUpTo(base, secs, m).Success?
    ensures SectionsUpTo(base, secs, m).value <= SectionsUpTo(base, secs, n).value
    decreases n
  {
    if m < n {
      var prev := SectionsUpTo(base, secs, n - 1);
      assert prev.Success?;
      SectionsPrefix(base, secs, m, n - 1);
    }
  }

  /** The beats of the last section built start at its first step and lie one beat apart. */
  lemma LastSectionBeats(base: real, secs: seq<ChartSection>, i: nat)
    requires i < |secs| && TimesUpTo(base, secs, i + 1).Success?
    requires SectionSteps(secs[i]) > 0
    ensures SectionBpm(base, secs, i) != 0.0
    ensures var u := TimesUpTo(base, secs, i + 1).value;
            && |u.steps| == TotalSteps(secs, i) + SectionSteps(secs[i])
            && |u.beats| == TotalBeats(secs, i) + SectionSteps(secs[i]) / 4
            && u.beats[TotalBeats(secs, i)..] ==
               StepRun(u.steps[TotalSteps(secs, i)], BeatMs(SectionBpm(base, secs, i)), SectionSteps(secs[i]) / 4)
  {
    var prev := TimesUpTo(base, secs, i);
    assert prev.Success?;
    var bpm, steps := SectionBpm(base, secs, i), SectionSteps(secs[i]);
    TimelineCounts(base, secs, i);
    assert TimesUpTo(base, secs, i + 1) == AddSectionTimes(prev.value, bpm, steps);
    AddSectionTimesValue(prev.value, bpm, steps);
    var u := TimesUpTo(base, secs, i + 1).value;
    var stepRun := StepRun(prev.value.end, StepMs(bpm), steps);
    assert u.steps[TotalSteps(secs, i)] == stepRun[0];
    StepRunFirst(prev.value.end, StepMs(bpm), steps);
    SuffixOfConcat(prev.value.beats, StepRun(prev.value.end, BeatMs(bpm), steps / 4));
  }

  lemma SuffixOfConcat(a: seq<real>, b: seq<real>)
    ensures (a + b)[|a|..] == b
  {
  }

  /**
   * Each section's beats start at that section's first step time and lie one
   * beat of its tempo apart: the beats of section `i` are
   * `step_times[first] + k * beat_ms` for `k < lengthInSteps // 4`.
   */
  lemma {:induction false} SectionBeatsSpaced(base: real, secs: seq<ChartSection>, n: nat, i: nat)
    requires n <= |secs| && TimesUpTo(base, secs, n).Success?
    requires i < n && SectionSteps(secs[i]) > 0
    ensures SectionBpm(base, secs, i) != 0.0
    ensures var t := TimesUpTo(base, secs, n).value;
            && TotalSteps(secs, i) < |t.steps|
            && TotalBeats(secs, i) + SectionSteps(secs[i]) / 4 <= |t.beats|
            && t.beats[TotalBeats(secs, i)..TotalBeats(secs, i) + SectionSteps(secs[i]) / 4] ==
               StepRun(t.steps[TotalSteps(secs, i)], BeatMs(SectionBpm(base, secs, i)), SectionSteps(secs[i]) / 4)
  {
    TimesPrefix(base, secs, i + 1, n);
    LastSectionBeats(base, secs, i);
    var u, t := TimesUpTo(base, secs, i + 1).value, TimesUpTo(base, secs, n).value;
    PrefixAt(u.steps, t.steps, TotalSteps(secs, i));
    PrefixSlice(u.beats, t.beats, TotalBeats(secs, i));
  }

  lemma PrefixSlice(a: seq<real>, b: seq<real>, j: nat)
    requires a <= b && j <= |a|
    ensures b[j..|a|] == a[j..]
  {
    assert a == b[..|a|];
  }

  /** One section advances both builders' running times alike. */
  lemma AgreeStep(prev: Timeline, ps: seq<SectionRange>, bpm: real, s: ChartSection)
    requires prev.end == EndOf(ps) && bpm != 0.0
    requires AddSectionTimes(prev, bpm, SectionSteps(s)).Success?
    ensures AddSectionTimes(prev, bpm, SectionSteps(s)).value.end == EndOf(ps + [NextRange(ps, bpm, s)])
  {
    AddSectionTimesValue(prev, bpm, SectionSteps(s));
    EndOfSnoc(ps, NextRange(ps, bpm, s));
    NextRangeEnd(ps, bpm, s);
  }

  /** Both builders accumulate the same running time over the sections. */
  lemma {:induction false} TimelinesAgree(base: real, secs: seq<ChartSection>, n: nat)
    requires n <= |secs|
    requires TimesUpTo(base, secs, n).Success? && SectionsUpTo(base, secs, n).Success?
    ensures TimesUpTo(base, secs, n).value.end == EndOf(SectionsUpTo(base, secs, n).value)
  {
    if n > 0 {
      var prev, ps := TimesUpTo(base, secs, n - 1), SectionsUpTo(base, secs, n - 1);
      assert prev.Success? && ps.Success?;
      TimelinesAgree(base, secs, n - 1);
      var bpm, s := SectionBpm(base, secs, n - 1), secs[n - 1];
      assert TimesUpTo(base, secs, n) == AddSectionTimes(prev.value, bpm, SectionSteps(s));
      assert SectionsUpTo(base, secs, n) == AddSectionRange(ps.value, bpm, s);
      AgreeStep(prev.value, ps.value, bpm, s);
    }
  }

  /** A section with steps starts exactly at its first step time. */
  lemma {:induction false} SectionStartsOnStep(base: real, secs: seq<ChartSection>, n: nat, i: nat)
    requires n <= |secs|
    requires TimesUpTo(base, secs, n).Success? && SectionsUpTo(base, secs, n).Success?
    requires i < n && SectionSteps(secs[i]) > 0
    ensures var t, rs := TimesUpTo(base, secs, n).value, SectionsUpTo(base, secs, n).value;
            && TotalSteps(secs, i) < |t.steps| && i < |rs|
            && t.steps[TotalSteps(secs, i)] == rs[i].start
  {
    TimesPrefix(base, secs, i + 1, n);
    TimesPrefix(base, secs, i, i + 1);
    SectionsPrefix(base, secs, i + 1, n);
    SectionsPrefix(base, secs, i, i + 1);
    TimelineCounts(base, secs, i);
    TimelinesAgree(base, secs, i);
    SectionsCount(base, secs, i);
    var prev, ps := TimesUpTo(base, secs, i).value, SectionsUpTo(base, secs, i).value;
    var bpm := SectionBpm(base, secs, i);
    assert TimesUpTo(base, secs, i + 1) == AddSectionTimes(prev, bpm, SectionSteps(secs[i]));
    AddSectionTimesValue(prev, bpm, SectionSteps(secs[i]));
    var u := TimesUpTo(base, secs, i + 1).value;
    assert u.steps[TotalSteps(secs, i)] == StepRun(prev.end, StepMs(bpm), SectionSteps(secs[i]))[0];
    StepRunFirst(prev.end, StepMs(bpm), SectionSteps(secs[i]));
    var r := NextRange(ps, bpm, secs[i]);
    assert SectionsUpTo(base, secs, i + 1).value == ps + [r];
    assert (ps + [r])[i] == r;
    PrefixAt(u.steps, TimesUpTo(base, secs, n).value.steps, TotalSteps(secs, i));
    PrefixAt(ps + [r], SectionsUpTo(base, secs, n).value, i);
  }

  /** The section builder yields one range per section. */
  lemma {:induction false} SectionsCount(base: real, secs: seq<ChartSection>, n: nat)
    requires n <= |secs| && SectionsUpTo(base, secs, n).Success?
    ensures |SectionsUpTo(base, secs, n).value| == n
  {
    if n > 0 {
      var prev := SectionsUpTo(base, secs, n - 1);
      assert prev.Success?;
      SectionsCount(base, secs, n - 1);
    }
  }

  /** `is_player_turn` over a section timeline: the flag of the first section containing `t`. */
  function PlayerTurn(rs: seq<SectionRange>, t: real): bool {
    if rs == [] then false
    else if rs[0].start <= t < rs[0].end then rs[0].mustHit
    else PlayerTurn(rs[1..], t)
  }

  /**
   * `is_player_turn` is false when no section contains `t`, and otherwise
   * the flag of the first section, in timeline order, that does.
   */
  lemma {:induction false} PlayerTurnFirstMatch(rs: seq<SectionRange>, t: real, i: nat)
    requires i < |rs| && rs[i].start <= t < rs[i].end
    requires forall j :: 0 <= j < i ==> !(rs[j].start <= t < rs[j].end)
    ensures PlayerTurn(rs, t) == rs[i].mustHit
  {
    if i > 0 {
      PlayerTurnFirstMatch(rs[1..], t, i - 1);
    }
  }

  lemma {:induction false} PlayerTurnOutside(rs: seq<SectionRange>, t: real)
    requires forall j :: 0 <= j < |rs| ==> !(rs[j].start <= t < rs[j].end)
    ensures !PlayerTurn(rs, t)
  {
    if rs != [] {
      PlayerTurnOutside(rs[1..], t);
    }
  }

  /**
   * On a contiguous timeline whose sections do not run backwards, at most
   * one section contains `t`, so the turn is that section's flag.
   */
  lemma PlayerTurnOfContaining(rs: seq<SectionRange>, t: real, i: nat)
    requires forall j :: 0 < j < |rs| ==> rs[j].start == rs[j - 1].end
    requires forall j :: 0 <= j < |rs| ==> rs[j].start <= rs[j].end
    requires i < |rs| && rs[i].start <= t < rs[i].end
    ensures PlayerTurn(rs, t) == rs[i].mustHit
  {
    forall j | 0 <= j < i
      ensures rs[j].end <= rs[i].start
    {
      EndsBeforeStart(rs, j, i);
    }
    PlayerTurnFirstMatch(rs, t, i);
  }

  lemma {:induction false} EndsBeforeStart(rs: seq<SectionRange>, j: nat, i: nat)
    requires forall k :: 0 < k < |rs| ==> rs[k].start == rs[k - 1].end
    requires forall k :: 0 <= k < |rs| ==> rs[k].start <= rs[k].end
    requires j < i < |rs|
    ensures rs[j].end <= rs[i].start
    decreases i - j
  {
    if j + 1 < i {
      EndsBeforeStart(rs, j + 1, i);
    }
  }

  /**
   * The last index past `last` that a cursor at `last` reaches at time `t`:
   * it moves forward while the next time is at most `t`.
   */
  function LastCrossed(times: seq<real>, last: int, t: real): (r: int)
    requires -1 <= last < |times|
    ensures last <= r < |times|
    ensures forall k :: last < k <= r ==> times[k] <= t
    ensures r + 1 == |times| || times[r + 1] > t
    decreases |times| - last
  {
    if last + 1 < |times| && times[last + 1] <= t then LastCrossed(times, last + 1, t) else last
  }

  /** `[lo, lo + 1, ..., hi - 1]`. */
  function Range(lo: int, hi: int): (r: seq<int>)
    requires lo <= hi
    ensures |r| == hi - lo
    ensures forall k :: 0 <= k < |r| ==> r[k] == lo + k
    decreases hi - lo
  {
    if lo == hi then [] else Range(lo, hi - 1) + [hi - 1]
  }

  /**
   * On ascending times, a cursor that has only passed times at most `t`
   * stops at the last index whose time is at most `t`.
   */
  lemma CursorReachesLast(times: seq<real>, last: int, t: real)
    requires forall i, j :: 0 <= i < j < |times| ==> times[i] <= times[j]
    requires -1 <= last < |times|
    requires last >= 0 ==> times[last] <= t
    ensures forall k :: 0 <= k < |times| ==> (times[k] <= t <==> k <= LastCrossed(times, last, t))
  {
    var r := LastCrossed(times, last, t);
    forall k | 0 <= k < |times|
      ensures times[k] <= t <==> k <= r
    {
      if k <= last {
        assert times[k] <= times[last];
      } else if k > r {
        assert times[r + 1] <= times[k];
      }
    }
  }

  /** What `update` publishes. */
  datatype SongEvent = StepEvent(step: int, time: real) | BeatEvent(beat: int, time: real)

  /**
   * One cursor loop of `update`: from `last + 1` on, every index whose time
   * is at most `t` is passed in order until the first that is not.
   */
  method AdvanceCursor(times: seq<real>, last: int, t: real) returns (newLast: int, passed: seq<int>)
    requires -1 <= last < |times|
    ensures newLast == LastCrossed(times, last, t)
    ensures passed == Range(last + 1, newLast + 1)
  {
    newLast, passed := last, [];
    var i := last + 1;
    while i < |times|
      invariant last + 1 <= i <= |times|
      invariant newLast == i - 1
      invariant passed == Range(last + 1, i)
      invariant LastCrossed(times, last, t) == LastCrossed(times, newLast, t)
    {
      if t >= times[i] {
        newLast := i;
        passed := passed + [i];
      } else {
        break;
      }
      i := i + 1;
    }
  }

  /** The step events for the indices `idx`, all stamped with `t`. */
  function StepEvents(idx: seq<int>, t: real): (r: seq<SongEvent>)
    ensures |r| == |idx|
  {
    seq(|idx|, k requires 0 <= k < |idx| => StepEvent(idx[k], t))
  }

  function BeatEvents(idx: seq<int>, t: real): (r: seq<SongEvent>)
    ensures |r| == |idx|
  {
    seq(|idx|, k requires 0 <= k < |idx| => BeatEvent(idx[k], t))
  }

  class SongManager {
    const sections: seq<SectionRange>
    const beatTimes: seq<real>
    const stepTimes: seq<real>

    /** Whether `inst_player` (and `voices_player`) is set. */
    var hasPlayer: bool
    var musicPlaying: bool
    var paused: bool
    var pauseTime: real
    var lastBeat: int
    var lastStep: int

    /** The cursors stay within the timelines; a paused song is playing, and a playing song has a player. */
    ghost predicate Valid()
      reads this
    {
      && (paused ==> musicPlaying)
      && (musicPlaying ==> hasPlayer)
      && -1 <= lastStep < |stepTimes|
      && -1 <= lastBeat < |beatTimes|
    }

    /** A stopped manager over the given timelines. */
    constructor (sectionTimeline: seq<SectionRange>, beats: seq<real>, steps: seq<real>)
      ensures Valid()
      ensures sections == sectionTimeline && beatTimes == beats && stepTimes == steps
      ensures !hasPlayer && !musicPlaying && !paused && pauseTime == 0.0
      ensures lastBeat == -1 && lastStep == -1
    {
      sections, beatTimes, stepTimes := sectionTimeline, beats, steps;
      hasPlayer, musicPlaying, paused, pauseTime := false, false, false, 0.0;
      lastBeat, lastStep := -1, -1;
    }

    /** `song_ms`: the player's position in ms, or 0 without a player. */
    function SongMs(playerTime: real): (ms: real)
      reads this
      ensures !hasPlayer ==> ms == 0.0
      ensures hasPlayer ==> ms == playerTime * 1000.0
    {
      if hasPlayer then playerTime * 1000.0 else 0.0
    }

    /** `is_player_turn`: the must-hit flag of the first section containing the song position. */
    method IsPlayerTurn(playerTime: real) returns (turn: bool)
      ensures turn == PlayerTurn(sections, SongMs(playerTime))
    {
      var t := SongMs(playerTime);
      var i := 0;
      while i < |sections|
        invariant 0 <= i <= |sections|
        invariant PlayerTurn(sections[i..], t) == PlayerTurn(sections, t)
      {
        if sections[i].start <= t < sections[i].end {
          return sections[i].mustHit;
        }
        assert sections[i..][1..] == sections[i + 1..];
        i := i + 1;
      }
      return false;
    }

    /**
     * `update`: nothing when the music is not playing; otherwise the step
     * cursor and then the beat cursor move past every time at most the song
     * position, publishing each index passed, in order.
     */
    method Update(playerTime: real) returns (events: seq<SongEvent>)
      requires Valid()
      modifies this
      ensures Valid()
      ensures !old(musicPlaying) ==> events == [] && unchanged(this)
      ensures old(musicPlaying) ==>
                var t := old(SongMs(playerTime));
                && lastStep == LastCrossed(stepTimes, old(lastStep), t)
                && lastBeat == LastCrossed(beatTimes, old(lastBeat), t)
                && events == StepEvents(Range(old(lastStep) + 1, lastStep + 1), t)
                             + BeatEvents(Range(old(lastBeat) + 1, lastBeat + 1), t)
                && hasPlayer == old(hasPlayer) && musicPlaying && paused == old(paused)
                && pauseTime == old(pauseTime)
    {
      if !musicPlaying {
        return [];
      }
      var t := SongMs(playerTime);
      var steps, beats;
      lastStep, steps := AdvanceCursor(stepTimes, lastStep, t);
      lastBeat, beats := AdvanceCursor(beatTimes, lastBeat, t);
      events := StepEvents(steps, t) + BeatEvents(beats, t);
    }

    /** `play`: a no-op while playing; otherwise start the players and reset both cursors. */
    method Play()
      requires Valid()
      modifies this
      ensures Valid()
      ensures old(musicPlaying) ==> unchanged(this)
      ensures !old(musicPlaying) ==>
                && hasPlayer && musicPlaying && !paused && lastBeat == -1 && lastStep == -1
                && pauseTime == old(pauseTime)
    {
      if musicPlaying {
        return;
      }
      hasPlayer := true;
      musicPlaying, paused := true, false;
      lastBeat, lastStep := -1, -1;
    }

    /** `stop`: drop the players, clear both flags and reset both cursors. */
    method Stop()
      requires Valid()
      modifies this
      ensures Valid()
      ensures !hasPlayer && !musicPlaying && !paused && lastBeat == -1 && lastStep == -1
      ensures pauseTime == old(pauseTime)
    {
      hasPlayer := false;
      musicPlaying, paused := false, false;
      lastBeat, lastStep := -1, -1;
    }

    /** `pause`: only while playing and not paused; records the song position. */
    method Pause(playerTime: real)
      requires Valid()
      modifies this
      ensures Valid()
      ensures !old(musicPlaying) || old(paused) ==> unchanged(this)
      ensures old(musicPlaying) && !old(paused) ==>
                && paused && pauseTime == old(SongMs(playerTime))
                && musicPlaying && hasPlayer == old(hasPlayer)
                && lastBeat == old(lastBeat) && lastStep == old(lastStep)
    {
      if !musicPlaying || paused {
        return;
      }
      pauseTime := SongMs(playerTime);
      paused := true;
    }

    /** `resume`: only while paused; restarts the players and clears the pause. */
    method Resume()
      requires Valid()
      modifies this
      ensures Valid()
      ensures !old(paused) ==> unchanged(this)
      ensures old(paused) ==>
                && hasPlayer && musicPlaying && !paused && pauseTime == old(pauseTime)
                && lastBeat == old(lastBeat) && lastStep == old(lastStep)
    {
      if !paused {
        return;
      }
      hasPlayer := true;
      paused := false;
      musicPlaying := true;
    }
  }

  /** `_build_section_timeline`: accumulate each section's range with a running time and tempo. */
  method BuildSectionTimeline(song: SongChart) returns (r: Result<seq<SectionRange>, TimelineError>)
    ensures r == SectionTimeline(song.bpm, song.sections)
  {
    var bpm := song.bpm;
    var ranges: seq<SectionRange> := [];
    var current := 0.0;
    for i := 0 to |song.sections|
      invariant SectionsUpTo(song.bpm, song.sections, i) == Success(ranges)
      invariant current == EndOf(ranges)
      invariant bpm == BpmBefore(song.bpm, song.sections, i)
    {
      var sec := song.sections[i];
      if sec.changeBpm {
        bpm := if sec.bpm.Some? then sec.bpm.value else bpm;
      }
      assert bpm == SectionBpm(song.bpm, song.sections, i);
      if bpm == 0.0 {
        FailureSticks(song.bpm, song.sections, i + 1, ZeroDivisionError);
        return Failure(ZeroDivisionError);
      }
      var lengthMs := SectionMs(sec, bpm);
      ranges := ranges + [SectionRange(current, current + lengthMs, sec.mustHitSection)];
      current := current + lengthMs;
    }
    return Success(ranges);
  }

  /** Once the first `n` sections fail, the whole section timeline fails with the same error. */
  lemma {:induction false} FailureSticks(base: real, secs: seq<ChartSection>, n: nat, e: TimelineError)
    requires n <= |secs| && SectionsUpTo(base, secs, n) == Failure(e)
    ensures SectionTimeline(base, secs) == Failure(e)
    decreases |secs| - n
  {
    if n < |secs| {
      FailureSticks(base, secs, n + 1, e);
    }
  }

  lemma {:induction false} TimeFailureSticks(base: real, secs: seq<ChartSection>, n: nat, e: TimelineError)
    requires n <= |secs| && TimesUpTo(base, secs, n) == Failure(e)
    ensures TimeTimeline(base, secs) == Failure(e)
    decreases |secs| - n
  {
    if n < |secs| {
      TimeFailureSticks(base, secs, n + 1, e);
    }
  }

  /**
   * `_build_time_timeline`: per section, append one step time per step from
   * the running time, then the section's beats from its first step.
   */
  method BuildTimeTimeline(song: SongChart) returns (r: Result<(seq<real>, seq<real>), TimelineError>)
    ensures TimeTimeline(song.bpm, song.sections).Failure? ==>
              r == Failure(TimeTimeline(song.bpm, song.sections).error)
    ensures TimeTimeline(song.bpm, song.sections).Success? ==>
              r == Success((TimeTimeline(song.bpm, song.sections).value.beats,
                            TimeTimeline(song.bpm, song.sections).value.steps))
  {
    var bpm := song.bpm;
    var beatTimes: seq<real> := [];
    var stepTimes: seq<real> := [];
    var current := 0.0;
    for i := 0 to |song.sections|
      invariant TimesUpTo(song.bpm, song.sections, i) == Success(Timeline(beatTimes, stepTimes, current))
      invariant bpm == BpmBefore(song.bpm, song.sections, i)
    {
      var sec := song.sections[i];
      if sec.changeBpm {
        bpm := if sec.bpm.Some? then sec.bpm.value else bpm;
      }
      assert bpm == SectionBpm(song.bpm, song.sections, i);
      var added := AddSection(Timeline(beatTimes, stepTimes, current), bpm, SectionSteps(sec));
      if added.Failure? {
        TimeFailureSticks(song.bpm, song.sections, i + 1, added.error);
        return Failure(added.error);
      }
      beatTimes, stepTimes, current := added.value.beats, added.value.steps, added.value.end;
    }
    return Success((beatTimes, stepTimes));
  }

  /**
   * The body of `_build_time_timeline`'s section loop: the tempo's beat and
   * step lengths (dividing by the tempo), `n` steps from the running time,
   * then `n // 4` beats from `step_times[-n]`.
   */
  method AddSection(prev: Timeline, bpm: real, n: nat) returns (r: Result<Timeline, TimelineError>)
    ensures r == AddSectionTimes(prev, bpm, n)
  {
    if bpm == 0.0 {
      return Failure(ZeroDivisionError);
    }
    var steps, end := AppendSteps(prev.steps, prev.end, StepMs(bpm), n);
    var first := if n == 0 then 0 else |steps| - n;
    if first >= |steps| {
      return Failure(IndexError);
    }
    var beats := AppendBeats(prev.beats, steps[first], BeatMs(bpm), n / 4);
    assert AddSectionTimes(prev, bpm, n).value.steps == steps;
    assert AddSectionTimes(prev, bpm, n).value.end == end;
    assert AddSectionTimes(prev, bpm, n).value.beats == beats;
    return Success(Timeline(beats, steps, end));
  }

  /** The step loop of `_build_time_timeline`: `n` steps of `stepMs` from `current`. */
  method AppendSteps(stepTimes: seq<real>, current: real, stepMs: real, n: nat) returns (steps: seq<real>, end: real)
    ensures steps == stepTimes + StepRun(current, stepMs, n)
    ensures end == current + n as real * stepMs
  {
    steps, end := stepTimes, current;
    for k := 0 to n
      invariant steps == stepTimes + StepRun(current, stepMs, k)
      invariant end == current + k as real * stepMs
    {
      StepRunSnoc(current, stepMs, k);
      steps := steps + [end];
      end := end + stepMs;
    }
  }

  /** The beat loop of `_build_time_timeline`: `count` beats of `beatMs` from `beatStart`. */
  method AppendBeats(beatTimes: seq<real>, beatStart: real, beatMs: real, count: nat) returns (beats: seq<real>)
    ensures beats == beatTimes + StepRun(beatStart, beatMs, count)
  {
    beats := beatTimes;
    for k := 0 to count
      invariant beats == beatTimes + StepRun(beatStart, beatMs, k)
    {
      StepRunSnoc(beatStart, beatMs, k);
      beats := beats + [beatStart + k as real * beatMs];
    }
  }

  /**
   * `SongManager.__init__` without the audio: build both timelines (either
   * may raise) and start stopped, with both cursors at -1.
   */
  method NewSongManager(song: SongChart) returns (r: Result<SongManager, TimelineError>)
    ensures SectionTimeline(song.bpm, song.sections).Failure? ==>
              r == Failure(SectionTimeline(song.bpm, song.sections).error)
    ensures SectionTimeline(song.bpm, song.sections).Success? && TimeTimeline(song.bpm, song.sections).Failure? ==>
              r == Failure(TimeTimeline(song.bpm, song.sections).error)
    ensures r.Success? ==>
              && SectionTimeline(song.bpm, song.sections).Success? && TimeTimeline(song.bpm, song.sections).Success?
              && fresh(r.value) && r.value.Valid()
              && r.value.sections == SectionTimeline(song.bpm, song.sections).value
              && r.value.beatTimes == TimeTimeline(song.bpm, song.sections).value.beats
              && r.value.stepTimes == TimeTimeline(song.bpm, song.sections).value.steps
              && !r.value.musicPlaying && !r.value.paused && !r.value.hasPlayer
              && r.value.lastStep == -1 && r.value.lastBeat == -1
  {
    var sections := BuildSectionTimeline(song);
    if sections.Failure? {
      return Failure(sections.error);
    }
    var times := BuildTimeTimeline(song);
    if times.Failure? {
      return Failure(times.error);
    }
    var m := new SongManager(sections.value, times.value.0, times.value.1);
    return Success(m);
  }
}
