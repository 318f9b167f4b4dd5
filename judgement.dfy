/**
 * The pure rules of the judgement engine in sources/game/note.py: which
 * notes a key press may hit and which of them it hits, the judgement-window
 * table, and the per-note transitions of opponent auto-play, miss detection
 * and early release, stated over a value snapshot of a note's fields.
 */
module Judgement {
  import opened Wrappers

  /** The judgement windows file (label to tolerance in ms) in its key order. */
  type WindowTable = seq<(string, real)>

  /** The fields of a `Note` that the judgement rules read or write. */
  datatype NoteView = NoteView(
    directionIndex: int,
    strumTime: real,
    sustainLength: real,
    mustHitNote: bool,
    penaltyNote: bool,
    pressed: bool,
    released: bool,
    isHit: bool,
    isMiss: bool,
    isReleasedEarly: bool,
    judgement: string,
    dimmed: bool)

  /** The label the opponent's automatic presses receive. */
  const AUTO_LABEL: string := "auto"

  function Abs(x: real): real {
    if x < 0.0 then -x else x
  }

  /** `Note.is_opponent`: lanes 4 to 7 belong to the non-controllable actor. */
  predicate IsOpponentLane(lane: int) {
    lane >= 4
  }

  /** `hit_window_ms = max(windows.values())`. */
  function MaxWindow(t: WindowTable): (m: real)
    requires |t| > 0
    ensures exists k :: 0 <= k < |t| && t[k].1 == m
    ensures forall k :: 0 <= k < |t| ==> t[k].1 <= m
  {
    if |t| == 1 then t[0].1
    else
      var rest := MaxWindow(t[1..]);
      assert forall k :: 1 <= k < |t| ==> t[k] == t[1..][k - 1];
      if t[0].1 >= rest then t[0].1 else rest
  }

  /** Index of the first window, in table order, whose tolerance admits `diff`. */
  function FirstWindow(t: WindowTable, diff: real): (r: Option<nat>)
    ensures r.None? <==> forall k :: 0 <= k < |t| ==> diff > t[k].1
    ensures r.Some? ==> r.value < |t| && diff <= t[r.value].1
    ensures r.Some? ==> forall k :: 0 <= k < r.value ==> diff > t[k].1
  {
    if t == [] then None
    else if diff <= t[0].1 then Some(0)
    else
      var rest := FirstWindow(t[1..], diff);
      assert forall k :: 1 <= k < |t| ==> t[k] == t[1..][k - 1];
      match rest
      case None => None
      case Some(k) => Some(k + 1)
  }

  /** The judgement label a hit with timing error `diff` receives, if any window admits it. */
  function LabelFor(t: WindowTable, diff: real): Option<string> {
    match FirstWindow(t, diff)
    case None => None
    case Some(k) => Some(t[k].0)
  }

  /** Every timing error within the table's largest window is judged. */
  lemma WithinHitWindowIsJudged(t: WindowTable, diff: real)
    requires |t| > 0 && diff <= MaxWindow(t)
    ensures FirstWindow(t, diff).Some?
    ensures LabelFor(t, diff).Some?
  {
    var m := MaxWindow(t);
    var k :| 0 <= k < |t| && t[k].1 == m;
    assert diff <= t[k].1;
  }

  /**
   * The table is read in its stored order, not by tolerance: with "good"
   * stored before "sick", an error of 20 ms is judged "good".
   */
  lemma TableOrderDecides()
    ensures LabelFor([("sick", 25.0), ("good", 50.0), ("bad", 100.0), ("shit", 150.0)], 20.0) == Some("sick")
    ensures LabelFor([("sick", 25.0), ("good", 50.0), ("bad", 100.0), ("shit", 150.0)], 60.0) == Some("bad")
    ensures LabelFor([("sick", 25.0), ("good", 50.0), ("bad", 100.0), ("shit", 150.0)], 300.0) == None
    ensures LabelFor([("good", 50.0), ("sick", 25.0)], 20.0) == Some("good")
  {
    var t := [("sick", 25.0), ("good", 50.0), ("bad", 100.0), ("shit", 150.0)];
    assert FirstWindow(t, 20.0) == Some(0);
    assert FirstWindow(t, 60.0) == Some(2);
    assert FirstWindow([("good", 50.0), ("sick", 25.0)], 20.0) == Some(0);
  }

  /** A note `_process_hit` may take for a press on `lane` at `ms`. */
  predicate IsCandidate(v: NoteView, lane: int, ms: real, window: real) {
    !v.isHit && !v.isMiss && v.directionIndex == lane && Abs(v.strumTime - ms) <= window
  }

  /**
   * `min(candidates, key=strum_time)`: the candidate with the smallest strum
   * time, and among equal ones the first in list order.
   */
  function EarliestCandidate(vs: seq<NoteView>, lane: int, ms: real, window: real): (r: Option<nat>)
    ensures r.None? <==> forall i :: 0 <= i < |vs| ==> !IsCandidate(vs[i], lane, ms, window)
    ensures r.Some? ==> r.value < |vs| && IsCandidate(vs[r.value], lane, ms, window)
    ensures r.Some? ==> forall i :: 0 <= i < |vs| && IsCandidate(vs[i], lane, ms, window) ==>
                          vs[r.value].strumTime <= vs[i].strumTime
    ensures r.Some? ==> forall i :: 0 <= i < r.value && IsCandidate(vs[i], lane, ms, window) ==>
                          vs[r.value].strumTime < vs[i].strumTime
  {
    if vs == [] then None
    else
      var last := |vs| - 1;
      var prev := EarliestCandidate(vs[..last], lane, ms, window);
      assert forall i :: 0 <= i < last ==> vs[..last][i] == vs[i];
      if !IsCandidate(vs[last], lane, ms, window) then prev
      else if prev.None? || vs[last].strumTime < vs[prev.value].strumTime then Some(last)
      else prev
  }

  /** The note after being hit: flagged, and labelled when a window admits it. */
  function MarkHit(v: NoteView, verdict: Option<string>): NoteView {
    v.(isHit := true, judgement := verdict.GetOr(v.judgement))
  }

  /** Hit and miss exclude each other, and an opponent note is never missed. */
  predicate Consistent(v: NoteView) {
    !(v.isHit && v.isMiss) && (IsOpponentLane(v.directionIndex) ==> !v.isMiss)
  }

  /** A later snapshot of the same note: the chart data is unchanged and no flag was cleared. */
  predicate Progress(a: NoteView, b: NoteView) {
    && a.directionIndex == b.directionIndex && a.strumTime == b.strumTime
    && a.sustainLength == b.sustainLength && a.mustHitNote == b.mustHitNote && a.penaltyNote == b.penaltyNote
    && (a.pressed ==> b.pressed) && (a.released ==> b.released)
    && (a.isHit ==> b.isHit) && (a.isMiss ==> b.isMiss)
    && (a.isReleasedEarly ==> b.isReleasedEarly) && (a.dimmed ==> b.dimmed)
  }

  /** Hitting a candidate keeps it consistent and clears no flag. */
  lemma HitKeepsConsistent(v: NoteView, lane: int, ms: real, window: real, verdict: Option<string>)
    requires Consistent(v) && IsCandidate(v, lane, ms, window)
    ensures Consistent(MarkHit(v, verdict)) && Progress(v, MarkHit(v, verdict))
    ensures MarkHit(v, verdict).isHit && !MarkHit(v, verdict).isMiss
  {
  }

  /** The automatic press of an opponent note fires now. */
  predicate PressFires(v: NoteView, ms: real) {
    IsOpponentLane(v.directionIndex) && !v.pressed && ms >= v.strumTime
  }

  /** The automatic release of an opponent note fires now. */
  predicate ReleaseFires(v: NoteView, ms: real) {
    IsOpponentLane(v.directionIndex) && !v.released && ms > v.strumTime + v.sustainLength
  }

  /** One note's part of `_opponent_input` at song time `ms`. */
  function OpponentStep(v: NoteView, ms: real): (r: NoteView)
    ensures Consistent(v) ==> Consistent(r)
    ensures Progress(v, r)
    ensures !IsOpponentLane(v.directionIndex) ==> r == v
    ensures PressFires(v, ms) ==> r.pressed && r.isHit && r.judgement == AUTO_LABEL
    ensures ReleaseFires(v, ms) ==> r.released
  {
    var afterPress := if PressFires(v, ms) then v.(pressed := true, isHit := true, judgement := AUTO_LABEL) else v;
    if ReleaseFires(afterPress, ms) then afterPress.(released := true) else afterPress
  }

  /** The state of a note after `_opponent_input` ran at each time of `ts`, in order. */
  function OpponentRun(v: NoteView, ts: seq<real>): NoteView
    decreases |ts|
  {
    if ts == [] then v else OpponentRun(OpponentStep(v, ts[0]), ts[1..])
  }

  /** How many automatic presses a note fires over the ticks `ts`. */
  function PressCount(v: NoteView, ts: seq<real>): nat
    decreases |ts|
  {
    if ts == [] then 0
    else (if PressFires(v, ts[0]) then 1 else 0) + PressCount(OpponentStep(v, ts[0]), ts[1..])
  }

  /** How many automatic releases a note fires over the ticks `ts`. */
  function ReleaseCount(v: NoteView, ts: seq<real>): nat
    decreases |ts|
  {
    if ts == [] then 0
    else (if ReleaseFires(v, ts[0]) then 1 else 0) + ReleaseCount(OpponentStep(v, ts[0]), ts[1..])
  }

  /**
   * Over any sequence of ticks an opponent note fires its press at most once
   * and none at all once it has pressed; likewise for its release.
   */
  lemma {:induction false} OpponentFiresOnce(v: NoteView, ts: seq<real>)
    ensures PressCount(v, ts) <= (if v.pressed then 0 else 1)
    ensures ReleaseCount(v, ts) <= (if v.released then 0 else 1)
    decreases |ts|
  {
    if ts != [] {
      OpponentFiresOnce(OpponentStep(v, ts[0]), ts[1..]);
    }
  }

  /** A press fires only at or after the strum time, a release only after the sustain ends. */
  lemma {:induction false} OpponentFiresInTime(v: NoteView, ts: seq<real>, k: nat)
    requires k < |ts|
    requires PressFires(OpponentRun(v, ts[..k]), ts[k]) || ReleaseFires(OpponentRun(v, ts[..k]), ts[k])
    ensures PressFires(OpponentRun(v, ts[..k]), ts[k]) ==> ts[k] >= v.strumTime
    ensures ReleaseFires(OpponentRun(v, ts[..k]), ts[k]) ==> ts[k] > v.strumTime + v.sustainLength
  {
    RunProgress(v, ts[..k]);
  }

  lemma {:induction false} RunProgress(v: NoteView, ts: seq<real>)
    ensures Progress(v, OpponentRun(v, ts))
    decreases |ts|
  {
    if ts != [] {
      RunProgress(OpponentStep(v, ts[0]), ts[1..]);
    }
  }

  /** The miss pass marks this note missed now. */
  predicate MissFires(v: NoteView, ms: real, window: real) {
    !IsOpponentLane(v.directionIndex) && !v.isHit && !v.isMiss && ms > v.strumTime + window
  }

  /** One note's part of the miss pass in `update`. */
  function MissStep(v: NoteView, ms: real, window: real): (r: NoteView)
    ensures Consistent(v) ==> Consistent(r)
    ensures Progress(v, r)
    ensures MissFires(v, ms, window) ==> r.isMiss && r.dimmed && !r.isHit
    ensures !MissFires(v, ms, window) ==> r == v
  {
    if MissFires(v, ms, window) then v.(isMiss := true, dimmed := true) else v
  }

  /** No automatic press or release of the note is due at `ms`. */
  predicate Settled(v: NoteView, ms: real) {
    !PressFires(v, ms) && !ReleaseFires(v, ms)
  }


  /** A note a release on `lane` at `ms` cuts short. */
  predicate EarlyReleasable(v: NoteView, lane: int, ms: real) {
    && !IsOpponentLane(v.directionIndex) && v.directionIndex == lane
    && v.isHit && !v.isReleasedEarly
    && v.strumTime <= ms < v.strumTime + v.sustainLength
  }

  /** The first note, in list order, that a release cuts short. */
  function FirstEarlyRelease(vs: seq<NoteView>, lane: int, ms: real): (r: Option<nat>)
    ensures r.None? <==> forall i :: 0 <= i < |vs| ==> !EarlyReleasable(vs[i], lane, ms)
    ensures r.Some? ==> r.value < |vs| && EarlyReleasable(vs[r.value], lane, ms)
    ensures r.Some? ==> forall i :: 0 <= i < r.value ==> !EarlyReleasable(vs[i], lane, ms)
  {
    if vs == [] then None
    else if EarlyReleasable(vs[0], lane, ms) then Some(0)
    else
      var rest := FirstEarlyRelease(vs[1..], lane, ms);
      assert forall i :: 1 <= i < |vs| ==> vs[i] == vs[1..][i - 1];
      match rest
      case None => None
      case Some(k) => Some(k + 1)
  }

  /** The note after its hold was cut short. */
  function ReleaseEarly(v: NoteView): NoteView {
    v.(isReleasedEarly := true, dimmed := true)
  }

  /**
   * A note flagged by one release is never flagged again: no later release,
   * on any lane at any time, selects it.
   */
  lemma ReleasedEarlyOnce(vs: seq<NoteView>, lane: int, ms: real, lane': int, ms': real)
    requires FirstEarlyRelease(vs, lane, ms).Some?
    ensures var k := FirstEarlyRelease(vs, lane, ms).value;
            FirstEarlyRelease(vs[k := ReleaseEarly(vs[k])], lane', ms') != Some(k)
  {
  }

  /** Cutting a hold short keeps the note consistent and clears no flag. */
  lemma ReleaseEarlyKeepsConsistent(v: NoteView)
    requires Consistent(v)
    ensures Consistent(ReleaseEarly(v)) && Progress(v, ReleaseEarly(v))
  {
  }

  /** `_opponent_input` over all notes: each snapshot after its opponent step. */
  function OpponentSweep(vs: seq<NoteView>, ms: real): (r: seq<NoteView>)
    ensures |r| == |vs|
  {
    seq(|vs|, i requires 0 <= i < |vs| => OpponentStep(vs[i], ms))
  }

  /** The miss pass over all notes: each snapshot after its miss step. */
  function MissSweep(vs: seq<NoteView>, ms: real, window: real): (r: seq<NoteView>)
    ensures |r| == |vs|
  {
    seq(|vs|, i requires 0 <= i < |vs| => MissStep(vs[i], ms, window))
  }

  /** Every note on screen is consistent. */
  predicate AllConsistent(vs: seq<NoteView>) {
    forall i :: 0 <= i < |vs| ==> Consistent(vs[i])
  }

  /**
   * No pass over the notes ever makes a note both hit and missed: spawning,
   * a hit, early release, auto-play and the miss pass all keep every note
   * consistent.
   */
  lemma SpawnKeepsConsistent(vs: seq<NoteView>, spawned: NoteView)
    requires AllConsistent(vs)
    requires !spawned.isHit && !spawned.isMiss
    ensures AllConsistent(vs + [spawned])
  {
  }

  lemma HitSweepKeepsConsistent(vs: seq<NoteView>, lane: int, ms: real, window: real, verdict: Option<string>)
    requires AllConsistent(vs)
    ensures var k := EarliestCandidate(vs, lane, ms, window);
            k.Some? ==> AllConsistent(vs[k.value := MarkHit(vs[k.value], verdict)])
  {
    var k := EarliestCandidate(vs, lane, ms, window);
    if k.Some? {
      HitKeepsConsistent(vs[k.value], lane, ms, window, verdict);
    }
  }

  lemma ReleaseSweepKeepsConsistent(vs: seq<NoteView>, lane: int, ms: real)
    requires AllConsistent(vs)
    ensures var k := FirstEarlyRelease(vs, lane, ms);
            k.Some? ==> AllConsistent(vs[k.value := ReleaseEarly(vs[k.value])])
  {
    var k := FirstEarlyRelease(vs, lane, ms);
    if k.Some? {
      ReleaseEarlyKeepsConsistent(vs[k.value]);
    }
  }

  lemma SweepsKeepConsistent(vs: seq<NoteView>, ms: real, window: real)
    requires AllConsistent(vs)
    ensures AllConsistent(OpponentSweep(vs, ms))
    ensures AllConsistent(MissSweep(vs, ms, window))
  {
  }

  /** Removing notes keeps the rest consistent. */
  lemma SubsetKeepsConsistent(vs: seq<NoteView>, ws: seq<NoteView>)
    requires AllConsistent(vs)
    requires forall i :: 0 <= i < |ws| ==> ws[i] in vs
    ensures AllConsistent(ws)
  {
  }

  /**
   * After auto-play and the miss pass at `ms`, with any notes removed in
   * between, no automatic press or release and no miss is still due.
   */
  lemma UpdateSettles(vs: seq<NoteView>, kept: seq<NoteView>, ms: real, window: real)
    requires forall i :: 0 <= i < |kept| ==> kept[i] in OpponentSweep(vs, ms)
    ensures forall i :: 0 <= i < |kept| ==>
              Settled(MissSweep(kept, ms, window)[i], ms) && !MissFires(MissSweep(kept, ms, window)[i], ms, window)
  {
    forall i | 0 <= i < |kept|
      ensures Settled(MissSweep(kept, ms, window)[i], ms)
    {
      var j :| 0 <= j < |vs| && OpponentSweep(vs, ms)[j] == kept[i];
      assert Settled(OpponentStep(vs[j], ms), ms);
    }
  }
}
