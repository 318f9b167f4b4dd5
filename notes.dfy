/**
 * The note lifecycle manager of sources/game/note.py: spawning chart entries
 * ahead of the play-head, judging key presses and releases, opponent
 * auto-play, miss detection and despawning. The song position is passed in
 * as `songMs`; what the source publishes on the bus is returned as a list of
 * `NoteEvent`s in publish order.
 */
module Notes {
  import opened Wrappers
  import opened Chart
  import opened Judgement

  /** Grace period after a note's sustain before it is removed (`REMOVE_DELAY_MS`). */
  const REMOVE_DELAY_MS: real := 200.0

  /** How far ahead of the play-head chart entries are spawned (`spawn_lead_ms`). */
  const SPAWN_LEAD_MS: real := 2000.0

  /** An on-screen note. The chart data is fixed at spawn; the flags change in place. */
  class Note {
    const directionIndex: int
    const strumTime: real
    const sustainLength: real
    const noteType: string
    const mustHitNote: bool
    const penaltyNote: bool

    // flags used by the opponent auto-play
    var pressed: bool
    var released: bool

    var isHit: bool
    var isMiss: bool
    var isReleasedEarly: bool
    var judgement: string
    /** Set by `set_visual_miss` (the note is drawn at reduced alpha). */
    var dimmed: bool

    /** A value snapshot of the fields the judgement rules use. */
    function View(): NoteView
      reads this
    {
      NoteView(directionIndex, strumTime, sustainLength, mustHitNote, penaltyNote,
               pressed, released, isHit, isMiss, isReleasedEarly, judgement, dimmed)
    }

    /** A freshly spawned note for chart entry `e`: no flag set and no judgement. */
    constructor (e: ChartEvent)
      ensures View() == Spawned(e)
      ensures noteType == e.noteType
    {
      directionIndex := e.directionIndex;
      strumTime := e.strumTime;
      sustainLength := e.sustainLength;
      noteType := e.noteType;
      mustHitNote := e.mustHitNote;
      penaltyNote := e.penaltyNote;
      pressed, released := false, false;
      isHit, isMiss, isReleasedEarly := false, false, false;
      judgement := "";
      dimmed := false;
    }

    /** `is_opponent`. */
    predicate IsOpponent() {
      IsOpponentLane(directionIndex)
    }

    /** `should_despawn`: the sustain and the grace period are over. */
    predicate ShouldDespawn(songMs: real) {
      songMs >= strumTime + sustainLength + REMOVE_DELAY_MS
    }

    /** The hit of `_process_hit`: flag the note and store the label, if any. */
    method MarkAsHit(verdict: Option<string>)
      modifies this
      ensures View() == MarkHit(old(View()), verdict)
    {
      isHit := true;
      if verdict.Some? {
        judgement := verdict.value;
      }
    }

    /** This note's part of `_opponent_input`, with what it publishes. */
    method AutoPlay(songMs: real) returns (events: seq<NoteEvent>)
      modifies this
      ensures View() == OpponentStep(old(View()), songMs)
      ensures events == OpponentEventsOf(this, old(View()), songMs)
    {
      events := [];
      if IsOpponent() {
        if !pressed && songMs >= strumTime {
          pressed := true;
          isHit := true;
          judgement := AUTO_LABEL;
          events := events + [OpponentPressed(directionIndex, this)];
        }
        if !released && songMs > strumTime + sustainLength {
          released := true;
          events := events + [OpponentReleased(directionIndex)];
        }
      }
    }

    /** This note's part of the miss pass of `update`, with what it publishes. */
    method CheckMiss(songMs: real, hitWindowMs: real) returns (events: seq<NoteEvent>)
      modifies this
      ensures View() == MissStep(old(View()), songMs, hitWindowMs)
      ensures events == MissEventsOf(this, old(View()), songMs, hitWindowMs)
    {
      events := [];
      if !IsOpponent() && !isHit && !isMiss {
        if songMs > strumTime + hitWindowMs {
          isMiss := true;
          dimmed := true;
          if mustHitNote {
            events := [PlayerNoteMiss(this)];
          }
        }
      }
    }

    /** The early release of `on_key_release`: flag the note and dim it (`set_visual_miss`). */
    method MarkReleasedEarly()
      modifies this
      ensures View() == ReleaseEarly(old(View()))
    {
      isReleasedEarly := true;
      dimmed := true;
    }
  }

  /** The snapshot of a note just spawned from chart entry `e`. */
  function Spawned(e: ChartEvent): NoteView {
    NoteView(e.directionIndex, e.strumTime, e.sustainLength, e.mustHitNote, e.penaltyNote,
             false, false, false, false, false, "", false)
  }

  /** Once a note is due for removal it stays due at every later song time. */
  lemma DespawnIsPermanent(n: Note, t: real, t': real)
    requires n.ShouldDespawn(t) && t <= t'
    ensures n.ShouldDespawn(t')
  {
  }

  /** A note is never removed while its hold can still be released, nor before its opponent release can fire. */
  lemma DespawnAfterSustain(n: Note, t: real)
    requires n.ShouldDespawn(t)
    ensures t > n.strumTime + n.sustainLength
    ensures !(n.strumTime <= t < n.strumTime + n.sustainLength)
  {
  }

  /** What the lifecycle manager publishes. */
  datatype NoteEvent =
    | PlayerPressed(directionIndex: int, pressedNote: Option<Note>)
    | PlayerReleased(directionIndex: int)
    | PlayerNoteMiss(missedNote: Note)
    | OpponentPressed(directionIndex: int, opponentNote: Note)
    | OpponentReleased(directionIndex: int)

  ghost predicate Distinct(ns: seq<Note>) {
    forall i, j :: 0 <= i < j < |ns| ==> ns[i] != ns[j]
  }

  /** The notes that survive the despawn check at `songMs`, in list order. */
  function Surviving(ns: seq<Note>, songMs: real): seq<Note> {
    if ns == [] then []
    else
      var rest := Surviving(ns[1..], songMs);
      if ns[0].ShouldDespawn(songMs) then rest else [ns[0]] + rest
  }

  /**
   * The survivors are exactly the notes of `ns` not yet due for removal, and
   * distinct notes stay distinct.
   */
  lemma {:induction false} SurvivingMembers(ns: seq<Note>, songMs: real)
    ensures var r := Surviving(ns, songMs);
            && (forall i :: 0 <= i < |r| ==> r[i] in ns && !r[i].ShouldDespawn(songMs))
            && (forall i :: 0 <= i < |ns| ==> (ns[i] in r <==> !ns[i].ShouldDespawn(songMs)))
            && (Distinct(ns) ==> Distinct(r))
            && |r| <= |ns|
  {
    if ns != [] {
      var rest := Surviving(ns[1..], songMs);
      SurvivingMembers(ns[1..], songMs);
      assert forall i :: 1 <= i < |ns| ==> ns[i] == ns[1..][i - 1];
      if !ns[0].ShouldDespawn(songMs) {
        var r := [ns[0]] + rest;
        assert forall i :: 1 <= i < |r| ==> r[i] == rest[i - 1];
        assert Distinct(ns) ==> ns[0] !in ns[1..];
      }
    }
  }

  /** Removing despawned notes twice removes nothing more the second time. */
  lemma {:induction false} DespawnIdempotent(ns: seq<Note>, songMs: real)
    ensures Surviving(Surviving(ns, songMs), songMs) == Surviving(ns, songMs)
  {
    if ns != [] {
      DespawnIdempotent(ns[1..], songMs);
      if !ns[0].ShouldDespawn(songMs) {
        var r := Surviving(ns, songMs);
        assert r[1..] == Surviving(ns[1..], songMs);
      }
    }
  }

  /** Despawning splits over a concatenation, so the survivors keep their list order. */
  lemma {:induction false} SurvivingConcat(a: seq<Note>, b: seq<Note>, songMs: real)
    ensures Surviving(a + b, songMs) == Surviving(a, songMs) + Surviving(b, songMs)
    decreases |a|
  {
    if a == [] {
      assert a + b == b;
    } else {
      assert (a + b)[1..] == a[1..] + b;
      SurvivingConcat(a[1..], b, songMs);
    }
  }

  /** `should_despawn` read off a note's snapshot. */
  predicate DueForRemoval(v: NoteView, songMs: real) {
    songMs >= v.strumTime + v.sustainLength + REMOVE_DELAY_MS
  }

  /** The snapshots of the notes that survive the despawn check, in list order. */
  function KeptViews(vs: seq<NoteView>, songMs: real): (r: seq<NoteView>)
    ensures forall i :: 0 <= i < |r| ==> r[i] in vs && !DueForRemoval(r[i], songMs)
  {
    if vs == [] then []
    else
      var rest := KeptViews(vs[1..], songMs);
      if DueForRemoval(vs[0], songMs) then rest else [vs[0]] + rest
  }

  /** The survivors of `ns` have as snapshots the kept snapshots of `ns`. */
  lemma {:induction false} SurvivingViews(ns: seq<Note>, vs: seq<NoteView>, songMs: real)
    requires |ns| == |vs|
    requires forall i :: 0 <= i < |ns| ==> ns[i].View() == vs[i]
    ensures |Surviving(ns, songMs)| == |KeptViews(vs, songMs)|
    ensures forall i :: 0 <= i < |Surviving(ns, songMs)| ==> Surviving(ns, songMs)[i].View() == KeptViews(vs, songMs)[i]
  {
    if ns != [] {
      var rest, kept := Surviving(ns[1..], songMs), KeptViews(vs[1..], songMs);
      assert forall i :: 0 <= i < |ns[1..]| ==> ns[1..][i].View() == vs[1..][i] by {
        forall i | 0 <= i < |ns[1..]|
          ensures ns[1..][i].View() == vs[1..][i]
        {
          assert ns[1..][i] == ns[i + 1];
        }
      }
      SurvivingViews(ns[1..], vs[1..], songMs);
      if ns[0].ShouldDespawn(songMs) {
        assert DueForRemoval(vs[0], songMs);
        assert Surviving(ns, songMs) == rest && KeptViews(vs, songMs) == kept;
      } else {
        assert !DueForRemoval(vs[0], songMs);
        var r, k := Surviving(ns, songMs), KeptViews(vs, songMs);
        assert r == [ns[0]] + rest && k == [vs[0]] + kept;
        forall i | 0 <= i < |r|
          ensures r[i].View() == k[i]
        {
          if i > 0 {
            ConsAt(ns[0], rest, i);
            ConsAt(vs[0], kept, i);
          }
        }
      }
    }
  }

  lemma ConsAt<T>(x: T, s: seq<T>, i: nat)
    requires 0 < i <= |s|
    ensures ([x] + s)[i] == s[i - 1]
  {
  }

  /** The snapshots of the notes `_spawn_notes` creates for chart entries `from` to `to - 1`. */
  function SpawnedViews(chart: seq<ChartEvent>, from: nat, to: nat): (r: seq<NoteView>)
    requires from <= to <= |chart|
    ensures |r| == to - from
    ensures forall j :: 0 <= j < to - from ==> r[j] == Spawned(chart[from + j])
  {
    seq(to - from, j requires 0 <= j < to - from => Spawned(chart[from + j]))
  }

  /** The notes published by `_opponent_input` for a note `n` whose snapshot was `v`. */
  function OpponentEventsOf(n: Note, v: NoteView, songMs: real): seq<NoteEvent> {
    (if PressFires(v, songMs) then [OpponentPressed(v.directionIndex, n)] else [])
    + (if ReleaseFires(v, songMs) then [OpponentReleased(v.directionIndex)] else [])
  }

  /** The events of `_opponent_input` over the first `k` notes of `ns`, with snapshots `vs`, in list order. */
  function OpponentEvents(ns: seq<Note>, vs: seq<NoteView>, k: nat, songMs: real): seq<NoteEvent>
    requires k <= |ns| == |vs|
  {
    if k == 0 then [] else OpponentEvents(ns, vs, k - 1, songMs) + OpponentEventsOf(ns[k - 1], vs[k - 1], songMs)
  }

  /** The events of the miss pass over the first `k` notes of `ns`, with snapshots `vs`. */
  function MissEvents(ns: seq<Note>, vs: seq<NoteView>, k: nat, songMs: real, window: real): seq<NoteEvent>
    requires k <= |ns| == |vs|
  {
    if k == 0 then [] else MissEvents(ns, vs, k - 1, songMs, window) + MissEventsOf(ns[k - 1], vs[k - 1], songMs, window)
  }

  /** What the miss pass publishes for a note `n` whose snapshot was `v`: must-hit misses only. */
  function MissEventsOf(n: Note, v: NoteView, songMs: real, window: real): seq<NoteEvent> {
    if MissFires(v, songMs, window) && v.mustHitNote then [PlayerNoteMiss(n)] else []
  }

  /** The loop of `_opponent_input` over the notes `ns`, whose snapshots are `before`. */
  method AutoPlayAll(ns: seq<Note>, ghost before: seq<NoteView>, songMs: real) returns (events: seq<NoteEvent>)
    requires Distinct(ns) && |before| == |ns|
    requires forall j :: 0 <= j < |ns| ==> ns[j].View() == before[j]
    modifies ns
    ensures forall j :: 0 <= j < |ns| ==> ns[j].View() == OpponentStep(before[j], songMs)
    ensures events == OpponentEvents(ns, before, |ns|, songMs)
  {
    events := [];
    var i := 0;
    while i < |ns|
      invariant 0 <= i <= |ns|
      invariant forall j :: 0 <= j < i ==> ns[j].View() == OpponentStep(before[j], songMs)
      invariant forall j :: i <= j < |ns| ==> ns[j].View() == before[j]
      invariant events == OpponentEvents(ns, before, i, songMs)
    {
      var fired := ns[i].AutoPlay(songMs);
      assert fired == OpponentEventsOf(ns[i], before[i], songMs);
      events := events + fired;
      i := i + 1;
    }
  }

  /** The loop of the miss pass over the notes `ns`, whose snapshots are `before`. */
  method CheckMissAll(ns: seq<Note>, ghost before: seq<NoteView>, songMs: real, hitWindowMs: real)
    returns (events: seq<NoteEvent>)
    requires Distinct(ns) && |before| == |ns|
    requires forall j :: 0 <= j < |ns| ==> ns[j].View() == before[j]
    modifies ns
    ensures forall j :: 0 <= j < |ns| ==> ns[j].View() == MissStep(before[j], songMs, hitWindowMs)
    ensures events == MissEvents(ns, before, |ns|, songMs, hitWindowMs)
  {
    events := [];
    var i := 0;
    while i < |ns|
      invariant 0 <= i <= |ns|
      invariant forall j :: 0 <= j < i ==> ns[j].View() == MissStep(before[j], songMs, hitWindowMs)
      invariant forall j :: i <= j < |ns| ==> ns[j].View() == before[j]
      invariant events == MissEvents(ns, before, i, songMs, hitWindowMs)
    {
      var fired := ns[i].CheckMiss(songMs, hitWindowMs);
      assert fired == MissEventsOf(ns[i], before[i], songMs, hitWindowMs);
      events := events + fired;
      i := i + 1;
    }
  }

  class NoteManager {
    /** `_chart`: built once by `_parse_chart`, sorted by strum time. */
    const chart: seq<ChartEvent>
    /** `_judgement_windows`, in file order. */
    const windows: WindowTable
    /** `hit_window_ms`: the largest judgement window. */
    const hitWindowMs: real
    const spawnLeadMs: real

    var nextSpawnIdx: nat
    /** The `notes` sprite list. */
    var notes: seq<Note>

    /**
     * The manager's invariant: the cursor is within the chart, the hit window
     * is the table's largest, the notes are distinct objects, and no note is
     * both hit and missed and no opponent note is missed.
     */
    ghost predicate Valid()
      reads this, notes
    {
      && nextSpawnIdx <= |chart|
      && |windows| > 0 && hitWindowMs == MaxWindow(windows)
      && spawnLeadMs == SPAWN_LEAD_MS
      && Distinct(notes)
      && AllConsistent(Views())
    }

    /** Snapshots of the notes, in list order. */
    function Views(): (vs: seq<NoteView>)
      reads this, notes
      ensures |vs| == |notes|
    {
      seq(|notes|, i reads this, notes requires 0 <= i < |notes| => notes[i].View())
    }

    /**
     * Parses the chart and reads the judgement table; `max` of an empty
     * table raises, so the table must have an entry.
     */
    constructor (song: SongChart, settings: map<string, TypeSettings>, judgementWindows: WindowTable)
      requires |judgementWindows| > 0
      ensures Valid()
      ensures chart == StableSort(Normalised(song.sections, settings)) && SortedByTime(chart)
      ensures windows == judgementWindows && notes == [] && nextSpawnIdx == 0
    {
      var parsed := ParseChart(song, settings);
      chart := parsed;
      spawnLeadMs := SPAWN_LEAD_MS;
      nextSpawnIdx := 0;
      windows := judgementWindows;
      hitWindowMs := MaxWindow(judgementWindows);
      notes := [];
    }

    /** The label of the first window, in table order, that admits timing error `diff`. */
    method JudgeDiff(diff: real) returns (verdict: Option<string>)
      ensures verdict == LabelFor(windows, diff)
    {
      verdict := None;
      var i := 0;
      while i < |windows|
        invariant 0 <= i <= |windows|
        invariant forall j :: 0 <= j < i ==> diff > windows[j].1
      {
        if diff <= windows[i].1 {
          verdict := Some(windows[i].0);
          assert FirstWindow(windows, diff) == Some(i);
          return;
        }
        i := i + 1;
      }
    }

    /**
     * `_process_hit`: among the un-hit, un-missed notes of the lane within
     * the hit window, hit the earliest; label it with the first window, in
     * table order, that admits its timing error. Every other note is unchanged.
     */
    method ProcessHit(lane: int, songMs: real) returns (hit: Option<Note>)
      requires Valid()
      modifies notes
      ensures Valid()
      ensures var k := EarliestCandidate(old(Views()), lane, songMs, hitWindowMs);
              && (k.None? ==> hit.None? && Views() == old(Views()))
              && (k.Some? ==>
                    var v := old(Views())[k.value];
                    && hit == Some(notes[k.value])
                    && Views() == old(Views())[k.value := MarkHit(v, LabelFor(windows, Abs(v.strumTime - songMs)))])
    {
      var before := Views();
      var k := EarliestCandidate(before, lane, songMs, hitWindowMs);
      if k.None? {
        hit := None;
      } else {
        var note := notes[k.value];
        var verdict := JudgeDiff(Abs(note.strumTime - songMs));
        note.MarkAsHit(verdict);
        hit := Some(note);
        HitSweepKeepsConsistent(before, lane, songMs, hitWindowMs, verdict);
        assert Views() == before[k.value := MarkHit(before[k.value], verdict)];
      }
    }

    /** `on_key_press`: judge the press and publish `player_pressed` with the note or none. */
    method OnKeyPress(lane: int, songMs: real) returns (events: seq<NoteEvent>)
      requires Valid()
      modifies notes
      ensures Valid()
      ensures var k := EarliestCandidate(old(Views()), lane, songMs, hitWindowMs);
              && (k.None? ==> events == [PlayerPressed(lane, None)] && Views() == old(Views()))
              && (k.Some? ==>
                    var v := old(Views())[k.value];
                    && events == [PlayerPressed(lane, Some(notes[k.value]))]
                    && Views() == old(Views())[k.value := MarkHit(v, LabelFor(windows, Abs(v.strumTime - songMs)))])
    {
      var note := ProcessHit(lane, songMs);
      events := [PlayerPressed(lane, note)];
    }

    /**
     * `_spawn_notes`: while the next chart entry is due within the spawn lead,
     * append a fresh note for it and advance the cursor.
     */
    method SpawnNotes(songMs: real)
      requires Valid()
      modifies this
      ensures Valid()
      ensures old(nextSpawnIdx) <= nextSpawnIdx <= |chart|
      ensures nextSpawnIdx == |chart| || chart[nextSpawnIdx].strumTime > songMs + spawnLeadMs
      ensures forall k :: old(nextSpawnIdx) <= k < nextSpawnIdx ==> chart[k].strumTime <= songMs + spawnLeadMs
      ensures |notes| == |old(notes)| + (nextSpawnIdx - old(nextSpawnIdx))
      ensures notes[..|old(notes)|] == old(notes)
      ensures forall j :: |old(notes)| <= j < |notes| ==>
                fresh(notes[j]) && notes[j].View() == Spawned(chart[old(nextSpawnIdx) + (j - |old(notes)|)])
      ensures Views() == old(Views()) + SpawnedViews(chart, old(nextSpawnIdx), nextSpawnIdx)
    {
      while nextSpawnIdx < |chart| && chart[nextSpawnIdx].strumTime <= songMs + spawnLeadMs
        invariant Valid()
        invariant old(nextSpawnIdx) <= nextSpawnIdx <= |chart|
        invariant forall k :: old(nextSpawnIdx) <= k < nextSpawnIdx ==> chart[k].strumTime <= songMs + spawnLeadMs
        invariant |notes| == |old(notes)| + (nextSpawnIdx - old(nextSpawnIdx))
        invariant notes[..|old(notes)|] == old(notes)
        invariant forall j :: |old(notes)| <= j < |notes| ==>
                    fresh(notes[j]) && notes[j].View() == Spawned(chart[old(nextSpawnIdx) + (j - |old(notes)|)])
        decreases |chart| - nextSpawnIdx
      {
        ghost var vs := Views();
        var note := new Note(chart[nextSpawnIdx]);
        notes := notes + [note];
        nextSpawnIdx := nextSpawnIdx + 1;
        assert Views() == vs + [note.View()];
        SpawnKeepsConsistent(vs, note.View());
      }
      assert Views() == old(Views()) + SpawnedViews(chart, old(nextSpawnIdx), nextSpawnIdx);
    }

    /**
     * `_opponent_input`: every opponent note fires its press once the strum
     * time is reached and its release once the sustain is over, each once.
     */
    method OpponentInput(songMs: real) returns (events: seq<NoteEvent>)
      requires Valid()
      modifies notes
      ensures Valid()
      ensures unchanged(this)
      ensures Views() == OpponentSweep(old(Views()), songMs)
      ensures events == OpponentEvents(notes, old(Views()), |notes|, songMs)
    {
      ghost var before := Views();
      events := AutoPlayAll(notes, before, songMs);
      assert Views() == OpponentSweep(before, songMs);
    }

    /**
     * `on_key_release`: publish `player_released`, then cut short the first
     * hit player note in the lane whose sustain still covers `songMs`, and
     * publish a miss for it.
     */
    method OnKeyRelease(lane: int, songMs: real) returns (events: seq<NoteEvent>)
      requires Valid()
      modifies notes
      ensures Valid()
      ensures var k := FirstEarlyRelease(old(Views()), lane, songMs);
              && (k.None? ==> events == [PlayerReleased(lane)] && Views() == old(Views()))
              && (k.Some? ==>
                    && events == [PlayerReleased(lane), PlayerNoteMiss(notes[k.value])]
                    && Views() == old(Views())[k.value := ReleaseEarly(old(Views())[k.value])])
    {
      ghost var before := Views();
      events := [PlayerReleased(lane)];
      var i := 0;
      while i < |notes| && !EarlyReleasable(notes[i].View(), lane, songMs)
        invariant 0 <= i <= |notes|
        invariant forall j :: 0 <= j < i ==> !EarlyReleasable(before[j], lane, songMs)
      {
        i := i + 1;
      }
      if i < |notes| {
        var note := notes[i];
        note.MarkReleasedEarly();
        events := events + [PlayerNoteMiss(note)];
        assert forall j :: 0 <= j < |notes| && j != i ==> notes[j].View() == before[j];
        assert Views() == before[i := ReleaseEarly(before[i])];
      }
    }

    /** Remove every note due for removal (`despawn` from `Note.update`). */
    method Despawn(songMs: real)
      requires Valid()
      modifies this
      ensures Valid()
      ensures notes == Surviving(old(notes), songMs)
      ensures forall i :: 0 <= i < |notes| ==> !notes[i].ShouldDespawn(songMs)
      ensures Views() == KeptViews(old(Views()), songMs)
      ensures nextSpawnIdx == old(nextSpawnIdx)
    {
      ghost var before := Views();
      SurvivingViews(notes, before, songMs);
      SurvivingMembers(notes, songMs);
      notes := Surviving(notes, songMs);
      assert Views() == KeptViews(before, songMs);
      SubsetKeepsConsistent(before, Views());
    }

    /**
     * The miss pass of `update`: every un-hit, un-missed player note whose
     * hit window has passed is marked missed and dimmed; a miss is published
     * only for must-hit notes.
     */
    method MissPass(songMs: real) returns (events: seq<NoteEvent>)
      requires Valid()
      modifies notes
      ensures Valid()
      ensures unchanged(this)
      ensures Views() == MissSweep(old(Views()), songMs, hitWindowMs)
      ensures events == MissEvents(notes, old(Views()), |notes|, songMs, hitWindowMs)
    {
      ghost var before := Views();
      events := CheckMissAll(notes, before, songMs, hitWindowMs);
      assert Views() == MissSweep(before, songMs, hitWindowMs);
    }

    /**
     * The first half of `update`: `_spawn_notes`, then `_opponent_input`.
     * `spawned` is the note list after spawning: the old notes followed by
     * fresh ones.
     */
    method SpawnAndPlay(songMs: real) returns (events: seq<NoteEvent>, ghost spawned: seq<Note>)
      requires Valid()
      modifies this, notes
      ensures Valid()
      ensures old(nextSpawnIdx) <= nextSpawnIdx <= |chart|
      ensures nextSpawnIdx == |chart| || chart[nextSpawnIdx].strumTime > songMs + spawnLeadMs
      ensures forall k :: old(nextSpawnIdx) <= k < nextSpawnIdx ==> chart[k].strumTime <= songMs + spawnLeadMs
      ensures notes == spawned
      ensures |spawned| == |old(notes)| + (nextSpawnIdx - old(nextSpawnIdx))
      ensures spawned[..|old(notes)|] == old(notes)
      ensures forall j :: |old(notes)| <= j < |spawned| ==> fresh(spawned[j])
      ensures forall j :: 0 <= j < |spawned| ==> spawned[j] in old(notes) || fresh(spawned[j])
      ensures Views() == OpponentSweep(old(Views()) + SpawnedViews(chart, old(nextSpawnIdx), nextSpawnIdx), songMs)
      ensures events == OpponentEvents(spawned, old(Views()) + SpawnedViews(chart, old(nextSpawnIdx), nextSpawnIdx), |spawned|, songMs)
    {
      SpawnNotes(songMs);
      spawned := notes;
      forall j | 0 <= j < |spawned|
        ensures spawned[j] in old(notes) || fresh(spawned[j])
      {
        if j < |old(notes)| {
          assert spawned[j] == spawned[..|old(notes)|][j];
        }
      }
      events := OpponentInput(songMs);
    }

    /** The second half of `update`: despawning (`self.notes.update`), then the miss pass. */
    method SettleNotes(songMs: real) returns (events: seq<NoteEvent>)
      requires Valid()
      modifies this, notes
      ensures Valid()
      ensures nextSpawnIdx == old(nextSpawnIdx)
      ensures notes == Surviving(old(notes), songMs)
      ensures forall n :: n in notes ==> n in old(notes)
      ensures forall i :: 0 <= i < |notes| ==> !notes[i].ShouldDespawn(songMs)
      ensures Views() == MissSweep(KeptViews(old(Views()), songMs), songMs, hitWindowMs)
      ensures |KeptViews(old(Views()), songMs)| == |notes|
      ensures events == MissEvents(notes, KeptViews(old(Views()), songMs), |notes|, songMs, hitWindowMs)
    {
      SurvivingMembers(notes, songMs);
      Despawn(songMs);
      ghost var survivors := notes;
      events := MissPass(songMs);
      assert notes == survivors;
    }

    /**
     * `update`: spawn, opponent auto-play, despawn, then the miss pass, all
     * at one song position. `spawned` is the note list after spawning. The
     * new snapshots and the published events are those of the four passes in
     * order; afterwards every due entry is on screen, no note due for removal
     * is left, and no auto-play or miss is still due (`UpdateSettles`).
     */
    method Update(songMs: real) returns (events: seq<NoteEvent>, ghost spawned: seq<Note>)
      requires Valid()
      modifies this, notes
      ensures Valid()
      ensures old(nextSpawnIdx) <= nextSpawnIdx <= |chart|
      ensures nextSpawnIdx == |chart| || chart[nextSpawnIdx].strumTime > songMs + spawnLeadMs
      ensures forall k :: old(nextSpawnIdx) <= k < nextSpawnIdx ==> chart[k].strumTime <= songMs + spawnLeadMs
      ensures |spawned| == |old(notes)| + (nextSpawnIdx - old(nextSpawnIdx))
      ensures spawned[..|old(notes)|] == old(notes)
      ensures forall j :: |old(notes)| <= j < |spawned| ==> fresh(spawned[j])
      ensures notes == Surviving(spawned, songMs)
      ensures var swept := OpponentSweep(old(Views()) + SpawnedViews(chart, old(nextSpawnIdx), nextSpawnIdx), songMs);
              Views() == MissSweep(KeptViews(swept, songMs), songMs, hitWindowMs)
      ensures var spawnedViews := old(Views()) + SpawnedViews(chart, old(nextSpawnIdx), nextSpawnIdx);
              var kept := KeptViews(OpponentSweep(spawnedViews, songMs), songMs);
              |kept| == |notes| &&
              events == OpponentEvents(spawned, spawnedViews, |spawned|, songMs)
                        + MissEvents(notes, kept, |notes|, songMs, hitWindowMs)
      ensures forall i :: 0 <= i < |notes| ==> !notes[i].ShouldDespawn(songMs)
      ensures forall i :: 0 <= i < |notes| ==>
                Settled(Views()[i], songMs) && !MissFires(Views()[i], songMs, hitWindowMs)
    {
      var opponentEvents;
      opponentEvents, spawned := SpawnAndPlay(songMs);
      ghost var spawnedViews := old(Views()) + SpawnedViews(chart, old(nextSpawnIdx), nextSpawnIdx);
      ghost var cursor := nextSpawnIdx;
      var missEvents := SettleNotes(songMs);
      assert nextSpawnIdx == cursor;
      events := opponentEvents + missEvents;
      UpdateSettles(spawnedViews, KeptViews(OpponentSweep(spawnedViews, songMs), songMs), songMs, hitWindowMs);
    }
  }

  /**
   * With the chart sorted, the spawn cursor's stopping condition means no
   * unspawned entry is due yet.
   */
  lemma SpawnFrontier(chart: seq<ChartEvent>, cursor: nat, horizon: real)
    requires SortedByTime(chart) && cursor <= |chart|
    requires cursor == |chart| || chart[cursor].strumTime > horizon
    ensures forall k :: cursor <= k < |chart| ==> chart[k].strumTime > horizon
  {
  }
}
