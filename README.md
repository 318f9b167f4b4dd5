# Rhythm-game timing and judgement core in Dafny

This project models the gameplay core of a scrolling-note rhythm game and proves properties of that model. It covers five components:

- **Chart parsing** (`chart.dfy`, module `Chart`). Raw per-section note tuples are normalised into chart entries: the lane is the raw lane modulo 4, shifted to the other actor's side depending on the section's must-hit flag, and the note type's settings are looked up with fallbacks. The entries are then sorted stably by strum time.
- **Note lifecycle and judgement** (`judgement.dfy`, module `Judgement`, and `notes.dfy`, module `Notes`).
  - `Judgement` holds the pure rules over a value snapshot (`NoteView`) of a note's fields: candidate selection, the ordered judgement-window table, opponent auto-play, miss detection and early release.
  - `Notes` holds the `Note` class, whose flags change in place, and the `NoteManager` class. `NoteManager` has the spawn cursor, key press and release handling, the opponent input pass, despawning and the miss pass. Its invariant includes that no note is both hit and missed and that no opponent note is missed, and every handler keeps it.
- **Song clock** (`song.dfy`, module `Song`).
  - The section timeline: contiguous `[start, end)` ranges with tempo changes.
  - The step and beat times.
  - The step and beat cursors of `update`, and "whose turn is it".
  - The play/stop/pause/resume flags of `SongManager`.
- **Score accumulator** (`score.dfy`, module `Score`). `ScoreManager` holds the counters, the per-label histogram and the accuracy percentage.
- **Receptor state machine** (`receptor.dfy`, module `Receptor`). Each lane's receptor shows idle, press or confirm, and a deferred idle waits until a press has been shown for at least 80 ms. `ReceptorManager` holds the eight receptors and translates between lane names and indices.
- **Event bus** (`bus.dfy`, module `Bus`). This is the publish/subscribe registry: `subscribe` appends, `unsubscribe` removes the first occurrence, and `publish` dispatches over a copy of the handler list.

`wrappers.dfy` holds the `Option` and `Result` types.

Modelling conventions:
- **Time.** All times are `real` milliseconds. The song position, the audio player's position and the receptor wall-clock reading (`time.time() * 1000`) are parameters. No clock is read.
- **Bus events.** Components return the bus events they would publish, in publish order, instead of calling the bus. Bus handlers are opaque identities. A handler's behaviour on invocation is given as a `Reaction`: whether it raises, and which subscribe/unsubscribe calls it makes while running.
- **Python errors.** Errors the Python code would raise become `None` or `Failure`:
  - `KeyError` in the lane name tables;
  - `ZeroDivisionError` for a zero tempo, and `IndexError`, when building the timelines;
  - `IndexError` of receptor list indexing, with Python's negative indices modelled.
- **Judgement windows.** The judgement-window table is a sequence of `(label, tolerance)` pairs in file order, because the code returns the first admitting entry in that order, not the tightest.

Behaviour of the code that the model keeps, although a reader might expect otherwise:
- A hit's label comes from the first window in the table's file order that admits the timing error, not from the window with the smallest admitting tolerance (`Judgement.TableOrderDecides`). Under windows sick 25, good 50, bad 100, shit 150, an error of 20 ms is "sick" and an error of 60 ms is "bad".
- There is no health value. `ScoreManager` in sources/game/score.py keeps the score, the good and total counts and the histogram only, so no health is modelled.
- A press on a penalty note adds to the total and the score, and it is also counted in the `"penalty"` histogram bucket.
- An unknown animation name is not ignored. `set_animation` stores it as the current animation and keeps the start time and the pending flag (`Receptor.SetAnim`).
- `_on_note_hold_lost` is defined but never subscribed to any event. It is modelled as a method that nothing calls.
- A song whose first section has `lengthInSteps` 0 makes `_build_time_timeline` evaluate `step_times[-0]` on an empty list, which raises `IndexError`. A tempo of 0 raises `ZeroDivisionError` in both builders. `Song.TimeTimelineFails` and `Song.SectionTimelineFails` state exactly when each builder fails.

## Model

| member | source | states |
|---|---|---|
| Bus.RemoveFirst | sources/utils/event_bus.py:15-21 | `list.remove` with the `ValueError` swallowed: the list is unchanged when the handler is absent, otherwise exactly the first occurrence is removed |
| Bus.SubscribeAppends | sources/utils/event_bus.py:11-13 | subscribing appends the handler to the end of that event's list and leaves every other event's list unchanged |
| Bus.UnsubscribeAbsent | sources/utils/event_bus.py:15-21 | unsubscribing a handler that is not registered, or from an event without an entry, leaves the registry unchanged |
| Bus.RemoveAppended | sources/utils/event_bus.py:15-21 | removing a handler that was appended last and occurs nowhere else gives back the original list |
| Bus.SubscribeThenUnsubscribe | sources/utils/event_bus.py:11-21 | subscribing a new handler and then unsubscribing it restores every event's list; the registry is identical when the event had an entry, otherwise an empty entry remains |
| Bus.ApplyAllConcat | sources/utils/event_bus.py:23-29 | the registry changes made by handlers during one dispatch compose in invocation order |
| Bus.EventBus.constructor | sources/utils/event_bus.py:7-9 | the registry starts empty |
| Bus.EventBus.Subscribe | sources/utils/event_bus.py:11-13 | the new registry is the old one with the handler appended to that event's list |
| Bus.EventBus.Unsubscribe | sources/utils/event_bus.py:15-21 | the new registry removes the first registration when the event has an entry, and is unchanged otherwise |
| Bus.EventBus.Publish | sources/utils/event_bus.py:23-29 | exactly the handlers registered when the call starts are invoked, in subscription order, even if handlers change the list; raising handlers are reported and do not stop later ones; an event with no entry invokes nothing and creates no entry |
| Chart.LaneOf | sources/game/note.py:202-203 | the lane lies in 0..7, agrees with the raw lane modulo 4, and is a controllable-actor lane exactly when the raw lane's half agrees with the section's must-hit flag |
| Chart.NormaliseDefaults | sources/game/note.py:204-208 | the type defaults to "default"; a type without settings of its own uses the "default" settings, and none when those are missing too; settings without the must-hit key give a must-hit note, without the penalty key a non-penalty note, and a present key decides the flag; strum time and sustain are copied |
| Chart.NormaliseSection | sources/game/note.py:201-216 | one chart entry per raw tuple of the section |
| Chart.NormalisedLength | sources/game/note.py:200-216 | normalising all sections gives one entry per raw note tuple |
| Chart.InsertPermutes | sources/game/note.py:217 | inserting into the sorted prefix adds exactly that entry |
| Chart.InsertKeepsSorted | sources/game/note.py:217 | inserting by strum time keeps a sorted list sorted |
| Chart.InsertStable | sources/game/note.py:217 | an inserted entry is placed after every entry with the same strum time |
| Chart.StableSortCorrect | sources/game/note.py:217 | the sort's result is ascending by strum time, a permutation of its input, and keeps the input order among equal strum times |
| Chart.ParseChart | sources/game/note.py:199-217 | `_parse_chart` yields the stable sort of the normalised entries: one entry per raw tuple, sorted, ties in chart order |
| Chart.SortedParse | sources/game/note.py:199-217 | the sorted normalised chart has one entry per raw tuple, is sorted, and keeps chart order among equal strum times |
| Judgement.MaxWindow | sources/game/note.py:178 | `hit_window_ms` is a tolerance in the table and no tolerance exceeds it |
| Judgement.FirstWindow | sources/game/note.py:231-234 | the first entry in table order whose tolerance admits the error: none exactly when no entry admits it, and no earlier entry admits it |
| Judgement.WithinHitWindowIsJudged | sources/game/note.py:229-234 | an error within `hit_window_ms` always receives a label |
| Judgement.TableOrderDecides | sources/game/note.py:231-234 | with sick 25, good 50, bad 100, shit 150: an error of 20 is "sick", 60 is "bad", 300 has no label; a table storing "good" before "sick" judges 20 as "good" |
| Judgement.EarliestCandidate | sources/game/note.py:220-227 | none exactly when no un-hit, un-missed note of the lane lies within the window; otherwise a candidate with the smallest strum time, the first such in list order |
| Judgement.HitKeepsConsistent | sources/game/note.py:227-228 | hitting a candidate leaves it hit and not missed, and clears no flag |
| Judgement.OpponentStep | sources/game/note.py:261-271 | a player note is untouched; an opponent note whose strum time has come presses once (hit, judgement "auto"), and releases once after the sustain; no flag is cleared and consistency is kept |
| Judgement.OpponentFiresOnce | sources/game/note.py:263-271 | over any sequence of ticks an opponent note fires its press at most once, never if already pressed, and likewise its release |
| Judgement.OpponentFiresInTime | sources/game/note.py:263-271 | a press fires only at or after the strum time, and a release only strictly after strum time plus sustain |
| Judgement.RunProgress | sources/game/note.py:255-272 | repeated auto-play never changes a note's chart data and never clears a flag |
| Judgement.MissStep | sources/game/note.py:342-345 | an un-hit, un-missed player note is marked missed and dimmed once the song is past strum time plus the hit window; otherwise nothing changes |
| Judgement.FirstEarlyRelease | sources/game/note.py:316-324 | the first note in list order that is a hit player note of the lane, not yet released early, whose sustain covers the time; none exactly when no note qualifies |
| Judgement.ReleasedEarlyOnce | sources/game/note.py:316-324 | a note flagged by one release is never selected by any later release |
| Judgement.ReleaseEarlyKeepsConsistent | sources/game/note.py:321-322 | an early release keeps the note consistent and clears no flag |
| Judgement.OpponentSweep | sources/game/note.py:260-272 | the auto-play pass keeps one snapshot per note |
| Judgement.MissSweep | sources/game/note.py:341-348 | the miss pass keeps one snapshot per note |
| Judgement.SpawnKeepsConsistent | sources/game/note.py:247-252 | a freshly spawned note keeps every note consistent (never both hit and missed) |
| Judgement.HitSweepKeepsConsistent | sources/game/note.py:219-236 | a key press keeps every note consistent |
| Judgement.ReleaseSweepKeepsConsistent | sources/game/note.py:309-324 | a key release keeps every note consistent |
| Judgement.SweepsKeepConsistent | sources/game/note.py:326-348 | auto-play and the miss pass keep every note consistent |
| Judgement.SubsetKeepsConsistent | sources/game/note.py:114-119 | removing notes keeps the remaining ones consistent |
| Judgement.UpdateSettles | sources/game/note.py:326-348 | after one update, no automatic press or release and no miss is still due at that song time |
| Notes.Note.constructor | sources/game/note.py:62-98 | a new note carries its chart entry's data, with all flags clear and an empty judgement |
| Notes.Note.MarkAsHit | sources/game/note.py:227-234 | the note becomes hit and receives the label, if any |
| Notes.Note.AutoPlay | sources/game/note.py:261-271 | the note's flags follow the opponent step, and the press and release events are published in that order |
| Notes.Note.CheckMiss | sources/game/note.py:342-348 | the note's flags follow the miss step; a miss event is published only for a must-hit note |
| Notes.Note.MarkReleasedEarly | sources/game/note.py:321-322 | the note is flagged released early and dimmed |
| Notes.DespawnIsPermanent | sources/game/note.py:104-108 | once a note is due for removal it stays due at every later song time |
| Notes.DespawnAfterSustain | sources/game/note.py:104-108 | a note due for removal is past its sustain, so no release can still affect it |
| Notes.SurvivingMembers | sources/game/note.py:104-119 | the notes kept are exactly those not due for removal, and distinct notes stay distinct |
| Notes.SurvivingConcat | sources/game/note.py:114-119 | despawning splits over a concatenation, so the survivors keep their list order |
| Notes.KeptViews | sources/game/note.py:104-119 | every kept snapshot is one of the input snapshots and is not due for removal |
| Notes.SurvivingViews | sources/game/note.py:104-119 | the surviving notes' snapshots are the kept snapshots of the list, in order |
| Notes.DespawnIdempotent | sources/game/note.py:114-119 | removing due notes a second time at the same song time removes nothing more |
| Notes.AutoPlayAll | sources/game/note.py:260-272 | the loop applies the opponent step to every note and publishes their events in list order |
| Notes.CheckMissAll | sources/game/note.py:341-348 | the loop applies the miss step to every note and publishes their miss events in list order |
| Notes.NoteManager.constructor | sources/game/note.py:161-178 | the chart is the parsed, sorted chart; the spawn cursor is 0 and no note is on screen; the judgement table must be non-empty because `max` of an empty table raises |
| Notes.NoteManager.JudgeDiff | sources/game/note.py:231-234 | the label of the first window, in table order, that admits the error |
| Notes.NoteManager.ProcessHit | sources/game/note.py:219-236 | none exactly when no candidate exists; otherwise the earliest candidate is hit and labelled by the table, and every other note is unchanged |
| Notes.NoteManager.OnKeyPress | sources/game/note.py:302-307 | judges the press and publishes `player_pressed` carrying the hit note or none |
| Notes.NoteManager.SpawnNotes | sources/game/note.py:238-253 | the cursor never decreases; each chart entry is spawned at most once, in chart order; on return the cursor is at the end or the next entry is beyond the spawn lead; the snapshots are the old ones followed by the spawned entries' snapshots |
| Notes.SpawnedViews | sources/game/note.py:245-252 | one fresh, unflagged snapshot per chart entry passed by the cursor, in chart order |
| Notes.NoteManager.OpponentInput | sources/game/note.py:255-272 | every note's flags follow the opponent step, with events in list order |
| Notes.NoteManager.OnKeyRelease | sources/game/note.py:309-324 | always publishes `player_released`; flags at most one note, the first that an early release selects, and publishes a miss for it |
| Notes.NoteManager.Despawn | sources/game/note.py:114-119 | the notes kept are exactly the surviving ones, none of them due for removal, and their snapshots are the kept snapshots; the invariant is kept |
| Notes.NoteManager.MissPass | sources/game/note.py:338-348 | every note's flags follow the miss step, and must-hit misses are published in list order |
| Notes.NoteManager.SpawnAndPlay | sources/game/note.py:326-331 | the note list after spawning is the old list followed by fresh notes for the entries passed by the cursor; their snapshots are the opponent step of the spawned snapshots, with the opponent events in list order |
| Notes.NoteManager.SettleNotes | sources/game/note.py:333-348 | the notes become the survivors, and their snapshots the miss step of the kept snapshots, with must-hit misses in list order |
| Notes.NoteManager.Update | sources/game/note.py:326-348 | spawn, auto-play, despawn and the miss pass at one song time: the cursor never decreases and every due entry is spawned; the notes are the survivors of the spawned list; their snapshots are the miss step of the kept opponent-stepped snapshots; the events are the opponent events followed by the miss events; no note due for removal remains, and no auto-play or miss is still due; the invariant, including consistency of every note, is kept |
| Notes.SpawnFrontier | sources/game/note.py:241-244 | on a sorted chart, the cursor's stopping condition means no unspawned entry is due |
| Song.SectionTimelineFails | sources/game/song.py:119-124 | the section builder fails exactly when some section's effective tempo is 0, and then with `ZeroDivisionError` |
| Song.SectionTimelineShape | sources/game/song.py:112-135 | one range per section; the first starts at 0, each starts where the previous ends, each lasts `lengthInSteps` (default 16) times a quarter of 60000/bpm, the bpm changes only on sections flagged `changeBPM`, and the must-hit flag is copied |
| Song.ShapedSnoc | sources/game/song.py:119-133 | appending the next section's range keeps the timeline contiguous and correctly sized |
| Song.StepRun | sources/game/song.py:154-156 | a run of n step times spaced by the step length |
| Song.StepRunSnoc | sources/game/song.py:154-156 | extending a run by one step appends the next time |
| Song.TimelineCounts | sources/game/song.py:146-162 | `step_times` has the sum of `lengthInSteps` entries and `beat_times` the sum of `lengthInSteps // 4` |
| Song.TimeTimelineFails | sources/game/song.py:146-159 | the time builder fails exactly when some effective tempo is 0, or the first section has no steps; with non-zero tempos the failure is `IndexError` |
| Song.StepsStartAtZero | sources/game/song.py:144-156 | the first step time is 0 |
| Song.RunOrdered | sources/game/song.py:154-156 | a run with a positive step length is strictly ascending and starts at its start time |
| Song.StepsAscending | sources/game/song.py:137-164 | with positive tempos the step times are strictly ascending |
| Song.AddSectionBeatsOnSteps | sources/game/song.py:158-162 | in exact real arithmetic, a section's beats start at its first step time, spaced one beat apart, each on one of its step times (float rounding is under Left out) |
| Song.SectionBeatsOnSteps | sources/game/song.py:158-162 | in exact real arithmetic, every beat time of a section is one of its step times: beat k is step 4k (float rounding is under Left out) |
| Song.BeatsOnSteps | sources/game/song.py:137-164 | in exact real arithmetic, every beat time is a step time (float rounding is under Left out) |
| Song.TimesPrefix | sources/game/song.py:146-162 | building over more sections only appends to the step and beat times built over fewer |
| Song.SectionsPrefix | sources/game/song.py:119-133 | building over more sections only appends to the ranges built over fewer |
| Song.SectionsCount | sources/game/song.py:119-133 | one range per section |
| Song.LastSectionBeats | sources/game/song.py:151-162 | the beats appended for a section with steps start at its first step time and lie `60000/bpm` apart, `lengthInSteps // 4` of them |
| Song.SectionBeatsSpaced | sources/game/song.py:137-164 | in the finished timeline, the beats of every section with steps start at that section's first step time and lie one beat of its tempo apart |
| Song.TimelinesAgree | sources/game/song.py:112-164 | in exact real arithmetic, both builders end with the same running time (float rounding is under Left out) |
| Song.SectionStartsOnStep | sources/game/song.py:112-164 | in exact real arithmetic, a section with steps starts exactly at its first step time, so the two timelines agree (float rounding is under Left out) |
| Song.PlayerTurnFirstMatch | sources/game/song.py:31-37 | the result is the flag of the first section with start ≤ t < end |
| Song.PlayerTurnOutside | sources/game/song.py:31-37 | the result is false when no section contains t |
| Song.PlayerTurnOfContaining | sources/game/song.py:31-37 | on a contiguous timeline, the result is the flag of the section containing t |
| Song.LastCrossed | sources/game/song.py:45-50 | the cursor is at least the old one; every time it passes is at most t; the next time, if any, exceeds t |
| Song.CursorReachesLast | sources/game/song.py:45-57 | on ascending times, index k is passed exactly when its time is at most t |
| Song.AdvanceCursor | sources/game/song.py:45-50 | the loop moves the cursor to the last crossed index and passes the indices old+1 through new, in order, none skipped |
| Song.SongManager.constructor | sources/game/song.py:6-23 | stopped, no player, both cursors at -1, over the given timelines |
| Song.SongManager.SongMs | sources/game/song.py:25-29 | 0 without a player, otherwise the player's time in ms |
| Song.SongManager.IsPlayerTurn | sources/game/song.py:31-37 | the turn of the first section containing the song position |
| Song.SongManager.Update | sources/game/song.py:39-57 | nothing when not playing; otherwise both cursors move to the last crossed index, and the step events and then the beat events are published for every index passed, in order, none skipped |
| Song.SongManager.Play | sources/game/song.py:59-69 | a no-op while playing; otherwise playing, not paused, with both cursors reset to -1 |
| Song.SongManager.Stop | sources/game/song.py:71-83 | no player, not playing, not paused, both cursors reset to -1 |
| Song.SongManager.Pause | sources/game/song.py:85-93 | a no-op unless playing and not paused; then paused, with the song position recorded |
| Song.SongManager.Resume | sources/game/song.py:95-110 | a no-op unless paused; then playing and not paused, cursors and pause time kept |
| Song.BuildSectionTimeline | sources/game/song.py:112-135 | the loop with a running time and tempo builds the section timeline, or fails with `ZeroDivisionError` |
| Song.BuildTimeTimeline | sources/game/song.py:137-164 | the loop builds the step and beat times, or fails with the builder's error |
| Song.AddSection | sources/game/song.py:148-162 | one section's steps and beats are appended as specified, or the section's error is returned |
| Song.AppendSteps | sources/game/song.py:154-156 | the step loop appends the run of step times and advances the running time by n steps |
| Song.AppendBeats | sources/game/song.py:161-162 | the beat loop appends the run of beat times from the section's first step |
| Song.NewSongManager | sources/game/song.py:6-23 | the manager is built over both timelines, or construction fails with the builders' error |
| Score.Bump | sources/game/score.py:30 | `hit_counts[label] += 1` on the default dict: that label's count rises by one and no other count changes |
| Score.SumRemove | sources/game/score.py:14 | the histogram total does not depend on the order in which labels are summed |
| Score.SumAgree | sources/game/score.py:14 | histograms that agree on their labels have equal totals |
| Score.BumpTally | sources/game/score.py:30 | counting a note in any bucket raises the histogram total by one |
| Score.AccuracyBounds | sources/game/score.py:59 | with good hits at most the total, accuracy lies in [0, 100], and is 100 exactly when every counted note is a good hit |
| Score.ScoreManager.constructor | sources/game/score.py:8-14 | score, counters and histogram start at zero and empty |
| Score.ScoreManager.Snapshot | sources/game/score.py:58-60 | the published score and histogram are the current ones; accuracy is 0 before any note and lies in [0, 100] |
| Score.ScoreManager.PlayerPressed | sources/game/score.py:23-41 | no note, or a note neither penalty nor must-hit: nothing changes and nothing is published; a penalty note: total and the "penalty" bucket +1, score plus `bad_note_hit` (default -100), good hits unchanged; a must-hit note: total, good hits and its judgement's bucket +1, score plus that judgement's points (default 0); every counted note keeps the histogram total equal to the note total |
| Score.ScoreManager.PlayerNoteMiss | sources/game/score.py:43-49 | only a must-hit miss counts: total and the "miss" bucket +1, score plus `miss` (default 0), good hits unchanged |
| Score.ScoreManager.OnNoteHoldLost | sources/game/score.py:51-56 | total and the "hold_break" bucket +1, score plus `hold_break`, else `bad_note_hit`, else -100 |
| Score.ScoreManager.Reset | sources/game/score.py:62-67 | score, good hits, total and histogram are zeroed and the zero state is published |
| Receptor.IndexToName | sources/game/receptor.py:38-49 | a name exactly for indices 0..7; any other index is a `KeyError` |
| Receptor.NameToIndex | sources/game/receptor.py:50-61 | a known name maps into 0..7; any other name is a `KeyError` |
| Receptor.LaneNamesBijection | sources/game/receptor.py:38-61 | the two tables are inverse bijections between 0..7 and the eight lane names |
| Receptor.LaneNameParts | sources/game/receptor.py:18-21 | the name built from role and direction maps to lane 4·role + direction, so receptors are placed in lane order |
| Receptor.PyIndex | sources/game/receptor.py:63-70 | Python list indexing of the eight receptors: valid for -8..7, negative indices counting from the end, otherwise `IndexError` |
| Receptor.SetAnim | sources/game/receptor.py:105-113 | the animation becomes the name; "idle" gives the idle state with no start time and nothing pending |
| Receptor.RequestIdleOf | sources/game/receptor.py:115-119 | during a press or confirm only the pending flag is set, otherwise the receptor goes idle at once |
| Receptor.IdleTransition | sources/game/receptor.py:121-125 | goes idle exactly when an idle is pending, a start time is recorded and at least 80 ms have passed; otherwise nothing changes |
| Receptor.ConsistentPreserved | sources/game/receptor.py:105-125 | with only idle, press and confirm in use, a start time is recorded exactly during a press or confirm, and a pending idle only then; all three handlers keep this |
| Receptor.ShownUntilMinimum | sources/game/receptor.py:115-125 | a press started at t0 keeps its animation and start time through any releases and updates before t0 + 80 |
| Receptor.HeldAtLeastMinimum | sources/game/receptor.py:105-125 | after a press or confirm at t0, no sequence of releases and updates before t0 + 80 makes the receptor idle |
| Receptor.ReleasedThenIdle | sources/game/receptor.py:115-125 | a release followed by an update at or after t0 + 80 returns the receptor to idle |
| Receptor.Receptor.constructor | sources/game/receptor.py:93-100 | a receptor starts idle, with no start time and nothing pending |
| Receptor.Receptor.SetAnimation | sources/game/receptor.py:105-113 | the fields follow `SetAnim` at the given clock reading |
| Receptor.Receptor.RequestIdle | sources/game/receptor.py:115-119 | the fields follow `RequestIdleOf` |
| Receptor.Receptor.UpdateIdleTransition | sources/game/receptor.py:121-125 | the fields follow `IdleTransition` at the given clock reading |
| Receptor.ReceptorManager.constructor | sources/game/receptor.py:17-25 | eight distinct idle receptors, the one at position i serving lane i |
| Receptor.ReceptorManager.NotePressed | sources/game/receptor.py:63-67 | the lane's receptor shows "press" for an empty press and "confirm" for a hit; the others are unchanged; a bad index is an `IndexError` that changes nothing |
| Receptor.ReceptorManager.NoteReleased | sources/game/receptor.py:69-70 | only the lane's receptor is asked to go idle; a bad index changes nothing |
| Receptor.ReceptorManager.Update | sources/game/receptor.py:72-79 | every receptor takes its idle transition at the clock reading |

## Left out

- Rendering and geometry are not modelled: note positions, hold segments and their count, sustain drawing and scissor bounds, receptor animation keyframes (`update_from_song_time`, `_update_texture`), alpha values and `draw` methods. `set_visual_miss` is modelled only as the `dimmed` flag.
- Asset and configuration I/O are not modelled, because they are file reads. The note-type settings, the judgement-window table and the score configuration are parameters.
- Audio playback is not modelled. The player's position (`inst_player.time`) is a parameter, and playing or stopping a sound is the `hasPlayer` flag. Resuming from the recorded pause time is not modelled, because it is audio.
- The bus wiring of each component (which handler is subscribed to which event) is not modelled. Components return the events they would publish.
- Score.ScoreManager.Snapshot: accuracy is exact real arithmetic, without Python float rounding.
- Song.AddSectionBeatsOnSteps: holds in exact real arithmetic only. The source accumulates step times one `step_ms` addition at a time (sources/game/song.py:156) but computes beat times as `beat_start_time + i * beat_ms` (song.py:162), so in doubles a beat time can differ from the step time it should equal by rounding, for example at 130 bpm.
- Song.SectionBeatsOnSteps: holds in exact real arithmetic only; "beat k is step 4k" can fail by rounding in the source's doubles, for the reason given for `Song.AddSectionBeatsOnSteps`.
- Song.BeatsOnSteps: holds in exact real arithmetic only; in the source's doubles a beat time need not occur among the step times, for the reason given for `Song.AddSectionBeatsOnSteps`.
- Song.TimelinesAgree: holds in exact real arithmetic only. The section builder adds `lengthInSteps * step_ms` once per section (song.py:133), and the time builder adds `step_ms` once per step (song.py:156), so their running times can differ by rounding.
- Song.SectionStartsOnStep: holds in exact real arithmetic only; a section's start and its first step time come from the two builders' differently rounded sums, as for `Song.TimelinesAgree`.
- Notes.NoteManager.Update: all four passes use one song position. The source reads `song_ms` separately in `_spawn_notes` (note.py:243), in `should_despawn` once per note (note.py:108), in `_opponent_input` (note.py:259) and in the miss pass (note.py:340).
- Notes.NoteManager.Despawn: removes every due note in one pass. This assumes that arcade's `SpriteList.update` visits every sprite even though `Note.update` removes the current note from the list being iterated (note.py:117); the arcade library is not part of this model.
- Notes.NoteManager.SpawnNotes: the source also looks up `self._note_settings[note_type]` and the note assets without a fallback (note.py:247-251), which raises `KeyError` for a type without its own settings or assets. The model assumes they exist.
- Song.StepsAscending: proved only for positive tempos. A negative tempo gives a descending timeline in the source as well.
- Chart.ParseChart: `lengthInSteps` and the lane are taken as a natural number and an integer. Malformed chart values (strings, missing keys other than the optional ones, short tuples) are not modelled.
- Receptor.ReceptorManager.Update: one clock reading is used for all eight receptors. The source reads the clock once per receptor.
- Receptor.ReceptorManager.Update: `Receptor.update(delta_time)` and `update_from_song_time`, which `update` also calls, are animation playback and are not modelled.
- `on_hide_view` is not modelled. It unsubscribes the handlers, which is `Bus.EventBus.Unsubscribe`.
- Reading `hit_counts` inside `ScoreManager.draw` inserts zero entries into the default dict. This is not modelled, because it belongs to rendering; zero entries would not change the histogram total.
- Python's float formatting of published values, `print` of bus handler errors, and the exception objects are not modelled. A raising handler is only reported as failed.
