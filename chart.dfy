/**
 * The chart model of sources/game/note.py: raw per-section note tuples are
 * normalised into a list of chart events sorted by strum time
 * (`NoteManager._parse_chart`).
 */
module Chart {
  import opened Wrappers

  /** One `[strumTime, rawLane, sustainLength, noteType?]` tuple of a section. */
  datatype RawNote = RawNote(strumTime: real, rawLane: int, sustainLength: real, noteType: Option<string>)

  /** One entry of the chart's `notes` list. Absent optional keys are `None`. */
  datatype ChartSection = ChartSection(
    mustHitSection: bool,
    changeBpm: bool,
    bpm: Option<real>,
    lengthInSteps: Option<nat>,
    sectionNotes: seq<RawNote>)

  /** The song document: base tempo and the list of sections. */
  datatype SongChart = SongChart(bpm: real, sections: seq<ChartSection>)

  /** The boolean keys of one note type's settings file. */
  type TypeSettings = map<string, bool>

  /** One normalised chart entry. */
  datatype ChartEvent = ChartEvent(
    directionIndex: int,
    strumTime: real,
    sustainLength: real,
    noteType: string,
    mustHitNote: bool,
    penaltyNote: bool)

  const DEFAULT_TYPE: string := "default"
  const MUST_HIT_KEY: string := "must_hit_note"
  /** The penalty key, spelled as the note settings files spell it. */
  const PENALTY_KEY: string := "penaly_note"

  /**
   * Lane of a raw note: `rawLane % 4` plus a side of 0 (controllable actor)
   * or 4 (other actor). The side is 0 exactly when the raw lane's high half
   * agrees with the section's must-hit flag.
   */
  function LaneOf(rawLane: int, mustHitSection: bool): (lane: int)
    ensures 0 <= lane < 8
    ensures lane % 4 == rawLane % 4
    ensures lane < 4 <==> ((rawLane < 4) == mustHitSection)
  {
    var side := if mustHitSection then (if rawLane < 4 then 0 else 4) else (if rawLane < 4 then 4 else 0);
    rawLane % 4 + side
  }

  /** The settings of a type, falling back to those of "default", then to none at all. */
  function SettingsFor(settings: map<string, TypeSettings>, noteType: string): TypeSettings {
    if noteType in settings then settings[noteType]
    else if DEFAULT_TYPE in settings then settings[DEFAULT_TYPE]
    else map[]
  }

  /** `dict.get(key, default)` on a settings table. */
  function Flag(s: TypeSettings, key: string, default: bool): bool {
    if key in s then s[key] else default
  }

  /** The chart entry built from one raw note of a section. */
  function Normalise(raw: RawNote, mustHitSection: bool, settings: map<string, TypeSettings>): ChartEvent {
    var noteType := raw.noteType.GetOr(DEFAULT_TYPE);
    var typeSettings := SettingsFor(settings, noteType);
    ChartEvent(
      LaneOf(raw.rawLane, mustHitSection),
      raw.strumTime,
      raw.sustainLength,
      noteType,
      Flag(typeSettings, MUST_HIT_KEY, true),
      Flag(typeSettings, PENALTY_KEY, false))
  }

  /**
   * Defaults of a normalised entry: the type is "default" when the tuple has
   * no fourth element; a type without settings of its own uses the "default"
   * settings, and none at all when those are missing too; a settings table
   * without the must-hit key makes a must-hit note, one without the penalty
   * key a non-penalty note, and a key that is present decides the flag.
   */
  lemma NormaliseDefaults(raw: RawNote, mustHitSection: bool, settings: map<string, TypeSettings>)
    ensures raw.noteType.None? ==> Normalise(raw, mustHitSection, settings).noteType == DEFAULT_TYPE
    ensures raw.noteType.Some? ==> Normalise(raw, mustHitSection, settings).noteType == raw.noteType.value
    ensures var t := raw.noteType.GetOr(DEFAULT_TYPE);
            var s := SettingsFor(settings, t);
            && (t in settings ==> s == settings[t])
            && (t !in settings && DEFAULT_TYPE in settings ==> s == settings[DEFAULT_TYPE])
            && (t !in settings && DEFAULT_TYPE !in settings ==> s == map[])
    ensures var s := SettingsFor(settings, raw.noteType.GetOr(DEFAULT_TYPE));
            var e := Normalise(raw, mustHitSection, settings);
            && (MUST_HIT_KEY !in s ==> e.mustHitNote)
            && (MUST_HIT_KEY in s ==> e.mustHitNote == s[MUST_HIT_KEY])
            && (PENALTY_KEY !in s ==> !e.penaltyNote)
            && (PENALTY_KEY in s ==> e.penaltyNote == s[PENALTY_KEY])
    ensures var e := Normalise(raw, mustHitSection, settings);
            e.strumTime == raw.strumTime && e.sustainLength == raw.sustainLength && 0 <= e.directionIndex < 8
  {
  }

  /** The entries of one section, in tuple order. */
  function NormaliseSection(section: ChartSection, settings: map<string, TypeSettings>): (r: seq<ChartEvent>)
    ensures |r| == |section.sectionNotes|
  {
    seq(|section.sectionNotes|, k requires 0 <= k < |section.sectionNotes| =>
      Normalise(section.sectionNotes[k], section.mustHitSection, settings))
  }

  /** The entries of all sections in chart order, before sorting. */
  function Normalised(sections: seq<ChartSection>, settings: map<string, TypeSettings>): seq<ChartEvent> {
    if sections == [] then []
    else Normalised(sections[..|sections| - 1], settings) + NormaliseSection(sections[|sections| - 1], settings)
  }

  /** Number of raw note tuples in the sections. */
  function NoteCount(sections: seq<ChartSection>): nat {
    if sections == [] then 0
    else NoteCount(sections[..|sections| - 1]) + |sections[|sections| - 1].sectionNotes|
  }

  /** Normalising yields exactly one entry per raw note tuple. */
  lemma {:induction false} NormalisedLength(sections: seq<ChartSection>, settings: map<string, TypeSettings>)
    ensures |Normalised(sections, settings)| == NoteCount(sections)
  {
    if sections != [] {
      NormalisedLength(sections[..|sections| - 1], settings);
    }
  }

  /** Ascending strum times. */
  ghost predicate SortedByTime(s: seq<ChartEvent>) {
    forall i, j :: 0 <= i < j < |s| ==> s[i].strumTime <= s[j].strumTime
  }

  /** The entries with strum time `t`, in the order they occur in `s`. */
  function WithTime(s: seq<ChartEvent>, t: real): seq<ChartEvent> {
    if s == [] then []
    else WithTime(s[..|s| - 1], t) + (if s[|s| - 1].strumTime == t then [s[|s| - 1]] else [])
  }

  /** Insert `x` after every entry whose strum time is at most its own. */
  function InsertByTime(t: seq<ChartEvent>, x: ChartEvent): seq<ChartEvent> {
    if t == [] || t[|t| - 1].strumTime <= x.strumTime then t + [x]
    else InsertByTime(t[..|t| - 1], x) + [t[|t| - 1]]
  }

  /**
   * `list.sort(key=strum_time)`: a stable sort by strum time, written as an
   * insertion sort that inserts each later entry after the equal ones.
   */
  function StableSort(s: seq<ChartEvent>): seq<ChartEvent> {
    if s == [] then [] else InsertByTime(StableSort(s[..|s| - 1]), s[|s| - 1])
  }

  lemma {:induction false} InsertPermutes(t: seq<ChartEvent>, x: ChartEvent)
    ensures multiset(InsertByTime(t, x)) == multiset(t) + multiset{x}
    decreases |t|
  {
    if t == [] || t[|t| - 1].strumTime <= x.strumTime {
    } else {
      var t' := t[..|t| - 1];
      InsertPermutes(t', x);
      assert t == t' + [t[|t| - 1]];
    }
  }

  lemma {:induction false} InsertKeepsSorted(t: seq<ChartEvent>, x: ChartEvent)
    requires SortedByTime(t)
    ensures SortedByTime(InsertByTime(t, x))
    decreases |t|
  {
    if t == [] || t[|t| - 1].strumTime <= x.strumTime {
    } else {
      var t', y := t[..|t| - 1], t[|t| - 1];
      InsertKeepsSorted(t', x);
      InsertPermutes(t', x);
      var u := InsertByTime(t', x);
      forall i | 0 <= i < |u|
        ensures u[i].strumTime <= y.strumTime
      {
        assert u[i] in multiset(u);
        assert u[i] in multiset(t') || u[i] == x;
      }
    }
  }

  lemma {:induction false} WithTimeConcat(a: seq<ChartEvent>, b: seq<ChartEvent>, v: real)
    ensures WithTime(a + b, v) == WithTime(a, v) + WithTime(b, v)
    decreases |b|
  {
    if b == [] {
      assert a + b == a;
    } else {
      var b' := b[..|b| - 1];
      assert (a + b)[..|a + b| - 1] == a + b';
      WithTimeConcat(a, b', v);
    }
  }

  /** Inserting `x` puts it after every earlier entry with the same strum time. */
  lemma {:induction false} InsertStable(t: seq<ChartEvent>, x: ChartEvent, v: real)
    ensures WithTime(InsertByTime(t, x), v) == WithTime(t, v) + (if x.strumTime == v then [x] else [])
    decreases |t|
  {
    if t == [] || t[|t| - 1].strumTime <= x.strumTime {
      WithTimeConcat(t, [x], v);
      WithTimeSingle(x, v);
    } else {
      var t', y := t[..|t| - 1], t[|t| - 1];
      var u := InsertByTime(t', x);
      var xs: seq<ChartEvent> := if x.strumTime == v then [x] else [];
      var ys: seq<ChartEvent> := if y.strumTime == v then [y] else [];
      calc {
        WithTime(InsertByTime(t, x), v);
        == { assert InsertByTime(t, x) == u + [y]; }
        WithTime(u + [y], v);
        == { WithTimeConcat(u, [y], v); WithTimeSingle(y, v); }
        WithTime(u, v) + ys;
        == { InsertStable(t', x, v); }
        WithTime(t', v) + xs + ys;
        == { assert xs == [] || ys == []; } // y's strum time is larger than x's
        WithTime(t', v) + ys + xs;
        == { assert WithTime(t, v) == WithTime(t', v) + ys; }
        WithTime(t, v) + xs;
      }
    }
  }

  lemma WithTimeSingle(x: ChartEvent, v: real)
    ensures WithTime([x], v) == if x.strumTime == v then [x] else []
  {
    assert [x][..0] == [];
  }

  /** The sort result is ascending by strum time. */
  lemma {:induction false} StableSortSorted(s: seq<ChartEvent>)
    ensures SortedByTime(StableSort(s))
  {
    if s != [] {
      StableSortSorted(s[..|s| - 1]);
      InsertKeepsSorted(StableSort(s[..|s| - 1]), s[|s| - 1]);
    }
  }

  /** The sort result is a permutation of the input. */
  lemma {:induction false} StableSortPermutes(s: seq<ChartEvent>)
    ensures multiset(StableSort(s)) == multiset(s)
  {
    if s != [] {
      var s', x := s[..|s| - 1], s[|s| - 1];
      StableSortPermutes(s');
      InsertPermutes(StableSort(s'), x);
      MultisetSnoc(s);
    }
  }

  /** Dropping the last element of a sequence takes it out of the multiset. */
  lemma MultisetSnoc<T>(s: seq<T>)
    requires s != []
    ensures multiset(s) == multiset(s[..|s| - 1]) + multiset{s[|s| - 1]}
  {
    assert s == s[..|s| - 1] + [s[|s| - 1]];
  }

  /** Entries with strum time `v` keep their input order. */
  lemma {:induction false} StableSortStable(s: seq<ChartEvent>, v: real)
    ensures WithTime(StableSort(s), v) == WithTime(s, v)
  {
    if s != [] {
      StableSortStable(s[..|s| - 1], v);
      InsertStable(StableSort(s[..|s| - 1]), s[|s| - 1], v);
    }
  }

  /**
   * The sort is correct and stable: the result is ascending by strum time, a
   * permutation of the input, and entries with equal strum times keep their
   * input order.
   */
  lemma StableSortCorrect(s: seq<ChartEvent>, v: real)
    ensures SortedByTime(StableSort(s))
    ensures multiset(StableSort(s)) == multiset(s)
    ensures WithTime(StableSort(s), v) == WithTime(s, v)
  {
    StableSortSorted(s);
    StableSortPermutes(s);
    StableSortStable(s, v);
  }

  /** `_parse_chart`: append one entry per raw note in chart order, then sort by strum time. */
  method ParseChart(song: SongChart, settings: map<string, TypeSettings>) returns (chart: seq<ChartEvent>)
    ensures chart == StableSort(Normalised(song.sections, settings))
    ensures |chart| == NoteCount(song.sections)
    ensures SortedByTime(chart)
    ensures forall v :: WithTime(chart, v) == WithTime(Normalised(song.sections, settings), v)
  {
    var appended: seq<ChartEvent> := [];
    for i := 0 to |song.sections|
      invariant appended == Normalised(song.sections[..i], settings)
    {
      var section := song.sections[i];
      ghost var entries := NormaliseSection(section, settings);
      for j := 0 to |section.sectionNotes|
        invariant appended == Normalised(song.sections[..i], settings) + entries[..j]
      {
        var raw := section.sectionNotes[j];
        var noteType := if raw.noteType.Some? then raw.noteType.value else DEFAULT_TYPE;
        var typeSettings := SettingsFor(settings, noteType);
        var entry := ChartEvent(
          LaneOf(raw.rawLane, section.mustHitSection), raw.strumTime, raw.sustainLength, noteType,
          Flag(typeSettings, MUST_HIT_KEY, true), Flag(typeSettings, PENALTY_KEY, false));
        assert entry == entries[j];
        assert entries[..j + 1] == entries[..j] + [entry];
        appended := appended + [entry];
      }
      assert song.sections[..i + 1][..i] == song.sections[..i];
      assert entries[..|section.sectionNotes|] == entries;
    }
    assert song.sections[..|song.sections|] == song.sections;
    chart := StableSort(appended);
    SortedParse(appended, song.sections, settings);
  }

  lemma SortedParse(appended: seq<ChartEvent>, sections: seq<ChartSection>, settings: map<string, TypeSettings>)
    requires appended == Normalised(sections, settings)
    ensures |StableSort(appended)| == NoteCount(sections)
    ensures SortedByTime(StableSort(appended))
    ensures forall v :: WithTime(StableSort(appended), v) == WithTime(appended, v)
  {
    NormalisedLength(sections, settings);
    StableSortCorrect(appended, 0.0);
    assert |StableSort(appended)| == |appended| by {
      assert |multiset(StableSort(appended))| == |multiset(appended)|;
    }
    forall v ensures WithTime(StableSort(appended), v) == WithTime(appended, v) {
      StableSortCorrect(appended, v);
    }
  }
}
