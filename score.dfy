/**
 * The score accumulator of sources/game/score.py: counters updated by the
 * press, miss and hold-break handlers, the accuracy percentage, and the
 * per-judgement histogram (`hit_counts`, a `defaultdict(int)`). What
 * `_publish_update` would publish on the bus is returned.
 */
module Score {
  import opened Wrappers
  import opened Judgement

  /** The score configuration: key to points. */
  type ScoreConfig = map<string, int>

  /** `hit_counts`: bucket to count; an absent bucket counts 0. */
  type Histogram = map<string, nat>

  const PENALTY_BUCKET: string := "penalty"
  const MISS_BUCKET: string := "miss"
  const HOLD_BREAK_BUCKET: string := "hold_break"
  const BAD_NOTE_HIT_KEY: string := "bad_note_hit"
  const MISS_KEY: string := "miss"
  const HOLD_BREAK_KEY: string := "hold_break"
  const DEFAULT_BAD_NOTE_HIT: int := -100

  /** `config.get(key, default)`. */
  function Points(config: ScoreConfig, key: string, default: int): int {
    if key in config then config[key] else default
  }

  /** `hit_counts[bucket]` of the default dict. */
  function Count(h: Histogram, bucket: string): nat {
    if bucket in h then h[bucket] else 0
  }

  /** `hit_counts[bucket] += 1`. */
  function Bump(h: Histogram, bucket: string): (r: Histogram)
    ensures Count(r, bucket) == Count(h, bucket) + 1
    ensures forall other :: other != bucket ==> Count(r, other) == Count(h, other)
    ensures r.Keys == h.Keys + {bucket}
  {
    h[bucket := Count(h, bucket) + 1]
  }

  /** The sum of the counts of the labels `keys`. */
  ghost function SumOver(h: Histogram, keys: set<string>): nat
    requires keys <= h.Keys
    decreases keys
  {
    if keys == {} then 0
    else
      var k :| k in keys;
      h[k] + SumOver(h, keys - {k})
  }

  /** The number of notes the histogram records. */
  ghost function Tally(h: Histogram): nat {
    SumOver(h, h.Keys)
  }

  /** The sum does not depend on which bucket is taken out first. */
  lemma {:induction false} SumRemove(h: Histogram, keys: set<string>, x: string)
    requires keys <= h.Keys && x in keys
    ensures SumOver(h, keys) == h[x] + SumOver(h, keys - {x})
    decreases keys
  {
    var k :| k in keys && SumOver(h, keys) == h[k] + SumOver(h, keys - {k});
    if k != x {
      SumRemove(h, keys - {k}, x);
      SumRemove(h, keys - {x}, k);
      assert keys - {k} - {x} == keys - {x} - {k};
    }
  }

  /** Two histograms that agree on `keys` have the same sum over them. */
  lemma {:induction false} SumAgree(h: Histogram, g: Histogram, keys: set<string>)
    requires keys <= h.Keys && keys <= g.Keys
    requires forall k :: k in keys ==> h[k] == g[k]
    ensures SumOver(h, keys) == SumOver(g, keys)
    decreases keys
  {
    if keys != {} {
      var k :| k in keys && SumOver(h, keys) == h[k] + SumOver(h, keys - {k});
      SumRemove(g, keys, k);
      SumAgree(h, g, keys - {k});
    }
  }

  /** Counting one more note in any bucket raises the tally by one. */
  lemma BumpTally(h: Histogram, bucket: string)
    ensures Tally(Bump(h, bucket)) == Tally(h) + 1
  {
    var r := Bump(h, bucket);
    var rest := h.Keys - {bucket};
    SumRemove(r, r.Keys, bucket);
    assert r.Keys - {bucket} == rest;
    SumAgree(r, h, rest);
    if bucket in h {
      SumRemove(h, h.Keys, bucket);
    } else {
      assert h.Keys == rest;
    }
  }

  lemma EmptyTally()
    ensures Tally(map[]) == 0
  {
  }

  /** `_publish_update`'s accuracy: good hits as a percentage of counted notes, 0 before any. */
  function Accuracy(goodHits: nat, totalNotes: nat): real {
    if totalNotes > 0 then (goodHits as real / totalNotes as real) * 100.0 else 0.0
  }

  /** With no more good hits than counted notes the accuracy is a percentage, 100 exactly when all are good. */
  lemma AccuracyBounds(goodHits: nat, totalNotes: nat)
    requires goodHits <= totalNotes
    ensures 0.0 <= Accuracy(goodHits, totalNotes) <= 100.0
    ensures totalNotes > 0 ==> (Accuracy(goodHits, totalNotes) == 100.0 <==> goodHits == totalNotes)
  {
    if totalNotes > 0 {
      var q := goodHits as real / totalNotes as real;
      assert q * totalNotes as real == goodHits as real;
      assert q <= 1.0;
      assert q == 1.0 <==> goodHits == totalNotes;
    }
  }

  /** The payload of the `score_updated` event. */
  datatype ScoreUpdate = ScoreUpdate(score: int, accuracy: real, hitCounts: Histogram)

  class ScoreManager {
    const config: ScoreConfig
    var score: int
    var goodHits: nat
    var totalNotes: nat
    var hitCounts: Histogram

    /** Good hits are counted notes, and every counted note sits in exactly one histogram bucket. */
    ghost predicate Valid()
      reads this
    {
      goodHits <= totalNotes && Tally(hitCounts) == totalNotes
    }

    /** A fresh accumulator over the configuration. */
    constructor (scoreConfig: ScoreConfig)
      ensures Valid()
      ensures config == scoreConfig && score == 0 && goodHits == 0 && totalNotes == 0 && hitCounts == map[]
    {
      config := scoreConfig;
      score, goodHits, totalNotes, hitCounts := 0, 0, 0, map[];
      EmptyTally();
    }

    /** What `_publish_update` publishes. */
    function Snapshot(): (u: ScoreUpdate)
      reads this
      ensures u.score == score && u.hitCounts == hitCounts
      ensures totalNotes == 0 ==> u.accuracy == 0.0
      ensures Valid() ==> 0.0 <= u.accuracy <= 100.0
    {
      AccuracyBounds2(goodHits, totalNotes);
      ScoreUpdate(score, Accuracy(goodHits, totalNotes), hitCounts)
    }

    /**
     * `_player_pressed`: nothing without a note; a penalty note counts in the
     * "penalty" bucket and costs `bad_note_hit`; a must-hit note is a good
     * hit counted under its judgement and scores that judgement's points;
     * any other note changes nothing.
     */
    method PlayerPressed(note: Option<NoteView>) returns (published: Option<ScoreUpdate>)
      requires Valid()
      modifies this
      ensures Valid()
      ensures note.None? || (!note.value.penaltyNote && !note.value.mustHitNote) ==>
                unchanged(this) && published.None?
      ensures note.Some? && note.value.penaltyNote ==>
                && totalNotes == old(totalNotes) + 1 && goodHits == old(goodHits)
                && hitCounts == Bump(old(hitCounts), PENALTY_BUCKET)
                && score == old(score) + Points(config, BAD_NOTE_HIT_KEY, DEFAULT_BAD_NOTE_HIT)
                && published == Some(Snapshot())
      ensures note.Some? && !note.value.penaltyNote && note.value.mustHitNote ==>
                && totalNotes == old(totalNotes) + 1 && goodHits == old(goodHits) + 1
                && hitCounts == Bump(old(hitCounts), note.value.judgement)
                && score == old(score) + Points(config, note.value.judgement, 0)
                && published == Some(Snapshot())
    {
      if note.None? {
        return None;
      }
      var n := note.value;
      if n.penaltyNote {
        BumpTally(hitCounts, PENALTY_BUCKET);
        totalNotes := totalNotes + 1;
        hitCounts := Bump(hitCounts, PENALTY_BUCKET);
        score := score + Points(config, BAD_NOTE_HIT_KEY, DEFAULT_BAD_NOTE_HIT);
        return Some(Snapshot());
      }
      if n.mustHitNote {
        BumpTally(hitCounts, n.judgement);
        totalNotes := totalNotes + 1;
        hitCounts := Bump(hitCounts, n.judgement);
        goodHits := goodHits + 1;
        score := score + Points(config, n.judgement, 0);
        return Some(Snapshot());
      }
      return None;
    }

    /** `_player_note_miss`: only a must-hit note counts, in the "miss" bucket, scoring `miss`. */
    method PlayerNoteMiss(note: NoteView) returns (published: Option<ScoreUpdate>)
      requires Valid()
      modifies this
      ensures Valid()
      ensures !note.mustHitNote ==> unchanged(this) && published.None?
      ensures note.mustHitNote ==>
                && totalNotes == old(totalNotes) + 1 && goodHits == old(goodHits)
                && hitCounts == Bump(old(hitCounts), MISS_BUCKET)
                && score == old(score) + Points(config, MISS_KEY, 0)
                && published == Some(Snapshot())
    {
      if !note.mustHitNote {
        return None;
      }
      BumpTally(hitCounts, MISS_BUCKET);
      totalNotes := totalNotes + 1;
      hitCounts := Bump(hitCounts, MISS_BUCKET);
      score := score + Points(config, MISS_KEY, 0);
      return Some(Snapshot());
    }

    /**
     * `_on_note_hold_lost`: every broken hold counts, in the "hold_break"
     * bucket, scoring `hold_break`, else `bad_note_hit`, else -100.
     */
    method OnNoteHoldLost(note: NoteView) returns (published: ScoreUpdate)
      requires Valid()
      modifies this
      ensures Valid()
      ensures totalNotes == old(totalNotes) + 1 && goodHits == old(goodHits)
      ensures hitCounts == Bump(old(hitCounts), HOLD_BREAK_BUCKET)
      ensures score == old(score) + Points(config, HOLD_BREAK_KEY, Points(config, BAD_NOTE_HIT_KEY, DEFAULT_BAD_NOTE_HIT))
      ensures published == Snapshot()
    {
      BumpTally(hitCounts, HOLD_BREAK_BUCKET);
      totalNotes := totalNotes + 1;
      hitCounts := Bump(hitCounts, HOLD_BREAK_BUCKET);
      score := score + Points(config, HOLD_BREAK_KEY, Points(config, BAD_NOTE_HIT_KEY, DEFAULT_BAD_NOTE_HIT));
      return Snapshot();
    }

    /** `reset`: zero the score and counters, clear the histogram, and publish. */
    method Reset() returns (published: ScoreUpdate)
      modifies this
      ensures Valid()
      ensures score == 0 && goodHits == 0 && totalNotes == 0 && hitCounts == map[]
      ensures published == ScoreUpdate(0, 0.0, map[])
    {
      score, goodHits, totalNotes, hitCounts := 0, 0, 0, map[];
      EmptyTally();
      return Snapshot();
    }
  }

  lemma AccuracyBounds2(goodHits: nat, totalNotes: nat)
    ensures goodHits <= totalNotes ==> 0.0 <= Accuracy(goodHits, totalNotes) <= 100.0
  {
    if goodHits <= totalNotes {
      AccuracyBounds(goodHits, totalNotes);
    }
  }
}
