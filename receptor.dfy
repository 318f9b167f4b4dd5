/**
 * The receptor state machine of sources/game/receptor.py: each of the eight
 * lane receptors shows "idle", "press" or "confirm", and a release only
 * returns it to "idle" once the press has been shown for at least
 * PRESS_MIN_DISPLAY_MS. The wall clock (`time.time() * 1000`) is the
 * parameter `nowMs`.
 */
module Receptor {
  import opened Wrappers
  import opened Judgement

  const IDLE: string := "idle"
  const PRESS: string := "press"
  const CONFIRM: string := "confirm"

  /** The shortest time, in milliseconds, a press or confirm stays on screen. */
  const PRESS_MIN_DISPLAY_MS: real := 80.0

  /** The lane names in lane order: player lanes 0..3, opponent lanes 4..7. */
  const LANE_NAMES: seq<string> := [
    "player_left", "player_down", "player_up", "player_right",
    "opponent_left", "opponent_down", "opponent_up", "opponent_right"]

  const ACTOR_ROLES: seq<string> := ["player", "opponent"]
  const DIRECTION_NAMES: seq<string> := ["left", "down", "up", "right"]

  /** `index_to_name`: `None` is the `KeyError` of an unknown index. */
  function IndexToName(index: int): (name: Option<string>)
    ensures name.Some? <==> 0 <= index < 8
  {
    if 0 <= index < |LANE_NAMES| then Some(LANE_NAMES[index]) else None
  }

  /** `name_to_index`: `None` is the `KeyError` of an unknown name. */
  function NameToIndex(name: string): (index: Option<nat>)
    ensures index.Some? ==> index.value < 8
  {
    var table := map[
      "player_left" := 0, "player_down" := 1, "player_up" := 2, "player_right" := 3,
      "opponent_left" := 4, "opponent_down" := 5, "opponent_up" := 6, "opponent_right" := 7];
    if name in table then Some(table[name]) else None
  }

  /** The two tables are inverse bijections between 0..7 and the eight lane names. */
  lemma LaneNamesBijection(index: int, name: string)
    ensures IndexToName(index) == Some(name) <==> NameToIndex(name) == Some(index)
  {
    if 0 <= index < 8 && IndexToName(index) == Some(name) {
      assert name == LANE_NAMES[index];
    }
  }

  /** Each lane name is its actor role and direction joined by "_", role-major. */
  lemma LaneNameParts(role: nat, direction: nat)
    requires role < 2 && direction < 4
    ensures NameToIndex(ACTOR_ROLES[role] + "_" + DIRECTION_NAMES[direction]) == Some(4 * role + direction)
  {
    var name := ACTOR_ROLES[role] + "_" + DIRECTION_NAMES[direction];
    assert name == LANE_NAMES[4 * role + direction];
  }

  /** Python's `list[index]` on a list of `n` items: negative indices count from the end; `None` is the `IndexError`. */
  function PyIndex(index: int, n: nat): (k: Option<nat>)
    ensures k.Some? <==> -(n as int) <= index < n
    ensures k.Some? ==> k.value < n && (k.value == index || k.value == index + n)
  {
    if 0 <= index < n then Some(index)
    else if -(n as int) <= index < 0 then Some(index + n)
    else None
  }

  /** The fields `_current_animation`, `_press_start_time` and `_pending_idle`. */
  datatype ReceptorState = ReceptorState(animation: string, pressStart: Option<real>, pendingIdle: bool)

  const IDLE_STATE: ReceptorState := ReceptorState(IDLE, None, false)

  predicate IsPress(name: string) {
    name == PRESS || name == CONFIRM
  }

  /**
   * `set_animation`: "press" and "confirm" record the start time and clear
   * the pending idle; "idle" clears both; any other name only changes the
   * animation.
   */
  function SetAnim(s: ReceptorState, name: string, nowMs: real): (r: ReceptorState)
    ensures r.animation == name
    ensures name == IDLE ==> r == IDLE_STATE
  {
    if IsPress(name) then ReceptorState(name, Some(nowMs), false)
    else if name == IDLE then IDLE_STATE
    else s.(animation := name)
  }

  /** `request_idle`: defer while a press or confirm is shown, otherwise go idle at once. */
  function RequestIdleOf(s: ReceptorState): (r: ReceptorState)
    ensures IsPress(s.animation) ==> r == s.(pendingIdle := true)
    ensures !IsPress(s.animation) ==> r == IDLE_STATE
  {
    if IsPress(s.animation) then s.(pendingIdle := true) else SetAnim(s, IDLE, 0.0)
  }

  /** Whether the deferred idle is due at `nowMs`. */
  predicate IdleDue(s: ReceptorState, nowMs: real) {
    s.pendingIdle && s.pressStart.Some? && nowMs - s.pressStart.value >= PRESS_MIN_DISPLAY_MS
  }

  /** `update_idle_transition`: go idle when a deferred idle is due, else change nothing. */
  function IdleTransition(s: ReceptorState, nowMs: real): (r: ReceptorState)
    ensures IdleDue(s, nowMs) ==> r == IDLE_STATE
    ensures !IdleDue(s, nowMs) ==> r == s
  {
    if IdleDue(s, nowMs) then SetAnim(s, IDLE, nowMs) else s
  }

  /**
   * The consistency the three handlers keep while only "idle", "press" and
   * "confirm" are shown: a start time is recorded exactly while a press or
   * confirm is shown, and a deferred idle is pending only then.
   */
  predicate Consistent(s: ReceptorState) {
    && (s.animation == IDLE || IsPress(s.animation))
    && (s.pressStart.Some? <==> IsPress(s.animation))
    && (s.pendingIdle ==> IsPress(s.animation))
  }

  lemma ConsistentPreserved(s: ReceptorState, name: string, nowMs: real)
    requires Consistent(s)
    ensures name == IDLE || IsPress(name) ==> Consistent(SetAnim(s, name, nowMs))
    ensures Consistent(RequestIdleOf(s))
    ensures Consistent(IdleTransition(s, nowMs))
  {
  }

  /** What reaches a receptor after it is set: a release, or a frame's update at a clock reading. */
  datatype Input = Release | Tick(nowMs: real)

  function Step(s: ReceptorState, input: Input): ReceptorState {
    match input
    case Release => RequestIdleOf(s)
    case Tick(nowMs) => IdleTransition(s, nowMs)
  }

  /** The state after the inputs, in order. */
  function Run(s: ReceptorState, inputs: seq<Input>): ReceptorState
    decreases |inputs|
  {
    if inputs == [] then s else Run(Step(s, inputs[0]), inputs[1..])
  }

  /** Every update among the inputs happens before `deadline`. */
  predicate TicksBefore(inputs: seq<Input>, deadline: real) {
    forall k :: 0 <= k < |inputs| && inputs[k].Tick? ==> inputs[k].nowMs < deadline
  }

  /** A press or confirm started at `t0` survives any releases and updates before `t0 + 80`. */
  lemma {:induction false} ShownUntilMinimum(s: ReceptorState, t0: real, inputs: seq<Input>)
    requires IsPress(s.animation) && s.pressStart == Some(t0)
    requires TicksBefore(inputs, t0 + PRESS_MIN_DISPLAY_MS)
    ensures Run(s, inputs).animation == s.animation && Run(s, inputs).pressStart == Some(t0)
    decreases |inputs|
  {
    if inputs != [] {
      var next := Step(s, inputs[0]);
      assert TicksBefore(inputs[1..], t0 + PRESS_MIN_DISPLAY_MS) by {
        forall k | 0 <= k < |inputs[1..]| && inputs[1..][k].Tick?
          ensures inputs[1..][k].nowMs < t0 + PRESS_MIN_DISPLAY_MS
        {
          assert inputs[1..][k] == inputs[k + 1];
        }
      }
      ShownUntilMinimum(next, t0, inputs[1..]);
    }
  }

  /** After a press or confirm at `t0`, the receptor is not idle at any update before `t0 + 80`, whatever is released. */
  lemma HeldAtLeastMinimum(s: ReceptorState, name: string, t0: real, inputs: seq<Input>)
    requires IsPress(name)
    requires TicksBefore(inputs, t0 + PRESS_MIN_DISPLAY_MS)
    ensures Run(SetAnim(s, name, t0), inputs).animation == name
  {
    ShownUntilMinimum(SetAnim(s, name, t0), t0, inputs);
  }

  /** A release of a press at `t0` followed by an update at or after `t0 + 80` returns to idle. */
  lemma ReleasedThenIdle(s: ReceptorState, name: string, t0: real, nowMs: real)
    requires IsPress(name) && nowMs >= t0 + PRESS_MIN_DISPLAY_MS
    ensures Run(SetAnim(s, name, t0), [Release, Tick(nowMs)]) == IDLE_STATE
  {
    var pressed := SetAnim(s, name, t0);
    var released := RequestIdleOf(pressed);
    assert IdleDue(released, nowMs);
    assert [Release, Tick(nowMs)][1..] == [Tick(nowMs)];
    assert [Tick(nowMs)][1..] == [];
    assert Run(released, [Tick(nowMs)]) == Run(IdleTransition(released, nowMs), []);
  }

  class Receptor {
    const directionIndex: nat
    var currentAnimation: string
    var pressStartTime: Option<real>
    var pendingIdle: bool

    function State(): ReceptorState
      reads this
    {
      ReceptorState(currentAnimation, pressStartTime, pendingIdle)
    }

    /** The receptor starts with no animation and is then set to "idle". */
    constructor (index: nat)
      ensures directionIndex == index && State() == IDLE_STATE
    {
      directionIndex := index;
      currentAnimation, pressStartTime, pendingIdle := "", None, false;
      new;
      SetAnimation(IDLE, 0.0);
    }

    method SetAnimation(name: string, nowMs: real)
      modifies this
      ensures State() == SetAnim(old(State()), name, nowMs)
    {
      currentAnimation := name;
      if name == PRESS || name == CONFIRM {
        pressStartTime := Some(nowMs);
        pendingIdle := false;
      } else if name == IDLE {
        pressStartTime := None;
        pendingIdle := false;
      }
    }

    method RequestIdle()
      modifies this
      ensures State() == RequestIdleOf(old(State()))
    {
      if currentAnimation == PRESS || currentAnimation == CONFIRM {
        pendingIdle := true;
      } else {
        SetAnimation(IDLE, 0.0);
      }
    }

    method UpdateIdleTransition(nowMs: real)
      modifies this
      ensures State() == IdleTransition(old(State()), nowMs)
    {
      if pendingIdle && pressStartTime.Some? {
        var elapsed := nowMs - pressStartTime.value;
        if elapsed >= PRESS_MIN_DISPLAY_MS {
          SetAnimation(IDLE, nowMs);
        }
      }
    }
  }

  /** Distinct receptors, the one at position `i` serving lane `i`. */
  ghost predicate LaneOrdered(rs: seq<Receptor>) {
    && (forall i :: 0 <= i < |rs| ==> rs[i].directionIndex == i)
    && (forall i, j :: 0 <= i < j < |rs| ==> rs[i] != rs[j])
  }

  class ReceptorManager {
    const receptors: seq<Receptor>

    ghost predicate Valid() {
      |receptors| == 8 && LaneOrdered(receptors)
    }

    /** One receptor per actor role and direction, role-major, each placed by `name_to_index`. */
    constructor ()
      ensures Valid()
      ensures forall i :: 0 <= i < 8 ==> fresh(receptors[i]) && receptors[i].State() == IDLE_STATE
    {
      var rs: seq<Receptor> := [];
      for role := 0 to 2
        invariant |rs| == 4 * role && LaneOrdered(rs)
        invariant forall i :: 0 <= i < |rs| ==> fresh(rs[i]) && rs[i].State() == IDLE_STATE
      {
        for direction := 0 to 4
          invariant |rs| == 4 * role + direction && LaneOrdered(rs)
          invariant forall i :: 0 <= i < |rs| ==> fresh(rs[i]) && rs[i].State() == IDLE_STATE
        {
          LaneNameParts(role, direction);
          var index := NameToIndex(ACTOR_ROLES[role] + "_" + DIRECTION_NAMES[direction]);
          var receptor := new Receptor(index.value);
          rs := rs + [receptor];
        }
      }
      receptors := rs;
    }

    /** `_note_pressed`: "press" on an empty press, "confirm" on a press that hit a note. */
    method NotePressed(directionIndex: int, note: Option<NoteView>, nowMs: real) returns (result: Option<nat>)
      requires Valid()
      modifies receptors
      ensures result == PyIndex(directionIndex, 8)
      ensures forall i :: 0 <= i < 8 && Some(i) != result ==> receptors[i].State() == old(receptors[i].State())
      ensures result.Some? ==>
                receptors[result.value].State() ==
                SetAnim(old(receptors[result.value].State()), if note.None? then PRESS else CONFIRM, nowMs)
    {
      result := PyIndex(directionIndex, |receptors|);
      if result.Some? {
        var name := if note.None? then PRESS else CONFIRM;
        receptors[result.value].SetAnimation(name, nowMs);
      }
    }

    /** `_note_released`: ask the lane's receptor to go idle. */
    method NoteReleased(directionIndex: int) returns (result: Option<nat>)
      requires Valid()
      modifies receptors
      ensures result == PyIndex(directionIndex, 8)
      ensures forall i :: 0 <= i < 8 && Some(i) != result ==> receptors[i].State() == old(receptors[i].State())
      ensures result.Some? ==> receptors[result.value].State() == RequestIdleOf(old(receptors[result.value].State()))
    {
      result := PyIndex(directionIndex, |receptors|);
      if result.Some? {
        receptors[result.value].RequestIdle();
      }
    }

    /** The idle transitions of `update`, every receptor at the same clock reading. */
    method Update(nowMs: real)
      requires Valid()
      modifies receptors
      ensures forall i :: 0 <= i < 8 ==> receptors[i].State() == IdleTransition(old(receptors[i].State()), nowMs)
    {
      for k := 0 to |receptors|
        invariant forall i :: 0 <= i < k ==> receptors[i].State() == IdleTransition(old(receptors[i].State()), nowMs)
        invariant forall i :: k <= i < |receptors| ==> receptors[i].State() == old(receptors[i].State())
      {
        receptors[k].UpdateIdleTransition(nowMs);
      }
    }
  }
}
