/** MomentarySwitch of switch.py: a switch that, once commanded into its timed
    state, goes back to its idle state after a fixed time.

    Home Assistant's clock and timers become an integer clock `now` (in
    microseconds) and the list `pending` of the revert deadlines scheduled with
    `track_point_in_time` and not yet fired. The source never cancels a timer:
    every deadline it schedules fires. */
module Momentary {
  import opened Values
  import opened Naming

  const DEFAULT_MODE: string := "old"
  const ATTR_IDLE_STATE: string := "idle_state"
  const ATTR_TIMED_STATE: string := "timed_state"

  /** The entity's configuration after PLATFORM_SCHEMA: durations are
      non-negative (`cv.positive_timedelta` lets zero through). */
  datatype SwitchConfig = SwitchConfig(
    name: string,
    mode: string,
    onFor: Timedelta,
    allowOff: bool,
    toggleFor: Timedelta,
    cancellable: bool)

  /** `str.lower()` on ASCII letters. */
  function Lower(s: string): (r: string)
    ensures |r| == |s|
    ensures forall i :: 0 <= i < |s| ==>
      r[i] == if 'A' <= s[i] <= 'Z' then (s[i] - 'A' + 'a') as char else s[i]
  {
    if s == [] then []
    else [if 'A' <= s[0] <= 'Z' then (s[0] - 'A' + 'a') as char else s[0]] + Lower(s[1..])
  }

  /** switch.py:81-90: the idle and timed states a mode gives. "old" (the
      default) and "off", in any case, give an idle state of off; any other
      mode gives an idle state of on. The two states always differ. */
  function Polarity(mode: string): (r: (bool, bool))
    ensures r.0 != r.1
    ensures !r.0 <==> Lower(mode) == DEFAULT_MODE || Lower(mode) == "off"
  {
    if Lower(mode) == DEFAULT_MODE then (false, true)
    else if Lower(mode) != "off" then (true, false)
    else (false, true)
  }

  predicate Sorted(s: seq<int>)
  {
    forall i, j :: 0 <= i < j < |s| ==> s[i] <= s[j]
  }

  class MomentarySwitch {
    const name: string
    const entityId: string
    const uniqueId: string
    const mode: string
    const toggleFor: int
    const cancellable: bool
    const idle: bool
    const timed: bool

    var isOn: bool
    var now: int
    var pending: seq<int>

    /** The deadlines are in firing order and lie within one toggle period of
        the clock, and the switch is never in its timed state without a
        revert pending. */
    ghost predicate Valid()
      reads this
    {
      && toggleFor >= 0 && idle != timed
      && Sorted(pending)
      && (forall i :: 0 <= i < |pending| ==> now <= pending[i] <= now + toggleFor)
      && (isOn == timed ==> pending != [])
    }

    /** The state attributes the entity exposes. */
    function Attributes(): map<string, bool>
      reads this
    {
      map[ATTR_IDLE_STATE := idle, ATTR_TIMED_STATE := timed]
    }

    /** switch.py:62-106: names the entity (a leading `!` is dropped from the
        shown name and keeps the entity id out of the momentary namespace),
        reads the mode, the `on_for` duration and the `allow_off` flag
        (`toggle_for` and `cancellable` are accepted but unused), fixes the
        polarity and starts idle. */
    constructor (slug: Slugify, config: SwitchConfig, now: int)
      requires config.onFor.us >= 0
      ensures Valid()
      ensures EntityNaming(name, entityId, uniqueId) == SwitchEntityNaming(slug, config.name)
      ensures mode == config.mode && toggleFor == config.onFor.us && cancellable == config.allowOff
      ensures (idle, timed) == Polarity(config.mode)
      ensures isOn == idle && pending == [] && this.now == now
      ensures Attributes() == map[ATTR_IDLE_STATE := idle, ATTR_TIMED_STATE := timed]
    {
      var naming := SwitchEntityNaming(slug, config.name);
      name := naming.displayName;
      entityId := naming.entityId;
      uniqueId := naming.uniqueId;
      mode := config.mode;
      toggleFor := config.onFor.us;
      cancellable := config.allowOff;
      var polarity := Polarity(config.mode);
      idle := polarity.0;
      timed := polarity.1;
      isOn := polarity.0;
      this.now := now;
      pending := [];
    }

    /** switch.py:113-129: a command to the timed state enters it and schedules
        one more revert, one toggle period from now, leaving earlier ones in
        place; a command to the idle state is obeyed at once when the switch
        is cancellable (its timers keep running) and ignored otherwise. */
    method StartActivity(onOff: bool)
      requires Valid()
      modifies this`isOn, this`pending
      ensures Valid()
      ensures onOff == timed ==> isOn == timed && pending == old(pending) + [now + toggleFor]
      ensures onOff != timed && cancellable ==> isOn == idle && pending == old(pending)
      ensures onOff != timed && !cancellable ==> isOn == old(isOn) && pending == old(pending)
    {
      if timed == onOff {
        isOn := timed;
        pending := pending + [now + toggleFor];
      } else if cancellable {
        isOn := idle;
      }
    }

    /** switch.py:131-132. */
    method TurnOn()
      requires Valid()
      modifies this`isOn, this`pending
      ensures Valid()
      ensures timed ==> isOn && pending == old(pending) + [now + toggleFor]
      ensures !timed ==> pending == old(pending) && isOn == (if cancellable then idle else old(isOn))
    {
      StartActivity(true);
    }

    /** switch.py:134-135. */
    method TurnOff()
      requires Valid()
      modifies this`isOn, this`pending
      ensures Valid()
      ensures !timed ==> !isOn && pending == old(pending) + [now + toggleFor]
      ensures timed ==> pending == old(pending) && isOn == (if cancellable then idle else old(isOn))
    {
      StartActivity(false);
    }

    /** switch.py:108-111: the revert callback goes back to the idle state,
        whatever the state is. */
    method StopActivity()
      modifies this`isOn
      ensures isOn == idle
    {
      isOn := idle;
    }

    /** The earliest pending timer fires: the clock moves to its deadline and
        the switch reverts to idle. */
    method FireTimer()
      requires Valid() && pending != []
      modifies this`isOn, this`pending, this`now
      ensures Valid()
      ensures now == old(pending[0]) && pending == old(pending[1..]) && isOn == idle
    {
      now := pending[0];
      pending := pending[1..];
      StopActivity();
    }

    /** Time passes up to `t` without reaching a deadline that has not fired. */
    method Advance(t: int)
      requires Valid() && now <= t && (pending != [] ==> t <= pending[0])
      modifies this`now
      ensures Valid()
      ensures now == t
    {
      now := t;
    }
  }

  /** switch.py:117-120: pressing again while timed does not extend the timed
      period. After a second press `gap` later, the first deadline still
      fires one toggle period after the first press and switches back to
      idle, and the second deadline stays pending. */
  method Retrigger(sw: MomentarySwitch, gap: int)
    requires sw.Valid() && sw.pending == [] && 0 <= gap <= sw.toggleFor
    modifies sw`isOn, sw`pending, sw`now
    ensures sw.isOn == sw.idle
    ensures sw.now == old(sw.now) + sw.toggleFor
    ensures sw.pending == [old(sw.now) + gap + sw.toggleFor]
  {
    sw.StartActivity(sw.timed);
    sw.Advance(sw.now + gap);
    sw.StartActivity(sw.timed);
    sw.FireTimer();
  }
}
