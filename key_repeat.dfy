// The key-repeat state machine of the firmware's main loop (core1_main):
// a newly pressed key acts at once, a held key starts repeating after
// KEY_REPEAT_DELAY_MS and then acts every KEY_REPEAT_RATE_MS, and releasing
// the key resets the machine.  Times are the uint32 milliseconds since boot,
// so differences wrap modulo 2^32 as in C.

module KeyRepeat {
  import opened RpnTypes
  import opened Keyboard
  import EditorSpec
  import Firmware

  /** uint32_t. */
  newtype u32 = x: int | 0 <= x < 0x1_0000_0000

  const KEY_REPEAT_DELAY_MS: u32 := 500
  const KEY_REPEAT_RATE_MS: u32 := 100

  /** The uint32 difference now - since, which wraps modulo 2^32. */
  function Elapsed(now: u32, since: u32): (d: u32)
    ensures d as int == (now as int - since as int) % 0x1_0000_0000
    ensures since <= now ==> d == now - since
  {
    if since <= now then now - since else (now as int + 0x1_0000_0000 - since as int) as u32
  }

  /** The four statics of core1_main that drive the repeat. */
  datatype Repeat = Repeat(heldKey: byte, pressTime: u32, lastRepeatTime: u32, started: bool)

  /** Their initial values. */
  const IDLE: Repeat := Repeat(NO_KEY, 0, 0, false)

  /**
   * One pass of the loop with key k pressed (NO_KEY for none) at time now:
   * the new statics, and whether k's action runs on this pass.
   */
  function Step(r: Repeat, k: byte, now: u32): (step: (Repeat, bool))
    ensures k == NO_KEY ==> !step.1 && step.0 == r.(heldKey := NO_KEY, started := false)
    ensures k != NO_KEY ==> step.0.heldKey == k && step.0.pressTime == (if k == r.heldKey then r.pressTime else now)
    ensures k != NO_KEY && k != r.heldKey ==> step.1 && !step.0.started
    ensures step.1 ==> step.0.lastRepeatTime == now
    ensures step.1 && k == r.heldKey ==> r.started && Elapsed(now, r.lastRepeatTime) >= KEY_REPEAT_RATE_MS
    ensures k != NO_KEY && k == r.heldKey && !r.started ==>
      !step.1 && (step.0.started <==> Elapsed(now, r.pressTime) >= KEY_REPEAT_DELAY_MS)
  {
    if k != NO_KEY then
      if k != r.heldKey then (Repeat(k, now, now, false), true)
      else if !r.started then
        if Elapsed(now, r.pressTime) >= KEY_REPEAT_DELAY_MS then (r.(started := true, lastRepeatTime := now), false)
        else (r, false)
      else if Elapsed(now, r.lastRepeatTime) >= KEY_REPEAT_RATE_MS then (r.(lastRepeatTime := now), true)
      else (r, false)
    else (r.(heldKey := NO_KEY, started := false), false)
  }

  /**
   * A key other than the held one acts immediately, becomes the held key with
   * its press time recorded, and the repeat is not armed.
   */
  lemma NewKeyActs(r: Repeat, k: byte, now: u32)
    requires k != NO_KEY && k != r.heldKey
    ensures Step(r, k, now) == (Repeat(k, now, now, false), true)
  {
  }

  /** Releasing every key never acts, forgets the held key and disarms the repeat. */
  lemma ReleaseResets(r: Repeat, now: u32)
    ensures var (r', fire) := Step(r, NO_KEY, now);
      !fire && r'.heldKey == NO_KEY && !r'.started &&
      r'.pressTime == r.pressTime && r'.lastRepeatTime == r.lastRepeatTime
  {
  }

  /** A held key whose repeat is not armed never acts; the pass that arms it only arms it. */
  lemma ArmingDoesNotAct(r: Repeat, now: u32)
    requires r.heldKey != NO_KEY && !r.started
    ensures var (r', fire) := Step(r, r.heldKey, now);
      !fire && r'.heldKey == r.heldKey && r'.pressTime == r.pressTime &&
      (r'.started <==> Elapsed(now, r.pressTime) >= KEY_REPEAT_DELAY_MS)
  {
  }

  /** Whether the action ran on each pass while one key stays held at the given times. */
  function Hold(r: Repeat, k: byte, times: seq<u32>): (fires: seq<bool>)
    ensures |fires| == |times|
    decreases |times|
  {
    if |times| == 0 then []
    else
      var next := Step(r, k, times[0]);
      [next.1] + Hold(next.0, k, times[1..])
  }

  /** Clock readings that never decrease and do not wrap past 2^32. */
  predicate Ascending(times: seq<u32>, from: u32) {
    (forall i :: 0 <= i < |times| ==> from <= times[i]) &&
    (forall i, j :: 0 <= i < j < |times| ==> times[i] <= times[j])
  }

  /**
   * What holding a key keeps true: the press time is fixed, and the last
   * repeat time is the press time until the repeat is armed, and at least
   * KEY_REPEAT_DELAY_MS after it from then on.
   */
  predicate Held(r: Repeat, k: byte, t0: u32) {
    r.heldKey == k && r.pressTime == t0 && t0 <= r.lastRepeatTime &&
    (!r.started ==> r.lastRepeatTime == t0) &&
    (r.started ==> r.lastRepeatTime as int >= t0 as int + KEY_REPEAT_DELAY_MS as int)
  }

  /**
   * While k stays held without the clock wrapping, every pass on which the
   * action runs comes at least KEY_REPEAT_DELAY_MS + KEY_REPEAT_RATE_MS =
   * 600 ms after the press, and at least KEY_REPEAT_RATE_MS after the last
   * repeat time before the hold began.
   */
  lemma {:induction false} HeldKeyRepeats(r: Repeat, k: byte, t0: u32, times: seq<u32>)
    requires k != NO_KEY && Held(r, k, t0) && Ascending(times, r.lastRepeatTime)
    ensures var fires := Hold(r, k, times);
      forall i :: 0 <= i < |times| && fires[i] ==>
        times[i] as int >= t0 as int + (KEY_REPEAT_DELAY_MS + KEY_REPEAT_RATE_MS) as int && times[i] as int >= r.lastRepeatTime as int + KEY_REPEAT_RATE_MS as int
    decreases |times|
  {
    if |times| > 0 {
      var now := times[0];
      var next := Step(r, k, now);
      var r' := next.0;
      assert Held(r', k, t0) && r.lastRepeatTime <= r'.lastRepeatTime <= now;
      assert next.1 ==> now as int >= t0 as int + (KEY_REPEAT_DELAY_MS + KEY_REPEAT_RATE_MS) as int && now as int >= r.lastRepeatTime as int + KEY_REPEAT_RATE_MS as int;
      HeldKeyRepeats(r', k, t0, times[1..]);
      var fires := Hold(r, k, times);
      assert fires == [next.1] + Hold(r', k, times[1..]);
      forall i | 1 <= i < |times| && fires[i]
        ensures times[i] as int >= t0 as int + (KEY_REPEAT_DELAY_MS + KEY_REPEAT_RATE_MS) as int && times[i] as int >= r.lastRepeatTime as int + KEY_REPEAT_RATE_MS as int
      {
        assert times[1..][i - 1] == times[i];
      }
    }
  }

  /**
   * A key pressed at t0 and then held with the clock not wrapping acts on the
   * press and next no sooner than KEY_REPEAT_DELAY_MS + KEY_REPEAT_RATE_MS
   * (600 ms) later.
   */
  lemma FirstRepeatAfterDelay(r: Repeat, k: byte, t0: u32, times: seq<u32>)
    requires k != NO_KEY && k != r.heldKey && Ascending(times, t0)
    ensures var fires := Hold(r, k, [t0] + times);
      fires[0] && forall i :: 1 <= i < |fires| && fires[i] ==> times[i - 1] as int >= t0 as int + (KEY_REPEAT_DELAY_MS + KEY_REPEAT_RATE_MS) as int
  {
    var pressed := Step(r, k, t0).0;
    HeldKeyRepeats(pressed, k, t0, times);
    assert ([t0] + times)[1..] == times;
  }

  /**
   * Two passes that both act while the key stays held are at least
   * KEY_REPEAT_RATE_MS apart.
   */
  lemma {:induction false} RepeatsSpaced(r: Repeat, k: byte, t0: u32, times: seq<u32>)
    requires k != NO_KEY && Held(r, k, t0) && Ascending(times, r.lastRepeatTime)
    ensures var fires := Hold(r, k, times);
      forall i, j :: 0 <= i < j < |times| && fires[i] && fires[j] ==> times[j] as int >= times[i] as int + KEY_REPEAT_RATE_MS as int
    decreases |times|
  {
    if |times| > 0 {
      var next := Step(r, k, times[0]);
      var r' := next.0;
      var rest := times[1..];
      assert Held(r', k, t0) && Ascending(rest, r'.lastRepeatTime);
      assert next.1 ==> r'.lastRepeatTime == times[0];
      RepeatsSpaced(r', k, t0, rest);
      HeldKeyRepeats(r', k, t0, rest);
      var fires := Hold(r, k, times);
      assert fires == [next.1] + Hold(r', k, rest);
      forall i, j | 0 <= i < j < |times| && fires[i] && fires[j]
        ensures times[j] as int >= times[i] as int + KEY_REPEAT_RATE_MS as int
      {
        assert rest[j - 1] == times[j];
        if i > 0 {
          assert rest[i - 1] == times[i];
        }
      }
    }
  }

  /**
   * The key statics of core1_main as an object.  Each pass also runs the
   * resolved action on the editor when the state machine says so, and marks
   * the display dirty when that action reports a change.
   */
  class KeyRepeater {
    var currentHeldKey: byte
    var keyPressTime: u32
    var lastRepeatTime: u32
    var repeatStarted: bool

    function State(): Repeat
      reads this
    {
      Repeat(currentHeldKey, keyPressTime, lastRepeatTime, repeatStarted)
    }

    constructor()
      ensures State() == IDLE
    {
      currentHeldKey := NO_KEY;
      keyPressTime := 0;
      lastRepeatTime := 0;
      repeatStarted := false;
    }

    /** The key-handling part of one pass of core1_main. */
    method Pass(dev: Firmware.Device, k: byte, now: u32) returns (acted: bool)
      requires dev.Valid()
      modifies this, dev, dev.textBuffer
      ensures dev.Valid()
      ensures (State(), acted) == Step(old(State()), k, now)
      ensures acted ==> dev.State() == RunAction(old(dev.State()), ResolveAction(old(dev.mode), k))
      ensures !acted ==> dev.State() == old(dev.State())
    {
      ghost var r := State();
      ghost var d := dev.State();
      acted := false;
      if k != NO_KEY {
        if k != currentHeldKey {
          assert Step(r, k, now) == (Repeat(k, now, now, false), true);
          Act(dev, k);
          ghost var d' := dev.State();
          acted := true;
          currentHeldKey := k;
          keyPressTime := now;
          lastRepeatTime := now;
          repeatStarted := false;
          assert dev.State() == d';
        } else {
          if !repeatStarted {
            if Elapsed(now, keyPressTime) >= KEY_REPEAT_DELAY_MS {
              repeatStarted := true;
              lastRepeatTime := now;
            }
          } else {
            if Elapsed(now, lastRepeatTime) >= KEY_REPEAT_RATE_MS {
              assert Step(r, k, now) == (r.(lastRepeatTime := now), true);
              Act(dev, k);
              ghost var d' := dev.State();
              acted := true;
              lastRepeatTime := now;
              assert dev.State() == d';
            }
          }
        }
      } else {
        currentHeldKey := NO_KEY;
        repeatStarted := false;
      }
    }
  }

  /** Resolves k in the current mode, runs it, and marks the display dirty if it reports a change. */
  method Act(dev: Firmware.Device, k: byte)
    requires dev.Valid()
    modifies dev, dev.textBuffer
    ensures dev.Valid()
    ensures dev.State() == RunAction(old(dev.State()), ResolveAction(old(dev.mode), k))
  {
    var action := ResolveAction(dev.mode, k);
    var ok := dev.ExecuteAction(action);
    if ok {
      dev.oledDirty := true;
    }
  }

  /** keyboard_execute_action followed by setting oledDirty when it returns true. */
  ghost function RunAction(e: EditorSpec.Editor, a: Action): (r: EditorSpec.Editor)
    requires EditorSpec.Wf(e)
    ensures EditorSpec.Wf(r)
  {
    var (e', ok) := EditorSpec.Execute(e, a);
    if ok then e'.(oledDirty := true) else e'
  }
}
