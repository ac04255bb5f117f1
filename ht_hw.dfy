// The application's hardware: the buzzer, which sounds beep patterns paced by
// a timer, and the buttons, whose PIO edges are decoded into a switch byte and
// two press counters.

module HtHw {
  import opened Sdk
  import BatteryService

  // Buzzer timings (microseconds).
  const SHORT_BEEP_TIMER_VALUE: nat := 100 * MILLISECOND
  const LONG_BEEP_TIMER_VALUE: nat := 500 * MILLISECOND
  const BEEP_GAP_TIMER_VALUE: nat := 25 * MILLISECOND

  /** How long the left button must be held to remove the bonding. */
  const EXTRA_LONG_BUTTON_PRESS_TIMER: nat := 4 * SECOND

  // The PIO bit of each button.
  const BUTTON_LEFT_MASK: bv32 := 1 << 0
  const BUTTON_RIGHT_MASK: bv32 := 1 << 3
  const BUTTON_FASTER_MASK: bv32 := 1 << 4
  const BUTTON_BRAKE_MASK: bv32 := 1 << 9
  const BUTTON_GHG_MASK: bv32 := 1 << 10
  const BUTTON_BP_MASK: bv32 := 1 << 11

  /** buzzer_beep_type */
  datatype BeepType = BeepOff | BeepShort | BeepLong | BeepTwice | BeepThrice

  /** BUTTON_STATE_T */
  datatype ButtonState = ButtonDown | ButtonUp | ButtonUnknown

  /** g_app_hw_data together with the file's static button states and counters. */
  datatype HwState = HwState(
    buzzerTid: TimerId,
    beepType: BeepType,
    beepCount: Word,
    buttonTid: TimerId,
    ghgState: ButtonState,
    bpState: ButtonState,
    ghgCount: Byte,
    bpCount: Byte)

  /** The state at power-on: no timers, nothing counted, button states unknown. */
  const HW_POWER_ON: HwState :=
    HwState(TimerInvalid, BeepOff, 0, TimerInvalid, ButtonUnknown, ButtonUnknown, 0, 0)

  // ---- buzzer -------------------------------------------------------------

  /** The length of the first tone of a beep pattern. */
  function FirstToneLength(t: BeepType): (d: nat)
    ensures d == if t == BeepLong then LONG_BEEP_TIMER_VALUE else SHORT_BEEP_TIMER_VALUE
  {
    match t
    case BeepLong => LONG_BEEP_TIMER_VALUE
    case _ => SHORT_BEEP_TIMER_VALUE
  }

  /** SoundBuzzer */
  function HwSoundBuzzer(hw: HwState, f: FwState, t: BeepType): (HwState, FwState)
  {
    var f1 := WithoutTimer(f.(pwmOn := false), hw.buzzerTid);
    var hw1 := hw.(buzzerTid := TimerInvalid, beepCount := 0, beepType := t);
    if t == BeepOff then (hw1, f1)
    else
      var f2 := f1.(pwmOn := true);
      (hw1.(buzzerTid := NewTimer(f2)), WithTimer(f2, FirstToneLength(t), BuzzerTimerCb))
  }

  /** What one expiry of the buzzer timer does to the pattern: the next beep
      type and count, whether the tone is on, and how long the next step lasts
      (None when the pattern is over). */
  datatype BeepStep = BeepStep(beepType: BeepType, beepCount: Word, pwmOn: bool, next: Option<nat>)

  /** The switch in appBuzzerTimerHandler; None for the beep type it panics on. */
  function BeepStepOf(t: BeepType, count: Word): Option<BeepStep>
  {
    match t
    case BeepShort => Some(BeepStep(BeepOff, count, false, None))
    case BeepLong => Some(BeepStep(BeepOff, count, false, None))
    case BeepTwice =>
      if count == 0 then Some(BeepStep(t, 1, false, Some(BEEP_GAP_TIMER_VALUE)))
      else if count == 1 then Some(BeepStep(t, 2, true, Some(SHORT_BEEP_TIMER_VALUE)))
      else Some(BeepStep(BeepOff, 0, false, None))
    case BeepThrice =>
      if count == 0 || count == 2 then Some(BeepStep(t, count + 1, false, Some(BEEP_GAP_TIMER_VALUE)))
      else if count == 1 || count == 3 then Some(BeepStep(t, count + 1, true, Some(SHORT_BEEP_TIMER_VALUE)))
      else Some(BeepStep(BeepOff, 0, false, None))
    case BeepOff => None
  }

  /** appBuzzerTimerHandler: the timer that fired is already gone from the
      firmware's table; the handler does not look at its id. */
  function HwBuzzerTimerHandler(hw: HwState, f: FwState): (HwState, FwState)
  {
    var hw1 := hw.(buzzerTid := TimerInvalid);
    match BeepStepOf(hw.beepType, hw.beepCount)
    case None => (hw1, WithPanic(f, PanicUnexpectedBeepType))
    case Some(st) =>
      var hw2 := hw1.(beepType := st.beepType, beepCount := st.beepCount);
      var f2 := f.(pwmOn := st.pwmOn);
      if st.beepType != BeepOff then
        (hw2.(buzzerTid := NewTimer(f2)), WithTimer(f2, if st.next.Some? then st.next.value else SHORT_BEEP_TIMER_VALUE, BuzzerTimerCb))
      else (hw2, f2)
  }

  /** While a buzzer timer is pending the pattern is not over. */
  predicate BuzzerConsistent(hw: HwState, f: FwState)
  {
    hw.buzzerTid.Timer? ==>
      && hw.beepType != BeepOff
      && hw.buzzerTid.n in f.armed
      && f.armed[hw.buzzerTid.n].cb == BuzzerTimerCb
  }

  /** SoundBuzzer silences any previous pattern and starts the new one: the
      tone is on, and exactly one fresh buzzer timer runs, iff the new type is
      not off; a long beep lasts the long time, every other the short time. */
  lemma SoundBuzzerContract(hw: HwState, f: FwState, t: BeepType)
    requires TimersFresh(f) && Issued(f, hw.buzzerTid)
    ensures var (hw', f') := HwSoundBuzzer(hw, f, t);
      && hw'.beepType == t && hw'.beepCount == 0
      && f'.pwmOn == (t != BeepOff)
      && (hw.buzzerTid.Timer? ==> hw.buzzerTid.n !in f'.armed)
      && (hw'.buzzerTid.Timer? <==> t != BeepOff)
      && (t != BeepOff ==> hw'.buzzerTid == Timer(f.nextTimer)
                           && f'.armed[f.nextTimer] == TimerEntry(FirstToneLength(t), BuzzerTimerCb))
      && BuzzerConsistent(hw', f') && TimersFresh(f')
      && hw'.(buzzerTid := hw.buzzerTid, beepType := hw.beepType, beepCount := hw.beepCount) == hw
  {
  }

  /** The firmware fires the pending buzzer timer. */
  function BuzzerExpire(hw: HwState, f: FwState): (HwState, FwState)
  {
    HwBuzzerTimerHandler(hw, WithoutTimer(f, hw.buzzerTid))
  }

  /** The expiry handler keeps the buzzer consistent with its timer table and,
      on a consistent buzzer, never reaches its panic. */
  lemma BuzzerTimerHandlerPreserves(hw: HwState, f: FwState)
    requires TimersFresh(f) && BuzzerConsistent(hw, f) && hw.buzzerTid.Timer?
    ensures var (hw', f') := BuzzerExpire(hw, f);
      BuzzerConsistent(hw', f') && TimersFresh(f') && f'.halted == f.halted
  {
  }

  /** The state of the buzzer after `k` expiries of its timer. */
  function BuzzerAfter(hw: HwState, f: FwState, k: nat): (HwState, FwState)
    decreases k
  {
    if k == 0 then (hw, f)
    else
      var (hw1, f1) := BuzzerAfter(hw, f, k - 1);
      if hw1.buzzerTid.Timer? then BuzzerExpire(hw1, f1) else (hw1, f1)
  }

  /** The tone pattern a beep type sounds: for each step, whether the tone is
      on and how long the step lasts. */
  function Pattern(t: BeepType): seq<(bool, nat)>
  {
    match t
    case BeepOff => []
    case BeepShort => [(true, SHORT_BEEP_TIMER_VALUE)]
    case BeepLong => [(true, LONG_BEEP_TIMER_VALUE)]
    case BeepTwice => [(true, SHORT_BEEP_TIMER_VALUE), (false, BEEP_GAP_TIMER_VALUE), (true, SHORT_BEEP_TIMER_VALUE)]
    case BeepThrice =>
      [(true, SHORT_BEEP_TIMER_VALUE), (false, BEEP_GAP_TIMER_VALUE), (true, SHORT_BEEP_TIMER_VALUE),
       (false, BEEP_GAP_TIMER_VALUE), (true, SHORT_BEEP_TIMER_VALUE)]
  }

  /** Step `k` of the pattern of `t` is playing, or the pattern is over. */
  predicate PatternAt(hw: HwState, f: FwState, t: BeepType, k: nat)
  {
    && (k < |Pattern(t)| ==>
          && hw.buzzerTid.Timer? && hw.beepType == t && hw.beepCount == k
          && f.pwmOn == Pattern(t)[k].0
          && hw.buzzerTid.n in f.armed
          && f.armed[hw.buzzerTid.n] == TimerEntry(Pattern(t)[k].1, BuzzerTimerCb))
    && (k >= |Pattern(t)| ==> hw.buzzerTid == TimerInvalid && hw.beepType == BeepOff && !f.pwmOn)
  }

  /** One expiry moves a playing pattern on by one step. */
  lemma ExpiryAdvancesPattern(hw: HwState, f: FwState, t: BeepType, k: nat)
    requires TimersFresh(f) && k < |Pattern(t)| && PatternAt(hw, f, t, k)
    ensures var (hw', f') := BuzzerExpire(hw, f);
      PatternAt(hw', f', t, k + 1) && f'.halted == f.halted && TimersFresh(f')
  {
  }

  /** Each beep type sounds exactly its pattern: after SoundBuzzer and `k`
      expiries, step `k` of the pattern is playing with its timer armed for its
      length; once the pattern is over the buzzer is off and no timer runs. */
  lemma {:induction false} PatternPlays(hw: HwState, f: FwState, t: BeepType, k: nat)
    requires TimersFresh(f)
    ensures var (hw0, f0) := HwSoundBuzzer(hw, f, t);
      var (hwk, fk) := BuzzerAfter(hw0, f0, k);
      && (k < |Pattern(t)| ==>
            && hwk.buzzerTid.Timer? && hwk.beepType == t && hwk.beepCount == k
            && fk.pwmOn == Pattern(t)[k].0
            && hwk.buzzerTid.n in fk.armed
            && fk.armed[hwk.buzzerTid.n] == TimerEntry(Pattern(t)[k].1, BuzzerTimerCb))
      && (k >= |Pattern(t)| ==> hwk.buzzerTid == TimerInvalid && hwk.beepType == BeepOff && !fk.pwmOn)
      && fk.halted == f.halted && TimersFresh(fk)
  {
    var (hw0, f0) := HwSoundBuzzer(hw, f, t);
    if k > 0 {
      PatternPlays(hw, f, t, k - 1);
      var (hw1, f1) := BuzzerAfter(hw0, f0, k - 1);
      assert PatternAt(hw1, f1, t, k - 1);
      if hw1.buzzerTid.Timer? {
        ExpiryAdvancesPattern(hw1, f1, t, k - 1);
        assert BuzzerAfter(hw0, f0, k) == BuzzerExpire(hw1, f1);
      }
    }
  }

  // ---- buttons ------------------------------------------------------------

  predicate Has(x: bv32, mask: bv32)
  {
    x & mask != 0
  }

  /** The switch byte HandlePIOChangedEvent reports: all ones, with one bit
      cleared for each button edge. `leftTimerRunning` says whether the
      left button's press timer was running. */
  function SwitchByte(cause: bv32, level: bv32, leftTimerRunning: bool): bv8
  {
    var s0: bv8 := 0xFF;
    var s1 :=
      if !Has(cause, BUTTON_LEFT_MASK) then s0
      else if !Has(level, BUTTON_LEFT_MASK) then s0 & 0xBF
      else if leftTimerRunning then s0 & 0x7F
      else s0;
    var s2 :=
      if !Has(cause, BUTTON_RIGHT_MASK) then s1
      else if Has(level, BUTTON_RIGHT_MASK) then s1 & 0xDF
      else s1 & 0xEF;
    var s3 :=
      if !Has(cause, BUTTON_FASTER_MASK) then s2
      else if Has(level, BUTTON_FASTER_MASK) then s2 & 0xF7
      else s2 & 0xFB;
    if !Has(cause, BUTTON_BRAKE_MASK) then s3
    else if Has(level, BUTTON_BRAKE_MASK) then s3 & 0xFD
    else s3 & 0xFE
  }

  /** Which edge clears bit `i` of the switch byte. */
  predicate ClearsBit(i: nat, cause: bv32, level: bv32, leftTimerRunning: bool)
  {
    match i
    case 7 => Has(cause, BUTTON_LEFT_MASK) && Has(level, BUTTON_LEFT_MASK) && leftTimerRunning
    case 6 => Has(cause, BUTTON_LEFT_MASK) && !Has(level, BUTTON_LEFT_MASK)
    case 5 => Has(cause, BUTTON_RIGHT_MASK) && Has(level, BUTTON_RIGHT_MASK)
    case 4 => Has(cause, BUTTON_RIGHT_MASK) && !Has(level, BUTTON_RIGHT_MASK)
    case 3 => Has(cause, BUTTON_FASTER_MASK) && Has(level, BUTTON_FASTER_MASK)
    case 2 => Has(cause, BUTTON_FASTER_MASK) && !Has(level, BUTTON_FASTER_MASK)
    case 1 => Has(cause, BUTTON_BRAKE_MASK) && Has(level, BUTTON_BRAKE_MASK)
    case 0 => Has(cause, BUTTON_BRAKE_MASK) && !Has(level, BUTTON_BRAKE_MASK)
    case _ => false
  }

  function Bit(b: bv8, i: nat): bool
    requires i < 8
  {
    (b >> i) & 1 == 1
  }

  /** Every bit of the switch byte is clear exactly when its edge occurred. */
  lemma SwitchByteBits(cause: bv32, level: bv32, running: bool, i: nat)
    requires i < 8
    ensures !Bit(SwitchByte(cause, level, running), i) <==> ClearsBit(i, cause, level, running)
  {
    var l, r, fa, br := Has(cause, BUTTON_LEFT_MASK), Has(cause, BUTTON_RIGHT_MASK),
                        Has(cause, BUTTON_FASTER_MASK), Has(cause, BUTTON_BRAKE_MASK);
    var lh, rh, fh, bh := Has(level, BUTTON_LEFT_MASK), Has(level, BUTTON_RIGHT_MASK),
                          Has(level, BUTTON_FASTER_MASK), Has(level, BUTTON_BRAKE_MASK);
    var a: bv8 := if !l then 0xFF else if !lh then 0xBF else if running then 0x7F else 0xFF;
    var b: bv8 := if !r then 0xFF else if rh then 0xDF else 0xEF;
    var c: bv8 := if !fa then 0xFF else if fh then 0xF7 else 0xFB;
    var d: bv8 := if !br then 0xFF else if bh then 0xFD else 0xFE;
    assert SwitchByte(cause, level, running) == a & b & c & d;
  }

  /** A press counter and the last known level of its button: the counter
      moves only on a transition from up to down, and wraps from 0xFF to 0. */
  function CountEdge(st: ButtonState, count: Byte, high: bool): (r: (ButtonState, Byte))
    ensures r.0 == if high then ButtonUp else ButtonDown
    ensures r.1 == if !high && st == ButtonUp then (count + 1) % 0x100 else count
  {
    if high then (ButtonUp, count)
    else
      var valid := st == ButtonUp;
      (ButtonDown, if valid then (if count == 0xFF then 0 else count + 1) else count)
  }

  /** The number of up-to-down transitions in a run of levels, starting from `st`. */
  function Falls(st: ButtonState, levels: seq<bool>): nat
    decreases |levels|
  {
    if levels == [] then 0
    else
      var hi := levels[|levels| - 1];
      var prev := if |levels| == 1 then st else if levels[|levels| - 2] then ButtonUp else ButtonDown;
      Falls(st, levels[..|levels| - 1]) + (if !hi && prev == ButtonUp then 1 else 0)
  }

  /** The counter after a run of edges on its button. */
  function CountRun(st: ButtonState, count: Byte, levels: seq<bool>): (ButtonState, Byte)
    decreases |levels|
  {
    if levels == [] then (st, count)
    else
      var (st1, c1) := CountRun(st, count, levels[..|levels| - 1]);
      CountEdge(st1, c1, levels[|levels| - 1])
  }

  /** A counter counts, modulo 256, exactly the up-to-down transitions of its
      button; in particular it never counts the first press after power-on,
      when the button state is unknown. */
  lemma {:induction false} CountRunCounts(st: ButtonState, count: Byte, levels: seq<bool>)
    ensures CountRun(st, count, levels).1 == (count + Falls(st, levels)) % 0x100
    ensures levels != [] ==> CountRun(st, count, levels).0 == (if levels[|levels| - 1] then ButtonUp else ButtonDown)
    ensures levels == [] ==> CountRun(st, count, levels).0 == st
    decreases |levels|
  {
    if levels != [] {
      var init := levels[..|levels| - 1];
      CountRunCounts(st, count, init);
      var (st1, c1) := CountRun(st, count, init);
      var prev := if |levels| == 1 then st else if levels[|levels| - 2] then ButtonUp else ButtonDown;
      if |levels| > 1 {
        assert init[|init| - 1] == levels[|levels| - 2];
      }
      assert st1 == prev;
      ByteIncrement(count + Falls(st, init));
    }
  }

  /** The left button: a press (re)arms the extra-long press timer; a
      release while it runs cancels it. */
  function LeftButtonEdge(hw: HwState, f: FwState, cause: bv32, level: bv32): (HwState, FwState)
  {
    if !Has(cause, BUTTON_LEFT_MASK) then (hw, f)
    else if !Has(level, BUTTON_LEFT_MASK) then
      var f0 := WithoutTimer(f, hw.buttonTid);
      (hw.(buttonTid := NewTimer(f0)), WithTimer(f0, EXTRA_LONG_BUTTON_PRESS_TIMER, ExtraLongButtonPressCb))
    else if hw.buttonTid.Timer? then (hw.(buttonTid := TimerInvalid), WithoutTimer(f, hw.buttonTid))
    else (hw, f)
  }

  /** The GHG and BP counters. */
  function CountersEdge(hw: HwState, cause: bv32, level: bv32): HwState
  {
    var (gs, gc) := if Has(cause, BUTTON_GHG_MASK) then CountEdge(hw.ghgState, hw.ghgCount, Has(level, BUTTON_GHG_MASK))
                    else (hw.ghgState, hw.ghgCount);
    var (bs, bc) := if Has(cause, BUTTON_BP_MASK) then CountEdge(hw.bpState, hw.bpCount, Has(level, BUTTON_BP_MASK))
                    else (hw.bpState, hw.bpCount);
    hw.(ghgState := gs, ghgCount := gc, bpState := bs, bpCount := bc)
  }

  /** HandlePIOChangedEvent: the new state, the firmware, and val[1..5]. */
  function HwPioChanged(hw: HwState, f: FwState, cause: bv32, level: bv32): (HwState, FwState, seq<Byte>)
  {
    var battLevel := BatteryService.ReadBatteryLevel(f.voltage);
    var (hw1, f1) := LeftButtonEdge(hw, f, cause, level);
    var hw2 := CountersEdge(hw1, cause, level);
    (hw2, f1, [hw2.bpCount, hw2.ghgCount, SwitchByte(cause, level, hw.buttonTid.Timer?) as int, battLevel])
  }

  /** The record HandlePIOChangedEvent builds: the press counters, the switch
      byte and the battery level; the timer the left button arms is a fresh
      extra-long press timer, and the buzzer is untouched. */
  lemma PioChangedOutput(hw: HwState, f: FwState, cause: bv32, level: bv32)
    requires TimersFresh(f) && Issued(f, hw.buttonTid)
    ensures var (hw', f', val) := HwPioChanged(hw, f, cause, level);
      && |val| == 4
      && val[0] == hw'.bpCount && val[1] == hw'.ghgCount
      && val[2] == SwitchByte(cause, level, hw.buttonTid.Timer?) as int
      && val[3] == BatteryService.ReadBatteryLevel(f.voltage)
      && (Has(cause, BUTTON_LEFT_MASK) && !Has(level, BUTTON_LEFT_MASK) ==>
            hw'.buttonTid == Timer(f.nextTimer)
            && f'.armed[f.nextTimer] == TimerEntry(EXTRA_LONG_BUTTON_PRESS_TIMER, ExtraLongButtonPressCb))
      && (Has(cause, BUTTON_LEFT_MASK) && Has(level, BUTTON_LEFT_MASK) ==> hw'.buttonTid == TimerInvalid)
      && (hw.buttonTid.Timer? && Has(cause, BUTTON_LEFT_MASK) ==> hw.buttonTid.n !in f'.armed)
      && (!Has(cause, BUTTON_GHG_MASK) ==> hw'.ghgCount == hw.ghgCount && hw'.ghgState == hw.ghgState)
      && (!Has(cause, BUTTON_BP_MASK) ==> hw'.bpCount == hw.bpCount && hw'.bpState == hw.bpState)
      && hw'.buzzerTid == hw.buzzerTid && hw'.beepType == hw.beepType && hw'.beepCount == hw.beepCount
      && f'.log == f.log && f'.pwmOn == f.pwmOn && f'.nvm == f.nvm && f'.halted == f.halted && TimersFresh(f')
  {
  }

  /** HtHwDataInit */
  function HtHwDataInit(hw: HwState, f: FwState): (HwState, FwState)
  {
    (hw.(buttonTid := TimerInvalid), WithoutTimer(f, hw.buttonTid))
  }

  // ---- the hardware object ----------------------------------------------

  class HwData {
    var buzzerTid: TimerId
    var beepType: BeepType
    var beepCount: Word
    var buttonTid: TimerId
    var ghgState: ButtonState
    var bpState: ButtonState
    var ghgCount: Byte
    var bpCount: Byte
    const fw: Firmware

    function State(): HwState
      reads this
    {
      HwState(buzzerTid, beepType, beepCount, buttonTid, ghgState, bpState, ghgCount, bpCount)
    }

    constructor (fw: Firmware)
      ensures State() == HW_POWER_ON && this.fw == fw
    {
      buzzerTid := TimerInvalid;
      beepType := BeepOff;
      beepCount := 0;
      buttonTid := TimerInvalid;
      ghgState := ButtonUnknown;
      bpState := ButtonUnknown;
      ghgCount := 0;
      bpCount := 0;
      this.fw := fw;
    }

    method DataInit()
      modifies this, fw
      ensures (State(), fw.State()) == HtHwDataInit(old(State()), old(fw.State()))
    {
      fw.TimerDelete(buttonTid);
      buttonTid := TimerInvalid;
    }

    method SoundBuzzer(t: BeepType)
      modifies this, fw
      ensures (State(), fw.State()) == HwSoundBuzzer(old(State()), old(fw.State()), t)
    {
      fw.EnablePwm(false);
      fw.TimerDelete(buzzerTid);
      buzzerTid := TimerInvalid;
      beepCount := 0;
      beepType := t;
      if beepType != BeepOff {
        beepCount := 0;
        fw.EnablePwm(true);
        fw.TimerDelete(buzzerTid);
        buzzerTid := fw.TimerCreate(FirstToneLength(t), BuzzerTimerCb);
      }
    }

    /** appBuzzerTimerHandler */
    method BuzzerTimerHandler()
      modifies this, fw
      ensures (State(), fw.State()) == HwBuzzerTimerHandler(old(State()), old(fw.State()))
    {
      var beepTimer := SHORT_BEEP_TIMER_VALUE;
      buzzerTid := TimerInvalid;
      match beepType {
        case BeepShort =>
          beepType := BeepOff;
          fw.EnablePwm(false);
        case BeepLong =>
          beepType := BeepOff;
          fw.EnablePwm(false);
        case BeepTwice =>
          if beepCount == 0 {
            beepCount := 1;
            fw.EnablePwm(false);
            beepTimer := BEEP_GAP_TIMER_VALUE;
          } else if beepCount == 1 {
            beepCount := 2;
            fw.EnablePwm(true);
            beepTimer := SHORT_BEEP_TIMER_VALUE;
          } else {
            beepCount := 0;
            fw.EnablePwm(false);
            beepType := BeepOff;
          }
        case BeepThrice =>
          if beepCount == 0 || beepCount == 2 {
            beepCount := beepCount + 1;
            fw.EnablePwm(false);
            beepTimer := BEEP_GAP_TIMER_VALUE;
          } else if beepCount == 1 || beepCount == 3 {
            beepCount := beepCount + 1;
            fw.EnablePwm(true);
            beepTimer := SHORT_BEEP_TIMER_VALUE;
          } else {
            beepCount := 0;
            fw.EnablePwm(false);
            beepType := BeepOff;
          }
        case BeepOff =>
          fw.Panic(PanicUnexpectedBeepType);
          return;
      }
      if beepType != BeepOff {
        buzzerTid := fw.TimerCreate(beepTimer, BuzzerTimerCb);
      }
    }

    /** One button counter, as the GHG and BP branches update it. */
    static method CountEdgeStep(st: ButtonState, count: Byte, high: bool) returns (st': ButtonState, count': Byte)
      ensures (st', count') == CountEdge(st, count, high)
    {
      var valid := false;
      count' := count;
      if high {
        st' := ButtonUp;
      } else {
        if st == ButtonUp {
          valid := true;
        }
        st' := ButtonDown;
      }
      if valid {
        if count == 0xFF {
          count' := 0;
        } else {
          count' := count + 1;
        }
      }
    }

    method LeftButton(cause: bv32, level: bv32)
      modifies this, fw
      ensures (State(), fw.State()) == LeftButtonEdge(old(State()), old(fw.State()), cause, level)
    {
      if Has(cause, BUTTON_LEFT_MASK) {
        if !Has(level, BUTTON_LEFT_MASK) {
          fw.TimerDelete(buttonTid);
          buttonTid := fw.TimerCreate(EXTRA_LONG_BUTTON_PRESS_TIMER, ExtraLongButtonPressCb);
        } else if buttonTid != TimerInvalid {
          fw.TimerDelete(buttonTid);
          buttonTid := TimerInvalid;
        }
      }
    }

    /** The switch byte, cleared bit by bit as the buttons report edges. */
    static method SwitchBits(cause: bv32, level: bv32, leftTimerRunning: bool) returns (switchs: bv8)
      ensures switchs == SwitchByte(cause, level, leftTimerRunning)
    {
      switchs := 0xFF;
      if Has(cause, BUTTON_LEFT_MASK) {
        if !Has(level, BUTTON_LEFT_MASK) {
          switchs := switchs & 0xBF;
        } else if leftTimerRunning {
          switchs := switchs & 0x7F;
        }
      }
      if Has(cause, BUTTON_RIGHT_MASK) {
        if Has(level, BUTTON_RIGHT_MASK) {
          switchs := switchs & 0xDF;
        } else {
          switchs := switchs & 0xEF;
        }
      }
      if Has(cause, BUTTON_FASTER_MASK) {
        if Has(level, BUTTON_FASTER_MASK) {
          switchs := switchs & 0xF7;
        } else {
          switchs := switchs & 0xFB;
        }
      }
      if Has(cause, BUTTON_BRAKE_MASK) {
        if Has(level, BUTTON_BRAKE_MASK) {
          switchs := switchs & 0xFD;
        } else {
          switchs := switchs & 0xFE;
        }
      }
    }

    method Counters(cause: bv32, level: bv32)
      modifies this
      ensures State() == CountersEdge(old(State()), cause, level)
    {
      if Has(cause, BUTTON_GHG_MASK) {
        ghgState, ghgCount := CountEdgeStep(ghgState, ghgCount, Has(level, BUTTON_GHG_MASK));
      }
      if Has(cause, BUTTON_BP_MASK) {
        bpState, bpCount := CountEdgeStep(bpState, bpCount, Has(level, BUTTON_BP_MASK));
      }
    }

    /** HandlePIOChangedEvent: fills val[1..5] in place and leaves val[0] to
        the sender. The switch byte is computed from the press timer as it was
        before the left button is handled, as the source's single pass does. */
    method HandlePioChanged(cause: bv32, level: bv32, val: array<Byte>)
      requires val.Length == 5
      modifies this, fw, val
      ensures (State(), fw.State(), val[1..]) == HwPioChanged(old(State()), old(fw.State()), cause, level)
      ensures val[0] == old(val[0])
    {
      ghost var hw0, f0 := State(), fw.State();
      val[4] := BatteryService.ReadBatteryLevel(fw.voltage);
      var switchs := SwitchBits(cause, level, buttonTid != TimerInvalid);
      LeftButton(cause, level);
      ghost var (hw1, f1) := LeftButtonEdge(hw0, f0, cause, level);
      assert State() == hw1 && fw.State() == f1;
      Counters(cause, level);
      ghost var hw2 := CountersEdge(hw1, cause, level);
      assert State() == hw2;
      ghost var rec := [hw2.bpCount, hw2.ghgCount, SwitchByte(cause, level, hw0.buttonTid.Timer?) as int,
                        BatteryService.ReadBatteryLevel(f0.voltage)];
      assert HwPioChanged(hw0, f0, cause, level) == (hw2, f1, rec);
      val[3] := switchs as int;
      val[2] := ghgCount;
      val[1] := bpCount;
      assert val[1..] == rec;
    }
  }
}
