/** The LED driver of platform/driver_led.c with the PWM and GPIO writes dropped: an
    on/off state and a fade that moves an 8-bit brightness level one step each time
    its step timer expires. Times are microseconds since boot. */
module LedDriver {

  datatype LedState = LedOff | LedOn

  const LEVEL_MAX: int := 255
  const UINT32_MAX: int := 0xffff_ffff

  /** The fade fields of the driver: `fade_level`, `fade_target`, `fade_in_progress`. */
  datatype Fade = Fade(level: int, target: int, inProgress: bool)

  predicate InRange(f: Fade) {
    0 <= f.level <= LEVEL_MAX && 0 <= f.target <= LEVEL_MAX
  }

  function Distance(f: Fade): nat {
    if f.level <= f.target then f.target - f.level else f.level - f.target
  }

  /** What `led_process_fade` does to the fade fields once its timer has been reached. */
  function FadeStep(f: Fade): (g: Fade)
    ensures g.target == f.target
    ensures !f.inProgress ==> g == f
    ensures f.inProgress && f.level == f.target ==> g == f.(inProgress := false)
    ensures f.inProgress && f.level != f.target ==>
      g.inProgress && Distance(g) + 1 == Distance(f)
      && (g.level == f.level + 1 || g.level == f.level - 1)
  {
    if !f.inProgress then f
    else if f.level == f.target then f.(inProgress := false)
    else if f.target > f.level then f.(level := f.level + 1)
    else f.(level := f.level - 1)
  }

  /** `n` consecutive reached-timer calls. */
  function Steps(f: Fade, n: nat): Fade
    decreases n
  {
    if n == 0 then f else Steps(FadeStep(f), n - 1)
  }

  /** A fade never leaves the 0..255 range of the PWM level. */
  lemma FadeStepInRange(f: Fade)
    requires InRange(f)
    ensures InRange(FadeStep(f))
  {
  }

  lemma {:induction false} StepsInRange(f: Fade, n: nat)
    requires InRange(f)
    ensures InRange(Steps(f, n))
    decreases n
  {
    if n > 0 {
      FadeStepInRange(f);
      StepsInRange(FadeStep(f), n - 1);
    }
  }

  /** Once a fade has ended, further steps change nothing. */
  lemma {:induction false} StepsWhenEnded(f: Fade, n: nat)
    requires !f.inProgress
    ensures Steps(f, n) == f
    decreases n
  {
    if n > 0 {
      StepsWhenEnded(FadeStep(f), n - 1);
    }
  }

  /** A fade ends after its distance plus one reached-timer steps, and rests on its target. */
  lemma {:induction false} FadeEnds(f: Fade)
    ensures !Steps(f, Distance(f) + 1).inProgress
    ensures f.inProgress ==> Steps(f, Distance(f) + 1).level == f.target
    decreases Distance(f)
  {
    if !f.inProgress {
      StepsWhenEnded(f, Distance(f) + 1);
    } else if f.level == f.target {
      StepsWhenEnded(FadeStep(f), 0);
    } else {
      FadeEnds(FadeStep(f));
    }
  }

  /** Every fade within the PWM range is over after at most 256 reached-timer steps. */
  lemma FadeEndsWithin256(f: Fade)
    requires InRange(f)
    ensures !Steps(f, LEVEL_MAX + 1).inProgress
  {
    var d := Distance(f) + 1;
    FadeEnds(f);
    StepsSplit(f, d, LEVEL_MAX + 1 - d);
    StepsWhenEnded(Steps(f, d), LEVEL_MAX + 1 - d);
  }

  lemma {:induction false} StepsSplit(f: Fade, m: nat, n: nat)
    ensures Steps(f, m + n) == Steps(Steps(f, m), n)
    decreases m
  {
    if m > 0 {
      StepsSplit(FadeStep(f), m - 1, n);
    }
  }

  /** The struct `DriverLed`, without its function-pointer table. */
  class DriverLed {
    var ledPin: int
    var ledState: LedState
    var fadeTimer: int
    var fadeLevel: int
    var fadeTarget: int
    var fadeStepTime: int
    var fadeInProgress: bool

    ghost predicate Valid()
      reads this
    {
      InRange(FadeView()) && 0 <= fadeStepTime <= UINT32_MAX
    }

    function FadeView(): Fade
      reads this
    {
      Fade(fadeLevel, fadeTarget, fadeInProgress)
    }

    /** A zero-initialised driver, as the static `leds` array provides before `led_init`. */
    constructor ()
      ensures Valid()
      ensures ledPin == 0 && ledState == LedOff && FadeView() == Fade(0, 0, false)
      ensures fadeTimer == 0 && fadeStepTime == 0
    {
      ledPin, ledState, fadeTimer := 0, LedOff, 0;
      fadeLevel, fadeTarget, fadeStepTime, fadeInProgress := 0, 0, 0, false;
    }

    /** `led_init`: record the pin, switch off, and stop any fade. */
    method Init(gpioPin: int)
      requires Valid()
      modifies this
      ensures Valid()
      ensures ledPin == gpioPin && ledState == LedOff && !fadeInProgress
      ensures fadeLevel == old(fadeLevel) && fadeTarget == old(fadeTarget)
      ensures fadeTimer == old(fadeTimer) && fadeStepTime == old(fadeStepTime)
    {
      ledPin := gpioPin;
      ledState := LedOff;
      fadeInProgress := false;
    }

    /** `led_on`. */
    method On()
      modifies this`ledState
      ensures ledState == LedOn
    {
      ledState := LedOn;
    }

    /** `led_off`. */
    method Off()
      modifies this`ledState
      ensures ledState == LedOff
    {
      ledState := LedOff;
    }

    /** `led_toggle`: off when it was on, on otherwise. */
    method Toggle()
      modifies this`ledState
      ensures ledState == (if old(ledState) == LedOn then LedOff else LedOn)
      ensures ledState != old(ledState)
    {
      if ledState == LedOn {
        Off();
      } else {
        On();
      }
    }

    /** `led_fade_in`: start from dark towards full brightness, one step every
        `duration / 255` milliseconds (integer division). */
    method FadeIn(durationMs: int, now: int)
      requires Valid() && 0 <= durationMs <= UINT32_MAX
      modifies this`fadeInProgress, this`fadeTarget, this`fadeLevel, this`fadeStepTime, this`fadeTimer
      ensures Valid()
      ensures FadeView() == Fade(0, LEVEL_MAX, true)
      ensures fadeStepTime == durationMs / 255
      ensures fadeTimer == now + fadeStepTime * 1000
    {
      fadeInProgress := true;
      fadeTarget := 255;
      fadeLevel := 0;
      fadeStepTime := durationMs / 255;
      fadeTimer := now + fadeStepTime * 1000;
    }

    /** `led_fade_out`: the same from full brightness towards dark. */
    method FadeOut(durationMs: int, now: int)
      requires Valid() && 0 <= durationMs <= UINT32_MAX
      modifies this`fadeInProgress, this`fadeTarget, this`fadeLevel, this`fadeStepTime, this`fadeTimer
      ensures Valid()
      ensures FadeView() == Fade(LEVEL_MAX, 0, true)
      ensures fadeStepTime == durationMs / 255
      ensures fadeTimer == now + fadeStepTime * 1000
    {
      fadeInProgress := true;
      fadeTarget := 0;
      fadeLevel := 255;
      fadeStepTime := durationMs / 255;
      fadeTimer := now + fadeStepTime * 1000;
    }

    /** `led_process_fade` at time `now`: nothing happens unless a fade is in progress and
        its timer has been reached; then one `FadeStep`, re-arming the timer after a move. */
    method ProcessFade(now: int)
      requires Valid()
      modifies this`fadeInProgress, this`fadeLevel, this`fadeTimer
      ensures Valid()
      ensures var reached := old(fadeInProgress) && now >= old(fadeTimer);
        FadeView() == (if reached then FadeStep(old(FadeView())) else old(FadeView()))
        && fadeTimer == (if reached && old(fadeLevel) != old(fadeTarget)
                         then now + fadeStepTime * 1000 else old(fadeTimer))
    {
      if fadeInProgress && now >= fadeTimer {
        if fadeLevel == fadeTarget {
          fadeInProgress := false;
        } else {
          if fadeTarget > fadeLevel {
            fadeLevel := fadeLevel + 1;
          } else {
            fadeLevel := fadeLevel - 1;
          }
          fadeTimer := now + fadeStepTime * 1000;
        }
      }
    }
  }

  /** Two toggles give back the state the LED had. */
  method ToggleTwice(d: DriverLed)
    modifies d`ledState
    ensures d.ledState == old(d.ledState)
  {
    d.Toggle();
    d.Toggle();
  }
}
