/**
 * The title screen (src/pages/Home.tsx): the `isLoading` slot, the loading
 * overlay it drives, and the "press start" sequence that ends in navigation
 * to the world map. The async handler is modelled by the point at which it is
 * suspended; the audio, the timer and the clock are events from outside.
 */
module Home {
  import AppRoutes

  /** The observable steps of one press, in the order the handler performs them. */
  datatype Effect = ChestCue | LoadingShown | SoundtrackStarted | TimerStarted(ms: nat) | Navigated(path: string)

  datatype Event = Event(effect: Effect, at: nat)

  /** The dramatic-effect delay, in milliseconds. */
  const LoadingDelayMs: nat := 2000

  const Destination: string := "/world-map"

  const PressStartScript: seq<Effect> :=
    [ChestCue, LoadingShown, SoundtrackStarted, TimerStarted(LoadingDelayMs), Navigated(Destination)]

  /** Where the pending handlePressStart is suspended, if one has begun. */
  datatype Phase = Ready | AwaitingSoundtrack | AwaitingTimer(due: nat) | Done

  /** How much of the script has been performed when the handler is at `ph`. */
  function StepsDone(ph: Phase): (n: nat)
    ensures n <= |PressStartScript|
    ensures n == |PressStartScript| <==> ph == Done
  {
    match ph
    case Ready => 0
    case AwaitingSoundtrack => 3
    case AwaitingTimer(_) => 4
    case Done => 5
  }

  /** The number of navigations in a list of effects. */
  function Navigations(s: seq<Effect>): (n: nat)
    ensures n <= |s|
  {
    if s == [] then 0 else (if s[0].Navigated? then 1 else 0) + Navigations(s[1..])
  }

  class HomeScreen {
    var isLoading: bool
    var phase: Phase
    /** The abstract clock, in milliseconds. */
    var now: nat
    /** The effects performed so far, each with the time it happened. */
    var log: seq<Event>

    ghost predicate Valid()
      reads this
    {
      && (phase == Ready <==> !isLoading)
      && |log| == StepsDone(phase)
      && (forall k | 0 <= k < |log| :: log[k].effect == PressStartScript[k] && log[k].at <= now)
      && (phase.AwaitingTimer? ==> phase.due == log[3].at + LoadingDelayMs && log[0].at <= log[3].at)
      && (phase == Done ==> log[0].at + LoadingDelayMs <= log[4].at)
    }

    constructor (start: nat)
      ensures Valid()
      ensures !isLoading && phase == Ready && now == start && log == []
    {
      isLoading := false;
      phase := Ready;
      now := start;
      log := [];
    }

    /**
     * The LoadingScreen overlay is rendered exactly while `isLoading` holds:
     * from the moment a press has begun the script, and never before.
     */
    function OverlayVisible(): (visible: bool)
      requires Valid()
      reads this
      ensures visible <==> |log| > 0
      ensures visible ==> log[0].effect == ChestCue
    {
      isLoading
    }

    /** The PRESS START button is disabled while loading, that is, while a press handler is pending or has finished. */
    function StartDisabled(): (disabled: bool)
      requires Valid()
      reads this
      ensures disabled <==> phase != Ready
    {
      isLoading
    }

    /**
     * A click on PRESS START: ignored while the button is disabled; otherwise
     * the chest cue, `isLoading := true` and the soundtrack start happen at once
     * and the handler suspends on the soundtrack.
     */
    method PressStart()
      requires Valid()
      modifies this
      ensures Valid()
      ensures old(isLoading) ==> phase == old(phase) && log == old(log) && isLoading
      ensures !old(isLoading) ==> isLoading && phase == AwaitingSoundtrack
      ensures !old(isLoading) ==> log == [Event(ChestCue, now), Event(LoadingShown, now), Event(SoundtrackStarted, now)]
      ensures now == old(now)
    {
      if isLoading {
        return;
      }
      log := [Event(ChestCue, now)];
      isLoading := true;
      log := log + [Event(LoadingShown, now), Event(SoundtrackStarted, now)];
      phase := AwaitingSoundtrack;
    }

    /**
     * The soundtrack promise settles. A failed play is caught inside the audio
     * hook, so `played` does not matter: the 2000 ms timer starts either way.
     */
    method SoundtrackSettled(played: bool)
      requires Valid() && phase == AwaitingSoundtrack
      modifies this
      ensures Valid()
      ensures phase == AwaitingTimer(now + LoadingDelayMs)
      ensures log == old(log) + [Event(TimerStarted(LoadingDelayMs), now)]
      ensures isLoading && now == old(now)
    {
      log := log + [Event(TimerStarted(LoadingDelayMs), now)];
      phase := AwaitingTimer(now + LoadingDelayMs);
    }

    /** Time passes. */
    method Elapse(ms: nat)
      requires Valid()
      modifies this
      ensures Valid()
      ensures now == old(now) + ms
      ensures isLoading == old(isLoading) && phase == old(phase) && log == old(log)
    {
      now := now + ms;
    }

    /**
     * The timer resolves: navigate to the world map. The soundtrack is not
     * stopped and `isLoading` is not reset.
     */
    method TimerFired()
      requires Valid() && phase.AwaitingTimer? && phase.due <= now
      modifies this
      ensures Valid()
      ensures phase == Done && isLoading && now == old(now)
      ensures log == old(log) + [Event(Navigated(Destination), now)]
      ensures log[4].at >= log[0].at + LoadingDelayMs
    {
      log := log + [Event(Navigated(Destination), now)];
      phase := Done;
    }
  }

  /** Navigation is the last step of the script and happens at most once in any prefix of it. */
  lemma {:induction false} NavigatesOnceAtEnd(k: nat)
    requires k <= |PressStartScript|
    ensures Navigations(PressStartScript[..k]) == if k == |PressStartScript| then 1 else 0
  {
    var s := PressStartScript[..k];
    if k > 0 {
      NavigatesOnceAtEnd(k - 1);
      NavigationsSnoc(PressStartScript[..k - 1], PressStartScript[k - 1]);
      assert s == PressStartScript[..k - 1] + [PressStartScript[k - 1]];
    }
  }

  lemma {:induction false} NavigationsSnoc(s: seq<Effect>, e: Effect)
    ensures Navigations(s + [e]) == Navigations(s) + if e.Navigated? then 1 else 0
  {
    if s != [] {
      NavigationsSnoc(s[1..], e);
      assert (s + [e])[1..] == s[1..] + [e];
    }
  }

  /** The press-start sequence lands on a registered route. */
  lemma DestinationRegistered()
    ensures AppRoutes.Registered(Destination)
  {
    assert AppRoutes.Routes[1] == Destination;
  }

  /**
   * A press, a second press 100 ms later, the soundtrack settling, and the
   * timer: one navigation in all, no earlier than 2000 ms after the first press.
   */
  method DoublePressScenario(played: bool)
  {
    var home := new HomeScreen(0);
    assert !home.OverlayVisible();
    home.PressStart();
    home.Elapse(100);
    assert home.StartDisabled();
    home.PressStart();
    home.SoundtrackSettled(played);
    home.Elapse(500);
    assert home.OverlayVisible();
    home.Elapse(1500);
    home.TimerFired();
    assert home.log[4] == Event(Navigated(Destination), 2100);
    assert home.log[4].at >= home.log[0].at + LoadingDelayMs;
  }
}
