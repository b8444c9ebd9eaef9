/**
 * The mechanical-clock sounds: which cue each countdown tick plays (a warning
 * tick in the last ten seconds, otherwise alternating tick and tock, nothing
 * once time is up or when the second has not changed), the single ticking
 * interval, and the on/off switch that silences every sound. The Web Audio
 * synthesis is not modelled; a sound is reduced to whether it is audible.
 */
module Sound {

  /** What one countdown tick plays. */
  datatype Cue = WarningTick | Tick | Tock | Silent

  /** The sounds the manager can play. */
  datatype Kind = TickSound | TockSound | WarningSound | Buzzer | Chime

  /** The closure state of the ticking interval. */
  datatype TickerState = TickerState(isTick: bool, lastSeconds: int)

  /** The state a ticking interval starts from. */
  function InitialTicker(secondsRemaining: int): TickerState
  {
    TickerState(true, secondsRemaining)
  }

  /**
   * One tick, on the seconds left: the cue it plays and the closure state after.
   * A changed reading is remembered, and only a reading above ten flips tick and tock.
   */
  function Decide(state: TickerState, seconds: int): (r: (Cue, TickerState))
    ensures seconds == state.lastSeconds ==> r == (Silent, state)
    ensures seconds != state.lastSeconds ==> r.1.lastSeconds == seconds
    ensures seconds != state.lastSeconds && 0 < seconds <= 10 ==> r.0 == WarningTick && r.1.isTick == state.isTick
    ensures seconds != state.lastSeconds && seconds <= 0 ==> r.0 == Silent && r.1.isTick == state.isTick
    ensures seconds != state.lastSeconds && seconds > 10 ==>
      r.0 == (if state.isTick then Tick else Tock) && r.1.isTick == !state.isTick
  {
    if seconds == state.lastSeconds then (Silent, state)
    else if 0 < seconds <= 10 then (WarningTick, TickerState(state.isTick, seconds))
    else if seconds > 10 then (if state.isTick then Tick else Tock, TickerState(!state.isTick, seconds))
    else (Silent, TickerState(state.isTick, seconds))
  }

  /** The cues of successive ticks on the given readings. */
  function Cues(state: TickerState, readings: seq<int>): seq<Cue>
    decreases |readings|
  {
    if readings == [] then []
    else
      var (cue, next) := Decide(state, readings[0]);
      [cue] + Cues(next, readings[1..])
  }

  /** The closure state after successive ticks on the given readings. */
  function After(state: TickerState, readings: seq<int>): TickerState
    decreases |readings|
  {
    if readings == [] then state else After(Decide(state, readings[0]).1, readings[1..])
  }

  /** Each reading differs from the one before it, the first from `last`. */
  predicate AllChanged(last: int, readings: seq<int>)
  {
    && (|readings| > 0 ==> readings[0] != last)
    && forall i :: 0 < i < |readings| ==> readings[i] != readings[i - 1]
  }

  /**
   * While every reading is above ten and changes, the cues alternate tick,
   * tock, tick, ... beginning with tick when `isTick` is set.
   */
  lemma {:induction false} TickTockAlternates(state: TickerState, readings: seq<int>)
    requires forall i :: 0 <= i < |readings| ==> readings[i] > 10
    requires AllChanged(state.lastSeconds, readings)
    ensures |Cues(state, readings)| == |readings|
    ensures forall i :: 0 <= i < |readings| ==>
      Cues(state, readings)[i] == (if (i % 2 == 0) == state.isTick then Tick else Tock)
    decreases |readings|
  {
    if readings != [] {
      var next := Decide(state, readings[0]).1;
      assert next == TickerState(!state.isTick, readings[0]);
      assert AllChanged(next.lastSeconds, readings[1..]) by {
        if |readings| > 1 {
          assert readings[1] != readings[0];
        }
        forall i | 0 < i < |readings[1..]|
          ensures readings[1..][i] != readings[1..][i - 1]
        {
          assert readings[1..][i] == readings[i + 1];
        }
      }
      TickTockAlternates(next, readings[1..]);
      var cs := Cues(state, readings);
      forall i | 0 <= i < |readings|
        ensures cs[i] == (if (i % 2 == 0) == state.isTick then Tick else Tock)
      {
        if i > 0 {
          assert cs[i] == Cues(next, readings[1..])[i - 1];
        }
      }
    }
  }

  /** A reading that repeats the last one plays nothing and changes nothing. */
  lemma {:induction false} RepeatsAreSilent(state: TickerState, n: nat)
    ensures Cues(state, seq(n, _ => state.lastSeconds)) == seq(n, _ => Silent)
    ensures After(state, seq(n, _ => state.lastSeconds)) == state
  {
    if n > 0 {
      var rs := seq(n, _ => state.lastSeconds);
      assert rs[1..] == seq(n - 1, _ => state.lastSeconds);
      RepeatsAreSilent(state, n - 1);
      assert seq(n, _ => Silent) == [Silent] + seq(n - 1, _ => Silent);
    }
  }

  class SoundManager {
    var enabled: bool
    /** An `AudioContext` could be created. */
    const audioAvailable: bool
    /** The countdown ticking interval is armed. */
    var ticking: bool
    var ticker: TickerState

    /** Sound starts enabled, unless the audio context cannot be created. */
    constructor (audioAvailable: bool)
      ensures this.audioAvailable == audioAvailable && enabled == audioAvailable && !ticking
    {
      this.audioAvailable := audioAvailable;
      enabled := audioAvailable;
      ticking := false;
      ticker := InitialTicker(0);
    }

    /** Every `play*` method: it makes a sound only when enabled and audio exists. */
    method Play(kind: Kind) returns (audible: bool)
      ensures audible <==> enabled && audioAvailable
    {
      if !enabled || !audioAvailable {
        return false;
      }
      audible := true;
    }

    /** `startCountdownTicking`: replaces any running interval with a fresh one. */
    method StartCountdownTicking(secondsRemaining: int)
      modifies this`ticking, this`ticker
      ensures ticking && ticker == InitialTicker(secondsRemaining)
    {
      StopCountdownTicking();
      ticker := InitialTicker(secondsRemaining);
      ticking := true;
    }

    /** `stopCountdownTicking`: no interval afterwards; stopping twice is the same as once. */
    method StopCountdownTicking()
      modifies this`ticking
      ensures !ticking
    {
      ticking := false;
    }

    /** One firing of the ticking interval on the seconds left: the cue and whether it is heard. */
    method OnTick(seconds: int) returns (cue: Cue, audible: bool)
      requires ticking
      modifies this`ticker
      ensures (cue, ticker) == Decide(old(ticker), seconds)
      ensures audible <==> cue != Silent && enabled && audioAvailable
    {
      cue := Silent;
      audible := false;
      if seconds != ticker.lastSeconds {
        if seconds <= 10 && seconds > 0 {
          cue := WarningTick;
          audible := Play(WarningSound);
        } else if seconds > 10 {
          if ticker.isTick {
            cue := Tick;
            audible := Play(TickSound);
          } else {
            cue := Tock;
            audible := Play(TockSound);
          }
          ticker := ticker.(isTick := !ticker.isTick);
        }
        ticker := ticker.(lastSeconds := seconds);
      }
    }

    /** `toggleSound`: flips the switch and returns its new position. */
    method ToggleSound() returns (nowEnabled: bool)
      modifies this`enabled
      ensures enabled == !old(enabled) && nowEnabled == enabled
    {
      enabled := !enabled;
      nowEnabled := enabled;
    }
  }
}
