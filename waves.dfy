/** The wave state machine of the client: the parameters of a wave as functions
    of its number and the once-a-second timer tick. */
module Waves {

  /** The wave counters, and whether the wave and spawn timers are still live. */
  datatype WaveState = WaveState(
    wave: int,
    enemiesToKill: int,
    enemiesKilledThisWave: int,
    waveTimer: int,
    spawnDelay: int,
    running: bool)

  /** Milliseconds between spawns in wave `n`; the source applies no floor, so
      the delay is non-positive from wave 20 on. */
  function SpawnDelay(n: int): (ms: int)
    ensures ms <= 0 <==> n >= 20
    ensures ms < 1000 <==> n >= 1
  {
    1000 - 50 * n
  }

  /** The state right after `startWave` for wave `n`. */
  function Started(n: int): WaveState {
    WaveState(n, 10 * n, 0, 30 + 5 * n, SpawnDelay(n), true)
  }

  /** One firing of the per-second wave timer; a cancelled timer never fires. */
  function NextTick(w: WaveState): WaveState {
    if !w.running then w
    else if w.waveTimer - 1 > 0 then w.(waveTimer := w.waveTimer - 1)
    else if w.enemiesKilledThisWave < w.enemiesToKill then w.(waveTimer := w.waveTimer - 1, running := false)
    else Started(w.wave + 1)
  }

  /** `m` consecutive ticks. */
  function Ticks(w: WaveState, m: nat): WaveState {
    if m == 0 then w else NextTick(Ticks(w, m - 1))
  }

  /** Before the timer runs out each tick takes exactly one second off it and
      changes nothing else. */
  lemma {:induction false} Countdown(w: WaveState, m: nat)
    requires w.running && m < w.waveTimer
    ensures Ticks(w, m) == w.(waveTimer := w.waveTimer - m)
  {
    if m > 0 {
      Countdown(w, m - 1);
    }
  }

  /** When the timer reaches zero the wave is lost (timers cancelled, wave number
      kept) if fewer kills than the target were made, and otherwise wave n + 1
      starts. */
  lemma WaveOutcome(w: WaveState)
    requires w.running && w.waveTimer >= 1
    ensures Ticks(w, w.waveTimer as nat) ==
              if w.enemiesKilledThisWave < w.enemiesToKill
              then w.(waveTimer := 0, running := false)
              else Started(w.wave + 1)
  {
    Countdown(w, w.waveTimer as nat - 1);
  }

  /** Once cancelled, the timers stay cancelled and ticks change nothing. */
  lemma {:induction false} CancelledIsFinal(w: WaveState, m: nat)
    requires !w.running
    ensures Ticks(w, m) == w
  {
    if m > 0 {
      CancelledIsFinal(w, m - 1);
    }
  }

  /** Wave n lasts exactly 30 + 5n ticks: without kills it is lost at that tick
      and not before, and with at least 10n kills wave n + 1 starts at that tick. */
  lemma WaveLifetime(n: int, kills: int)
    requires n >= 1
    ensures var w := Started(n).(enemiesKilledThisWave := kills);
            && (forall m: nat :: m < 30 + 5 * n ==> Ticks(w, m).running && Ticks(w, m).wave == n)
            && (kills < 10 * n ==> Ticks(w, 30 + 5 * n) == w.(waveTimer := 0, running := false))
            && (kills >= 10 * n ==> Ticks(w, 30 + 5 * n) == Started(n + 1))
  {
    var w := Started(n).(enemiesKilledThisWave := kills);
    forall m: nat | m < 30 + 5 * n
      ensures Ticks(w, m).running && Ticks(w, m).wave == n
    {
      Countdown(w, m);
    }
    WaveOutcome(w);
  }
}
