/**
 * The torch survival loop: a frame-driven state machine that burns the
 * player's torch down with elapsed time and ends the battle, firing the
 * game-over callback, when the torch runs out.
 */
module GameLoop {
  import PlayerStore

  /** Torch lost per reference frame of `FrameMs` milliseconds. */
  const DecayRate: real := 0.05
  const FrameMs: real := 16.0
  /** Torch restored and coins credited by a correct answer; torch lost by a wrong one. */
  const CorrectRecovery: real := 15.0
  const CorrectReward: int := 10
  const WrongPenalty: real := 20.0

  /** Torch burnt over `elapsed` milliseconds. */
  function Decay(elapsed: real): (d: real)
    ensures elapsed >= 0.0 ==> d >= 0.0
    ensures elapsed == FrameMs ==> d == DecayRate
  {
    DecayRate * (elapsed / FrameMs)
  }

  /** What one frame callback reads and writes: whether the loop runs, the previous
      frame time, the torch, and how often the game-over callback has fired. */
  datatype LoopState = LoopState(running: bool, lastTime: real, torch: real, gameOvers: nat)

  /** One frame callback at `timestamp`. */
  function Step(s: LoopState, timestamp: real): (r: LoopState)
    ensures !s.running ==> r == s
    ensures s.running ==> r.lastTime == timestamp
    ensures s.running ==> (r.running <==> s.torch - Decay(timestamp - s.lastTime) > 0.0)
    ensures s.running && r.running ==> r.torch == s.torch - Decay(timestamp - s.lastTime) > 0.0
                                       && r.gameOvers == s.gameOvers
    ensures s.running && !r.running ==> r.torch == 0.0 && r.gameOvers == s.gameOvers + 1
  {
    if !s.running then s
    else
      var torch := s.torch - Decay(timestamp - s.lastTime);
      if torch <= 0.0 then LoopState(false, timestamp, 0.0, s.gameOvers + 1)
      else LoopState(true, timestamp, torch, s.gameOvers)
  }

  /** The frame callbacks at `timestamps`, in order. */
  function Run(s: LoopState, timestamps: seq<real>): LoopState
    decreases |timestamps|
  {
    if timestamps == [] then s else Run(Step(s, timestamps[0]), timestamps[1..])
  }

  /** Frame times that never go backwards, starting from `from`. */
  predicate Chronological(from: real, timestamps: seq<real>)
    decreases |timestamps|
  {
    timestamps == [] || (from <= timestamps[0] && Chronological(timestamps[0], timestamps[1..]))
  }

  function Last(timestamps: seq<real>): real
    requires timestamps != []
  {
    timestamps[|timestamps| - 1]
  }

  function MaxReal(a: real, b: real): real
  {
    if a >= b then a else b
  }

  // ----- lemmas about sequences of frames -----

  /** Once stopped, frames change nothing until the next start. */
  lemma {:induction false} StoppedLoopIgnoresFrames(s: LoopState, timestamps: seq<real>)
    requires !s.running
    ensures Run(s, timestamps) == s
    decreases |timestamps|
  {
    if timestamps != [] {
      StoppedLoopIgnoresFrames(Step(s, timestamps[0]), timestamps[1..]);
    }
  }

  /** The game-over callback fires at most once, exactly when a running loop stops,
      and the torch is then exactly 0. */
  lemma {:induction false} GameOverAtMostOnce(s: LoopState, timestamps: seq<real>)
    ensures Run(s, timestamps).gameOvers <= s.gameOvers + 1
    ensures Run(s, timestamps).gameOvers == s.gameOvers + 1 <==> s.running && !Run(s, timestamps).running
    ensures s.running && !Run(s, timestamps).running ==> Run(s, timestamps).torch == 0.0
    decreases |timestamps|
  {
    if timestamps != [] {
      var s' := Step(s, timestamps[0]);
      if s'.running {
        GameOverAtMostOnce(s', timestamps[1..]);
      } else {
        StoppedLoopIgnoresFrames(s', timestamps[1..]);
      }
    }
  }

  /** With frame times in order the torch never rises: frames only burn it or
      clamp it to 0, so it stays below any bound it started below. */
  lemma {:induction false} TorchNeverRises(s: LoopState, timestamps: seq<real>, maxTorch: real)
    requires Chronological(s.lastTime, timestamps)
    requires s.torch <= maxTorch && 0.0 <= maxTorch
    ensures Run(s, timestamps).torch <= MaxReal(s.torch, 0.0)
    ensures Run(s, timestamps).torch <= maxTorch
    decreases |timestamps|
  {
    if timestamps != [] {
      var s' := Step(s, timestamps[0]);
      assert s'.lastTime == timestamps[0] || s' == s;
      TorchNeverRises(s', timestamps[1..], maxTorch);
    }
  }

  /** Decay depends on elapsed time only, not on how many frames it is split into:
      a loop still running after its frames has lost exactly the decay of the whole span. */
  lemma {:induction false} DecayIsFrameRateIndependent(s: LoopState, timestamps: seq<real>)
    requires s.running && timestamps != []
    requires Run(s, timestamps).running
    ensures Run(s, timestamps).torch == s.torch - Decay(Last(timestamps) - s.lastTime) > 0.0
    ensures Run(s, timestamps).lastTime == Last(timestamps)
    decreases |timestamps|
  {
    var s' := Step(s, timestamps[0]);
    if !s'.running {
      StoppedLoopIgnoresFrames(s', timestamps[1..]);
    } else if |timestamps| > 1 {
      DecayIsFrameRateIndependent(s', timestamps[1..]);
      assert Last(timestamps[1..]) == Last(timestamps);
    }
  }

  lemma {:induction false} LastIsLatest(from: real, timestamps: seq<real>)
    requires timestamps != [] && Chronological(from, timestamps)
    ensures from <= timestamps[0] <= Last(timestamps)
    decreases |timestamps|
  {
    if |timestamps| > 1 {
      LastIsLatest(timestamps[0], timestamps[1..]);
    }
  }

  /** A loop whose torch outlasts the whole span of in-order frames is still running. */
  lemma {:induction false} RunsWhileTorchLasts(s: LoopState, timestamps: seq<real>)
    requires s.running && timestamps != [] && Chronological(s.lastTime, timestamps)
    requires s.torch - Decay(Last(timestamps) - s.lastTime) > 0.0
    ensures Run(s, timestamps).running
    decreases |timestamps|
  {
    LastIsLatest(s.lastTime, timestamps);
    var s' := Step(s, timestamps[0]);
    if |timestamps| > 1 {
      RunsWhileTorchLasts(s', timestamps[1..]);
    }
  }

  /** A torch that cannot outlast the span ends the battle: torch 0, one game over. */
  lemma ExhaustedTorchEndsBattle(s: LoopState, timestamps: seq<real>)
    requires s.running && timestamps != []
    requires s.torch - Decay(Last(timestamps) - s.lastTime) <= 0.0
    ensures !Run(s, timestamps).running
    ensures Run(s, timestamps).torch == 0.0
    ensures Run(s, timestamps).gameOvers == s.gameOvers + 1
  {
    if Run(s, timestamps).running {
      DecayIsFrameRateIndependent(s, timestamps);
    }
    GameOverAtMostOnce(s, timestamps);
  }

  /** A full torch of 100 after 1600 ms of in-order frames, however they are paced,
      has lost 100 decay units (5.0); after 32000 ms it is spent and the battle is over. */
  lemma NominalPacing(timestamps: seq<real>)
    requires timestamps != [] && Chronological(0.0, timestamps)
    ensures Last(timestamps) == 1600.0 ==>
              Run(LoopState(true, 0.0, 100.0, 0), timestamps).torch == 100.0 - 100.0 * DecayRate
    ensures Last(timestamps) >= 32000.0 ==>
              !Run(LoopState(true, 0.0, 100.0, 0), timestamps).running
              && Run(LoopState(true, 0.0, 100.0, 0), timestamps).gameOvers == 1
  {
    var s := LoopState(true, 0.0, 100.0, 0);
    if Last(timestamps) == 1600.0 {
      RunsWhileTorchLasts(s, timestamps);
      DecayIsFrameRateIndependent(s, timestamps);
    }
    if Last(timestamps) >= 32000.0 {
      ExhaustedTorchEndsBattle(s, timestamps);
    }
  }

  // ----- the composable -----

  /** One `useGameLoop` instance over the shared player store. `gameOvers` counts the
      calls of the game-over callback; `chains` counts the animation-frame callbacks
      requested and not yet delivered. */
  class Loop {
    const store: PlayerStore.Store
    var isRunning: bool
    var lastTime: real
    var gameOvers: nat
    var chains: nat

    ghost function State(): LoopState
      reads this, store
    {
      LoopState(isRunning, lastTime, store.torch, gameOvers)
    }

    constructor (store: PlayerStore.Store)
      ensures this.store == store
      ensures !isRunning && lastTime == 0.0 && gameOvers == 0 && chains == 0
    {
      this.store := store;
      isRunning := false;
      lastTime := 0.0;
      gameOvers := 0;
      chains := 0;
    }

    /** The frame callback `loop(timestamp)`, delivered for one pending request;
        `requested` tells whether it asked for the next frame. */
    method Tick(timestamp: real) returns (requested: bool)
      requires chains > 0
      modifies this, store`torch
      ensures State() == Step(old(State()), timestamp)
      ensures !old(isRunning) ==> store.torch == old(store.torch) && lastTime == old(lastTime)
      ensures old(isRunning) ==> lastTime == timestamp
      ensures old(isRunning) && isRunning ==>
                store.torch == old(store.torch) - DecayRate * ((timestamp - old(lastTime)) / FrameMs) > 0.0
      ensures old(isRunning) && !isRunning ==> store.torch == 0.0 && gameOvers == old(gameOvers) + 1
      ensures isRunning || !old(isRunning) ==> gameOvers == old(gameOvers)
      ensures requested <==> old(isRunning) && isRunning
      ensures chains == if requested then old(chains) else old(chains) - 1
    {
      if !isRunning {
        chains := chains - 1;
        return false;
      }
      var deltaTime := timestamp - lastTime;
      lastTime := timestamp;
      store.torch := store.torch - DecayRate * (deltaTime / FrameMs);
      if store.torch <= 0.0 {
        store.torch := 0.0;
        isRunning := false;
        gameOvers := gameOvers + 1;
        chains := chains - 1;
        requested := false;
      } else {
        requested := true;
      }
    }

    /** `startBattle` at time `now`: full torch, running, and a new frame request. */
    method StartBattle(now: real)
      modifies this, store`torch
      ensures store.torch == store.maxTorch
      ensures isRunning && lastTime == now
      ensures chains == old(chains) + 1 && gameOvers == old(gameOvers)
    {
      store.torch := store.maxTorch;
      isRunning := true;
      lastTime := now;
      chains := chains + 1;
    }

    method AnswerCorrectly()
      modifies store
      ensures store.torch == PlayerStore.MinReal(old(store.torch) + CorrectRecovery, store.maxTorch)
      ensures store.state == old(store.state).(jCoin := old(store.state.jCoin) + CorrectReward)
      ensures store.maxTorch == old(store.maxTorch)
    {
      store.torch := PlayerStore.MinReal(store.torch + CorrectRecovery, store.maxTorch);
      store.AddCoin(CorrectReward);
    }

    /** The penalty is not clamped: the torch may go below 0 until the next frame. */
    method AnswerWrong()
      modifies store`torch
      ensures store.torch == old(store.torch) - WrongPenalty
    {
      store.torch := store.torch - WrongPenalty;
    }

    /** The `onUnmounted` hook: stops the loop without firing the game-over callback. */
    method Unmount()
      modifies this`isRunning
      ensures !isRunning
    {
      isRunning := false;
    }
  }

  /** A battle: one frame, a wrong and a right answer, then a frame late enough to
      burn the rest of the torch; the game-over callback fires once. */
  method BattleScenario()
  {
    var store := new PlayerStore.Store();
    var loop := new Loop(store);
    loop.StartBattle(0.0);
    var more := loop.Tick(16.0);
    assert more && store.torch == 99.95;
    loop.AnswerWrong();
    loop.AnswerCorrectly();
    assert store.torch == 94.95 && store.state.jCoin == 1010;
    more := loop.Tick(30400.0);
    assert !more && store.torch == 0.0 && loop.gameOvers == 1 && loop.chains == 0;
    loop.StartBattle(31000.0);
    assert store.torch == 100.0 && loop.isRunning && loop.gameOvers == 1;
    loop.Unmount();
    more := loop.Tick(31016.0);
    assert !more && store.torch == 100.0 && loop.gameOvers == 1;
  }
}
