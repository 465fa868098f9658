# Fretgate core: player economy, torch survival loop and sound control

A Dafny model of three stateful parts of a small browser rhythm/RPG game:

- **Player store** (`player_store.dfy`, module `PlayerStore`): the persisted save
  record (coins, inventory, shop stock, stage progress, death count, difficulty) and
  the torch value, held by class `Store` whose methods are the store's actions:
  buying, selling (a sold item goes back into the shop's stock, kept ascending and
  free of duplicates), gaining coins, dying (death count up, coins halved, rounded
  down), using an item (ids up to 10 restore 30 torch), obtaining an item, paying to
  lift a curse and unlocking the next stage (at most stage 5). `getItemDetail` is the
  pure function `ItemDetail` over a catalog passed in as a sequence.
- **Survival loop** (`game_loop.dfy`, module `GameLoop`): class `Loop` over the shared
  player store. Each animation frame is an explicit `Tick(timestamp)`. A running
  tick burns `0.05` torch per 16 ms of elapsed time; when the torch reaches 0 or
  less it is clamped to 0, the loop stops, the game-over callback fires (counted in
  `gameOvers`) and no further frame is requested. `chains` counts requested frames
  not yet delivered. A correct answer restores 15 torch (capped at the maximum) and
  credits 10 coins; a wrong answer takes 20 torch with no clamp; unmounting stops the
  loop without a game over. The value-level `Step`/`Run` functions describe ticks
  over whole sequences of frame times, and the lemmas about them give the loop's
  guarantees: stopped loops ignore frames, game over fires at most once per start,
  with frame times in order the torch never ends above its starting value (a
  negative torch is raised to 0 by the first running tick, never higher), and the
  decay depends only on elapsed time, not on how it is split into frames.
- **Sound store** (`sound_store.dfy`, module `SoundStore`): class `Store` with the
  flags `isReady`, `isMuted`, `currentBgmKey`, one flag per synthesizer voice
  (background music, sound effects, guitar), a count of voices built and the log of
  every request made of a voice (`calls`). The audio transport is class `Transport`
  with `running`, `scheduled` (time and note of each callback), `loop`, `loopEnd`
  and `position`. Sound effects and guitar notes are triggered only when ready,
  unmuted and the voice exists; the guitar note is the open-string MIDI number plus
  the fret; each sound effect has a fixed chord of 1 to 4 pitches. `PlayBgm` is a
  no-op when muted or when the key already plays; otherwise it first stops the music
  (cancelling the whole schedule, clearing the key), initialises audio if not ready,
  resolves the key in the BGM list (only `opening`, to `/theme.mid`), and on a parsed
  track schedules one callback per note of every track, in track order, at the
  note's start time, then loops the transport over the track's duration and records
  the key. The fetched and parsed MIDI data comes in as a parameter: a response that
  is not ok, an exception, or the parsed file.

`options.dfy` holds the `Option` type. `Loop.BattleScenario` and
`Store.BgmScenario` are client methods that walk through a battle and through
starting, repeating and replacing the background music using the contracts alone.

Modelling choices:

- `Array.prototype.splice(i, 1)` is modelled with its own index rules
  (`SpliceStart`, `RemoveAt`): a negative index counts from the end, an index past
  the end removes nothing. `sellItem` and `removeCurse` therefore need no
  precondition on the index; for an index inside the inventory, `RemoveAt` removes
  exactly that element.
- `sort((a, b) => a - b)` is modelled as insertion sort (`Insert`, `Sort`). The result
  is specified as the ascending rearrangement of the input, which any correct sort
  returns for integers.
- JavaScript numbers become `int` for coins, prices, ids and stages and `real` for
  the torch and for times. `Math.floor(jCoin / 2)` is Dafny's `/` with divisor 2,
  which rounds towards minus infinity (`FloorHalf`).
- Pitches are MIDI numbers in scientific notation (C4 = 60), not note names.
- `initAudio`'s failure is a parameter: `None` for success, `Some(n)` for an
  exception after the first `n` voices (background, effects, guitar, in that order)
  were assigned.

Behaviour of the code worth knowing:

- `playBgm` calls `initAudio` before looking up the key (soundStore.ts:117-120), so
  playing a key that is not in the list can still make the store ready.
- `answerWrong` does not clamp (useGameLoop.ts:46); only a running tick clamps the
  torch to 0. With the loop stopped a negative torch stays negative through frames
  (`StoppedLoopIgnoresFrames`), until a start, a correct answer or a recovery item
  raises it.
- Calling `startBattle` while running requests a second frame chain
  (useGameLoop.ts:35; `chains` grows). Both chains share `lastTime`, so the decay
  still follows elapsed time only, by `DecayIsFrameRateIndependent` applied to the
  interleaved frame times.

## Model

| member | source | states |
|---|---|---|
| PlayerStore.ItemDetail | src/stores/playerStore.ts:37-39 | returns the first catalog entry whose id matches, and none exactly when no entry matches |
| PlayerStore.IndexOf | src/stores/playerStore.ts:73 | returns -1 exactly when the id is absent, else an index holding it with no earlier occurrence |
| PlayerStore.SpliceStart | src/stores/playerStore.ts:53 | the removal index of `splice(start, 1)`: the index itself when in range, counted from the end when negative, 0 when more negative than the length, nothing removed when past the end |
| PlayerStore.RemoveAt | src/stores/playerStore.ts:53 | `splice(i, 1)` removes exactly the element at the normalised index and keeps every other element in order |
| PlayerStore.Insert | src/stores/playerStore.ts:59 | insertion adds exactly the new element to the multiset |
| PlayerStore.InsertKeepsSorted | src/stores/playerStore.ts:59 | inserting into an ascending sequence keeps it ascending |
| PlayerStore.Sort | src/stores/playerStore.ts:59 | the numeric sort yields an ascending permutation of its input |
| PlayerStore.SortOfSorted | src/stores/playerStore.ts:59 | sorting an ascending sequence leaves it unchanged |
| PlayerStore.InsertKeepsStrict | src/stores/playerStore.ts:57-59 | inserting a new id into an ascending duplicate-free stock keeps it ascending and duplicate-free |
| PlayerStore.Restock | src/stores/playerStore.ts:56-60 | after a sale the id is in stock; an id already stocked leaves the stock unchanged; otherwise exactly that id is added and the stock is sorted |
| PlayerStore.RestockKeepsStrict | src/stores/playerStore.ts:56-60 | selling keeps an ascending duplicate-free stock ascending and duplicate-free |
| PlayerStore.FloorHalf | src/stores/playerStore.ts:69 | the new balance is the floor of half the old one, never above a non-negative old balance |
| PlayerStore.NextMaxStage | src/stores/playerStore.ts:124-129 | the reached stage changes only when the current stage is at least it, never decreases and never exceeds 5, becomes the next stage when below 5, and 5 when the current stage is 5 or more |
| PlayerStore.Message | src/stores/playerStore.ts:74-86 | the text returned for each outcome of using an item, never empty |
| PlayerStore.MessagesDistinct | src/stores/playerStore.ts:74-86 | the four outcomes have four different texts |
| PlayerStore.RemoveFirstOccurrence | src/stores/playerStore.ts:73-91 | using an owned item removes exactly one occurrence, the first |
| PlayerStore.Store.constructor | src/stores/playerStore.ts:19-32 | the initial save record, torch 100 and maximum 100, with the stock ascending and duplicate-free |
| PlayerStore.Store.BuyItem | src/stores/playerStore.ts:42-49 | succeeds iff coins cover the price; then the price is deducted and the id appended; otherwise nothing changes |
| PlayerStore.Store.SellItem | src/stores/playerStore.ts:52-61 | removes the spliced inventory element, adds the sell price, restocks the id, keeps an ordered stock ordered, changes nothing else |
| PlayerStore.Store.AddCoin | src/stores/playerStore.ts:63-65 | adds exactly the amount and changes nothing else |
| PlayerStore.Store.Die | src/stores/playerStore.ts:67-70 | death count up by one, coins halved rounding down, never raised from a non-negative balance |
| PlayerStore.Store.ConsumeItem | src/stores/playerStore.ts:72-94 | not owned, not needed at full torch, or unknown use for ids above 10 change nothing; a recovery sets torch to min(torch + 30, max) and removes the first occurrence |
| PlayerStore.Store.ObtainItem | src/stores/playerStore.ts:109-111 | appends exactly the id and changes nothing else |
| PlayerStore.Store.RemoveCurse | src/stores/playerStore.ts:114-121 | succeeds iff coins cover the cost; then the cost is deducted and the spliced element removed; otherwise nothing changes |
| PlayerStore.Store.UnlockNextStage | src/stores/playerStore.ts:124-129 | only the reached stage changes, as `NextMaxStage` says |
| GameLoop.Decay | src/composables/useGameLoop.ts:11-20 | the decay of an elapsed time is non-negative for forward time and one rate unit per 16 ms frame |
| GameLoop.Step | src/composables/useGameLoop.ts:13-29 | a stopped tick changes nothing; a running tick records the time and either keeps a positive torch decayed by the elapsed time or stops with torch 0 and one game over |
| GameLoop.StoppedLoopIgnoresFrames | src/composables/useGameLoop.ts:14 | any frames reaching a stopped loop change nothing |
| GameLoop.GameOverAtMostOnce | src/composables/useGameLoop.ts:22-28 | across any frames game over fires at most once, exactly when a running loop stops, leaving torch 0 |
| GameLoop.TorchNeverRises | src/composables/useGameLoop.ts:16-28 | with frame times in order, the torch never rises above its start (or 0) and stays within the maximum it started below |
| GameLoop.DecayIsFrameRateIndependent | src/composables/useGameLoop.ts:16-20 | a loop still running after its frames has lost exactly the decay of the whole elapsed span, whatever the frame pacing |
| GameLoop.RunsWhileTorchLasts | src/composables/useGameLoop.ts:20-27 | a torch that outlasts the span of in-order frames keeps the loop running |
| GameLoop.ExhaustedTorchEndsBattle | src/composables/useGameLoop.ts:20-25 | a torch spent within the span ends the battle with torch 0 and exactly one game over |
| GameLoop.NominalPacing | src/composables/useGameLoop.ts:11-27 | from 100 torch, 1600 ms costs exactly 100 decay units and 32000 ms ends the battle once |
| GameLoop.Loop.constructor | src/composables/useGameLoop.ts:5-8 | a new loop is stopped, with last time 0 and no game over |
| GameLoop.Loop.Tick | src/composables/useGameLoop.ts:13-29 | the frame callback follows `Step`, requests the next frame exactly when it keeps running, and fires game over with torch 0 when the torch is spent |
| GameLoop.Loop.StartBattle | src/composables/useGameLoop.ts:31-36 | torch set to the maximum whatever it was, running, last time now, one more frame requested |
| GameLoop.Loop.AnswerCorrectly | src/composables/useGameLoop.ts:38-42 | torch set to min(torch + 15, max) and exactly 10 coins credited |
| GameLoop.Loop.AnswerWrong | src/composables/useGameLoop.ts:44-48 | exactly 20 torch taken, without clamping |
| GameLoop.Loop.Unmount | src/composables/useGameLoop.ts:50-52 | the loop stops and game over does not fire |
| SoundStore.GuitarMidi | src/stores/soundStore.ts:84-86 | strings 1 to 6 are standard tuning from E2 (five semitones per string, four between G and B) plus the fret |
| SoundStore.SePitches | src/stores/soundStore.ts:97-103 | every effect is 1 to 4 ascending pitches between C2 and E6; decision and cancel one, coin and damage two, clear four |
| SoundStore.SeLength | src/stores/soundStore.ts:98-102 | single-note effects last a thirty-second, coin a sixteenth, damage and clear an eighth |
| SoundStore.BgmUrl | src/stores/soundStore.ts:16-19 | only `opening` resolves, to `/theme.mid` |
| SoundStore.Initialized | src/stores/soundStore.ts:40-76 | no rebuild once ready with a background voice; readiness only with all three voices; a failure leaves readiness as it was and keeps the voices assigned before it |
| SoundStore.InitializeIsIdempotent | src/stores/soundStore.ts:40-42 | a second successful initialisation changes nothing |
| SoundStore.Events | src/stores/soundStore.ts:133-140 | one scheduled callback per note across all tracks |
| SoundStore.EveryNoteScheduled | src/stores/soundStore.ts:133-140 | each note of each track is scheduled at its start time at a fixed position |
| SoundStore.OnlyNotesScheduled | src/stores/soundStore.ts:133-140 | every scheduled callback plays some note of some track at its start time |
| SoundStore.Transport.Start | src/stores/soundStore.ts:144 | the transport runs |
| SoundStore.Transport.Stop | src/stores/soundStore.ts:155 | the transport stops |
| SoundStore.Transport.Cancel | src/stores/soundStore.ts:156 | every scheduled callback is cancelled |
| SoundStore.Transport.Schedule | src/stores/soundStore.ts:135-138 | one callback is appended for the note at its time |
| SoundStore.Store.constructor | src/stores/soundStore.ts:7-14 | not ready, not muted, no key, no voices, an idle transport |
| SoundStore.Store.SetMuted | src/stores/soundStore.ts:8 | the mute flag takes the given value |
| SoundStore.Store.InitAudio | src/stores/soundStore.ts:24-77 | follows `Initialized`; returns early without rebuilding when ready with a background voice; a failure leaves a not-ready store not ready |
| SoundStore.Store.PlayGuitarNote | src/stores/soundStore.ts:79-92 | triggers the guitar note for an eighth exactly when ready, unmuted and the guitar voice exists |
| SoundStore.Store.PlaySe | src/stores/soundStore.ts:94-107 | triggers the effect's pitches exactly when ready, unmuted and the effect voice exists |
| SoundStore.Store.StopBgm | src/stores/soundStore.ts:153-162 | transport stopped, schedule empty, key cleared, sounding notes released |
| SoundStore.Store.PlayBgm | src/stores/soundStore.ts:109-151 | no-op when muted or the key plays; else stops first; on success schedules exactly the track's notes, position 0, looping over the duration, running, key recorded; on any failure no key, no schedule, stopped |

## Left out

- Resuming the audio context (`Tone.start`), synthesizer presets (volumes,
  oscillators, envelopes) and real audio timing: library and platform behaviour;
  voices are existence flags and requests are logged in `calls`.
- The firing of scheduled callbacks on the audio clock, and their optional check that
  the background voice still exists: the audio clock is not modelled. No code path
  removes a voice once created, so the check cannot fail in this store.
- `fetch`, `response.arrayBuffer()` and MIDI parsing: network I/O and a foreign
  parser; their outcome is the `Fetched` parameter. Note names become MIDI numbers.
- Overlapping asynchronous `playBgm` and `initAudio` calls: calls are sequential and
  atomic here, so two overlapping requests for the same key are not modelled.
- `requestAnimationFrame` and `performance.now`: frames are explicit `Tick` calls and
  the start time is a parameter; `chains` stands for the pending frame requests.
- IEEE floating-point rounding of the torch: the torch and times are `real`.
- `generateDropItem`: it depends on `Math.random` and floating-point weights.
- The catalog file's contents (passed in as a sequence), `useStorage` persistence,
  Vue/Pinia reactivity and console logging.
- The routing table, build configuration and application bootstrap, which hold no
  logic; `src/types.ts` declares types only.
- SoundStore.GuitarMidi: a string number outside 0 to 6 makes the source compute
  `NaN` and hand it to the audio library, whose reaction is not modelled; the model
  triggers nothing in that case.
- SoundStore.BgmUrl: a key naming a property inherited by plain JavaScript objects
  (such as `toString`) is treated as absent from the BGM list.
