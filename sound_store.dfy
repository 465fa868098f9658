/**
 * The control logic of the sound store with the audio library abstracted away:
 * readiness and mute flags, which synthesizer voices exist, the guards on sound
 * effects and guitar notes, and background music scheduled on a transport.
 */
module SoundStore {
  import opened Options

  /** The three synthesizer voices, in the order they are created. */
  datatype Voice = Bgm | Se | Guitar

  /** The note lengths used: "8n", "16n" and "32n". */
  datatype NoteValue = Eighth | Sixteenth | ThirtySecond

  /** What the store asks of a voice: play pitches (MIDI numbers) for a note length,
      or release every sounding note. */
  datatype SynthCall = Trigger(voice: Voice, pitches: seq<int>, length: NoteValue) | ReleaseAll(voice: Voice)

  datatype SeKind = Decision | Cancel | Coin | Damage | Clear

  /** A parsed MIDI file: tracks of notes (start time and duration in seconds) and
      the total duration. */
  datatype MidiNote = MidiNote(midi: int, time: real, duration: real, velocity: real)
  datatype MidiTrack = MidiTrack(notes: seq<MidiNote>)
  datatype Midi = Midi(tracks: seq<MidiTrack>, duration: real)

  /** How fetching and parsing a track ended: a response that is not ok, an
      exception (network failure or unparsable data), or a parsed file. */
  datatype Fetched = NotOk | Threw | Parsed(midi: Midi)

  /** A callback on the transport timeline that plays `note` at `time`. */
  datatype Scheduled = Scheduled(time: real, note: MidiNote)

  /** Readiness and the existing voices; `built` counts voices ever constructed. */
  datatype Synths = Synths(ready: bool, bgm: bool, se: bool, guitar: bool, built: nat)

  // ----- pitches -----

  /** MIDI number of a pitch in scientific notation (C4 = 60). */
  function Pitch(semitone: int, octave: int): int
  {
    12 * (octave + 1) + semitone
  }

  const C := 0
  const E := 4
  const FSharp := 6
  const G := 7
  const B := 11

  /** MIDI numbers of the open strings, indexed by string number (1 = high E). */
  const OpenStrings: seq<int> := [0, 64, 59, 55, 50, 45, 40]

  /** The MIDI note `playGuitarNote` plays, or None where the table has no entry. */
  function GuitarMidi(stringNum: int, fretNum: int): (m: Option<int>)
    ensures m.Some? <==> 0 <= stringNum < |OpenStrings|
    ensures 1 <= stringNum <= 6 ==>
              m == Some(Pitch(E, 2) + 5 * (6 - stringNum) - (if stringNum <= 2 then 1 else 0) + fretNum)
    ensures stringNum == 0 ==> m == Some(fretNum)
  {
    if 0 <= stringNum < |OpenStrings| then Some(OpenStrings[stringNum] + fretNum) else None
  }

  /** The pitches of each sound effect. */
  function SePitches(kind: SeKind): (ps: seq<int>)
    ensures 1 <= |ps| <= 4
    ensures |ps| == 1 <==> kind == Decision || kind == Cancel
    ensures |ps| == 2 <==> kind == Coin || kind == Damage
    ensures |ps| == 4 <==> kind == Clear
    ensures forall i, j :: 0 <= i < j < |ps| ==> ps[i] < ps[j]
    ensures forall i :: 0 <= i < |ps| ==> Pitch(C, 2) <= ps[i] <= Pitch(E, 6)
  {
    match kind
    case Decision => [Pitch(C, 6)]
    case Cancel => [Pitch(G, 4)]
    case Coin => [Pitch(B, 5), Pitch(E, 6)]
    case Damage => [Pitch(C, 2), Pitch(FSharp, 2)]
    case Clear => [Pitch(C, 5), Pitch(E, 5), Pitch(G, 5), Pitch(C, 6)]
  }

  /** The note length of each sound effect: single notes are the shortest. */
  function SeLength(kind: SeKind): (v: NoteValue)
    ensures v == ThirtySecond <==> |SePitches(kind)| == 1
    ensures v == Sixteenth <==> kind == Coin
    ensures v == Eighth <==> kind == Damage || kind == Clear
  {
    match kind
    case Decision => ThirtySecond
    case Cancel => ThirtySecond
    case Coin => Sixteenth
    case Damage => Eighth
    case Clear => Eighth
  }

  /** `BGM_LIST`: the track file of a BGM key. */
  function BgmUrl(key: string): (url: Option<string>)
    ensures url.Some? <==> key == "opening"
    ensures url.Some? ==> url.value == "/theme.mid"
  {
    if key == "opening" then Some("/theme.mid") else None
  }

  // ----- initialisation -----

  /** The voices after `initAudio`, where `failure == Some(n)` means an exception is
      thrown after the first n voices (bgm, se, guitar) were assigned. */
  function Initialized(s: Synths, failure: Option<nat>): (r: Synths)
    requires failure.Some? ==> failure.value <= 3
    ensures s.ready && s.bgm ==> r == s
    ensures (s.ready ==> s.bgm && s.se && s.guitar) ==> (r.ready ==> r.bgm && r.se && r.guitar)
    ensures r.ready && !s.ready ==> failure.None? && r.bgm && r.se && r.guitar
    ensures !(s.ready && s.bgm) && failure.None? ==> r.ready && r.built == s.built + 3
    ensures !(s.ready && s.bgm) && failure.Some? ==>
              && r.ready == s.ready && r.built == s.built + failure.value
              && (r.bgm == (s.bgm || failure.value >= 1))
              && (r.se == (s.se || failure.value >= 2))
              && (r.guitar == (s.guitar || failure.value >= 3))
  {
    if s.ready && s.bgm then s
    else match failure
      case None => Synths(true, true, true, true, s.built + 3)
      case Some(n) => Synths(s.ready, s.bgm || n >= 1, s.se || n >= 2, s.guitar || n >= 3, s.built + n)
  }

  /** Initialising twice in a row without failures builds the voices once. */
  lemma InitializeIsIdempotent(s: Synths)
    ensures Initialized(Initialized(s, None), None) == Initialized(s, None)
  {
  }

  // ----- the schedule of a track -----

  function At(n: MidiNote): Scheduled
  {
    Scheduled(n.time, n)
  }

  function NoteEvents(notes: seq<MidiNote>): (es: seq<Scheduled>)
    ensures |es| == |notes|
  {
    seq(|notes|, k requires 0 <= k < |notes| => At(notes[k]))
  }

  function NoteCount(tracks: seq<MidiTrack>): nat
    decreases |tracks|
  {
    if tracks == [] then 0 else NoteCount(tracks[..|tracks| - 1]) + |tracks[|tracks| - 1].notes|
  }

  /** The callbacks scheduled for `tracks`: track after track, note after note. */
  function Events(tracks: seq<MidiTrack>): (es: seq<Scheduled>)
    ensures |es| == NoteCount(tracks)
    decreases |tracks|
  {
    if tracks == [] then [] else Events(tracks[..|tracks| - 1]) + NoteEvents(tracks[|tracks| - 1].notes)
  }

  /** Note j of track i is scheduled once, at its start time, at a fixed position. */
  lemma {:induction false} EveryNoteScheduled(tracks: seq<MidiTrack>, i: nat, j: nat)
    requires i < |tracks| && j < |tracks[i].notes|
    ensures NoteCount(tracks[..i]) + j < |Events(tracks)|
    ensures Events(tracks)[NoteCount(tracks[..i]) + j] == Scheduled(tracks[i].notes[j].time, tracks[i].notes[j])
    decreases |tracks|
  {
    var init := tracks[..|tracks| - 1];
    if i == |tracks| - 1 {
      assert tracks[..i] == init;
    } else {
      assert init[..i] == tracks[..i];
      EveryNoteScheduled(init, i, j);
    }
  }

  /** Every scheduled callback plays some note of some track at its start time. */
  lemma {:induction false} OnlyNotesScheduled(tracks: seq<MidiTrack>, k: nat)
    requires k < |Events(tracks)|
    ensures exists i, j :: 0 <= i < |tracks| && 0 <= j < |tracks[i].notes|
                           && Events(tracks)[k] == Scheduled(tracks[i].notes[j].time, tracks[i].notes[j])
    decreases |tracks|
  {
    var init := tracks[..|tracks| - 1];
    var i := |tracks| - 1;
    if k < |Events(init)| {
      OnlyNotesScheduled(init, k);
      var i', j' :| 0 <= i' < |init| && 0 <= j' < |init[i'].notes|
                    && Events(init)[k] == Scheduled(init[i'].notes[j'].time, init[i'].notes[j']);
      assert tracks[i'] == init[i'];
    } else {
      var j := k - |Events(init)|;
      assert Events(tracks)[k] == At(tracks[i].notes[j]);
    }
  }

  // ----- the transport -----

  /** The shared transport: whether it runs, its timeline of callbacks, its loop
      settings and its position in seconds. */
  class Transport {
    var running: bool
    var scheduled: seq<Scheduled>
    var loop: bool
    var loopEnd: real
    var position: real

    /** Stopped, empty and not looping. The library's initial loop end is not
        modelled: nothing here relies on it before `playBgm` sets it. */
    constructor ()
      ensures !running && scheduled == [] && !loop && position == 0.0
    {
      running := false;
      scheduled := [];
      loop := false;
      loopEnd := 0.0;
      position := 0.0;
    }

    method Start()
      modifies this`running
      ensures running
    {
      running := true;
    }

    method Stop()
      modifies this`running
      ensures !running
    {
      running := false;
    }

    /** Cancels every scheduled callback. */
    method Cancel()
      modifies this`scheduled
      ensures scheduled == []
    {
      scheduled := [];
    }

    method Schedule(time: real, note: MidiNote)
      modifies this`scheduled
      ensures scheduled == old(scheduled) + [Scheduled(time, note)]
    {
      scheduled := scheduled + [Scheduled(time, note)];
    }
  }

  // ----- the store -----

  class Store {
    var isReady: bool
    var isMuted: bool
    var currentBgmKey: Option<string>
    var bgmSynth: bool
    var seSynth: bool
    var guitarSynth: bool
    /** Voices constructed so far. */
    var synthsBuilt: nat
    /** Every request made of a voice, in order. */
    var calls: seq<SynthCall>
    const transport: Transport

    ghost function SynthState(): Synths
      reads this
    {
      Synths(isReady, bgmSynth, seSynth, guitarSynth, synthsBuilt)
    }

    /** The invariant "ready only after all three voices exist": established by the
        constructor and kept by every method, for clients that trigger sounds once ready. */
    ghost predicate Valid()
      reads this
    {
      isReady ==> bgmSynth && seSynth && guitarSynth
    }

    /** Whether a sound on a voice that exists (`synth`) may be triggered. */
    predicate Audible(synth: bool)
      reads this
    {
      isReady && !isMuted && synth
    }

    constructor ()
      ensures !isReady && !isMuted && currentBgmKey == None
      ensures !bgmSynth && !seSynth && !guitarSynth && synthsBuilt == 0 && calls == []
      ensures fresh(transport) && !transport.running && transport.scheduled == []
      ensures Valid()
    {
      isReady, isMuted, currentBgmKey := false, false, None;
      bgmSynth, seSynth, guitarSynth, synthsBuilt := false, false, false, 0;
      calls := [];
      transport := new Transport();
    }

    method SetMuted(muted: bool)
      modifies this`isMuted
      ensures isMuted == muted
    {
      isMuted := muted;
    }

    /** `initAudio`; `failure` as in `Initialized`. Resuming the audio context swallows
        its own failure and leaves nothing here to change. */
    method InitAudio(failure: Option<nat>)
      requires failure.Some? ==> failure.value <= 3
      modifies this
      ensures SynthState() == Initialized(old(SynthState()), failure)
      ensures old(isReady && bgmSynth) ==> SynthState() == old(SynthState())
      ensures isReady && !old(isReady) ==> bgmSynth && seSynth && guitarSynth
      ensures failure.Some? && !old(isReady) ==> !isReady
      ensures old(Valid()) ==> Valid()
      ensures isMuted == old(isMuted) && currentBgmKey == old(currentBgmKey) && calls == old(calls)
    {
      if isReady && bgmSynth {
        return;
      }
      var made := if failure.Some? then failure.value else 3;
      if made >= 1 {
        bgmSynth := true;
        synthsBuilt := synthsBuilt + 1;
      }
      if made >= 2 {
        seSynth := true;
        synthsBuilt := synthsBuilt + 1;
      }
      if made >= 3 {
        guitarSynth := true;
        synthsBuilt := synthsBuilt + 1;
      }
      if failure.None? {
        isReady := true;
      }
    }

    method PlayGuitarNote(stringNum: int, fretNum: int)
      modifies this`calls
      ensures calls == old(calls) + if Audible(guitarSynth) && GuitarMidi(stringNum, fretNum).Some?
                                    then [Trigger(Guitar, [GuitarMidi(stringNum, fretNum).value], Eighth)]
                                    else []
    {
      if !isReady || isMuted || !guitarSynth {
        return;
      }
      var midiNote := GuitarMidi(stringNum, fretNum);
      if midiNote.Some? {
        calls := calls + [Trigger(Guitar, [midiNote.value], Eighth)];
      }
    }

    method PlaySe(kind: SeKind)
      modifies this`calls
      ensures calls == old(calls) + if Audible(seSynth) then [Trigger(Se, SePitches(kind), SeLength(kind))] else []
    {
      if !isReady || isMuted || !seSynth {
        return;
      }
      calls := calls + [Trigger(Se, SePitches(kind), SeLength(kind))];
    }

    method StopBgm()
      modifies this`calls, this`currentBgmKey, transport`running, transport`scheduled
      ensures !transport.running && transport.scheduled == [] && currentBgmKey == None
      ensures calls == old(calls) + if bgmSynth then [ReleaseAll(Bgm)] else []
    {
      transport.Stop();
      transport.Cancel();
      if bgmSynth {
        calls := calls + [ReleaseAll(Bgm)];
      }
      currentBgmKey := None;
    }

    /** `playBgm(key)`, where `initFailure` is how `initAudio` would end and `fetched`
        how fetching and parsing the track would end. */
    method PlayBgm(key: string, initFailure: Option<nat>, fetched: Fetched)
      requires initFailure.Some? ==> initFailure.value <= 3
      modifies this, transport
      ensures old(isMuted) || old(currentBgmKey) == Some(key) ==>
                && SynthState() == old(SynthState()) && isMuted == old(isMuted)
                && currentBgmKey == old(currentBgmKey) && calls == old(calls)
                && transport.running == old(transport.running)
                && transport.scheduled == old(transport.scheduled)
                && transport.loop == old(transport.loop) && transport.loopEnd == old(transport.loopEnd)
                && transport.position == old(transport.position)
      ensures !old(isMuted) && old(currentBgmKey) != Some(key) ==>
                && SynthState() == (if old(isReady) then old(SynthState())
                                    else Initialized(old(SynthState()), initFailure))
                && isMuted == old(isMuted)
                && calls == old(calls) + (if old(bgmSynth) then [ReleaseAll(Bgm)] else [])
      ensures !old(isMuted) && old(currentBgmKey) != Some(key) && BgmUrl(key).Some? && fetched.Parsed? && bgmSynth ==>
                && transport.scheduled == Events(fetched.midi.tracks)
                && transport.position == 0.0 && transport.loop && transport.loopEnd == fetched.midi.duration
                && transport.running && currentBgmKey == Some(key)
      ensures !old(isMuted) && old(currentBgmKey) != Some(key) && !(BgmUrl(key).Some? && fetched.Parsed? && bgmSynth) ==>
                && transport.scheduled == [] && !transport.running && currentBgmKey == None
                && transport.loop == old(transport.loop) && transport.loopEnd == old(transport.loopEnd)
                && transport.position == old(transport.position)
      ensures old(Valid()) ==> Valid()
    {
      if isMuted {
        return;
      }
      if currentBgmKey == Some(key) {
        return;
      }
      StopBgm();
      if !isReady {
        InitAudio(initFailure);
      }
      var url := BgmUrl(key);
      if url.None? {
        return;
      }
      if !fetched.Parsed? {
        return;
      }
      var midi := fetched.midi;
      if !bgmSynth {
        return;
      }
      transport.Stop();
      transport.Cancel();
      transport.position := 0.0;
      var i := 0;
      while i < |midi.tracks|
        modifies transport
        invariant 0 <= i <= |midi.tracks|
        invariant transport.scheduled == Events(midi.tracks[..i])
        invariant transport.position == 0.0 && !transport.running
        invariant transport.loop == old(transport.loop) && transport.loopEnd == old(transport.loopEnd)
      {
        var notes := midi.tracks[i].notes;
        var j := 0;
        while j < |notes|
          modifies transport
          invariant 0 <= j <= |notes|
          invariant transport.scheduled == Events(midi.tracks[..i]) + NoteEvents(notes[..j])
          invariant transport.position == 0.0 && !transport.running
          invariant transport.loop == old(transport.loop) && transport.loopEnd == old(transport.loopEnd)
        {
          transport.Schedule(notes[j].time, notes[j]);
          assert NoteEvents(notes[..j + 1]) == NoteEvents(notes[..j]) + [At(notes[j])];
          j := j + 1;
        }
        assert notes[..j] == notes;
        assert midi.tracks[..i + 1][..i] == midi.tracks[..i];
        i := i + 1;
      }
      assert midi.tracks[..i] == midi.tracks;
      transport.loop := true;
      transport.loopEnd := midi.duration;
      transport.Start();
      currentBgmKey := Some(key);
    }
  }

  /** Starting the opening theme, asking for it again, then asking for a key that is
      not in the list. */
  method BgmScenario(note: MidiNote)
  {
    var store := new Store();
    var theme := Midi([MidiTrack([note]), MidiTrack([])], 12.0);
    store.PlayBgm("opening", None, Parsed(theme));
    assert store.isReady && store.currentBgmKey == Some("opening");
    assert Events(theme.tracks) == [Scheduled(note.time, note)] by {
      assert theme.tracks[..1] == [MidiTrack([note])];
      assert theme.tracks[..0] == [];
    }
    assert store.transport.scheduled == [Scheduled(note.time, note)];
    store.PlayBgm("opening", None, NotOk);
    assert store.transport.scheduled == [Scheduled(note.time, note)] && store.transport.running;
    store.PlayBgm("ending", None, Parsed(theme));
    assert store.currentBgmKey == None && store.transport.scheduled == [] && !store.transport.running;
    store.PlaySe(Coin);
    assert store.calls[|store.calls| - 1] == Trigger(Se, [83, 88], Sixteenth);
  }
}
