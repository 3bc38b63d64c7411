/**
 * The UI feedback-sound manager (src/lib/ui/UISounds.ts): two lazily built
 * synths, a baseline volume, and a dispatcher from a closed set of sound
 * types to fixed short scores of timed triggers.
 *
 * The audio library is abstracted: a synth is an object with a volume (dB)
 * and an append-only log of the triggers it was handed, each stamped with
 * the volume the synth had when it was triggered. Whether the audio context
 * is running is a parameter, "now" is offset 0, and offsets are whole
 * milliseconds.
 */
module UISounds {

  /** The closed enumeration of feedback sounds. */
  datatype SoundType = Click | Switch | Knob | Hover | Error | Success | Record

  /** What a trigger plays: a pitched note on the tonal synth, or a noise burst. */
  datatype Sound = Pitch(note: string) | Noise

  /** One entry of a score: what to play, for how long (a Tone.js duration token), and when. */
  datatype Cue = Cue(sound: Sound, duration: string, offsetMs: nat)

  /** A trigger as a synth received it, with the synth's volume at that moment. */
  datatype Trigger = Trigger(sound: Sound, duration: string, offsetMs: nat, volume: int)

  datatype SynthKind = ToneSynth | NoiseSynth

  const INITIAL_VOLUME: int := -20
  /** The noise synth plays this many dB below the baseline. */
  const NOISE_OFFSET: int := 10

  // ---------------------------------------------------------------------
  // The score table
  // ---------------------------------------------------------------------

  /** The cues each sound type issues, in the order the dispatcher issues them. */
  function Score(t: SoundType): seq<Cue>
  {
    match t
    case Click => [Cue(Pitch("C6"), "32n", 0)]
    case Switch => [Cue(Pitch("G5"), "64n", 0), Cue(Pitch("C6"), "64n", 30)]
    case Knob => [Cue(Pitch("A5"), "128n", 0)]
    case Hover => [Cue(Pitch("E5"), "128n", 0)]
    case Error => [Cue(Pitch("E3"), "16n", 0), Cue(Pitch("Eb3"), "16n", 80)]
    case Success => [Cue(Pitch("C5"), "32n", 0), Cue(Pitch("E5"), "32n", 60), Cue(Pitch("G5"), "32n", 120)]
    case Record => [Cue(Pitch("A5"), "16n", 0), Cue(Noise, "32n", 0)]
  }

  /** How far below the baseline the tonal synth is turned for this type's trigger. */
  function DipDb(t: SoundType): nat
  {
    match t
    case Knob => 15
    case Hover => 20
    case _ => 0
  }

  /** The cues of `cues` that go to the noise synth (`noise`) or to the tonal synth, in order. */
  function OnVoice(cues: seq<Cue>, noise: bool): (r: seq<Cue>)
  {
    if cues == [] then []
    else if cues[0].sound.Noise? == noise then [cues[0]] + OnVoice(cues[1..], noise)
    else OnVoice(cues[1..], noise)
  }

  /** The triggers a synth logs when it plays `cues` at a fixed volume. */
  function Played(cues: seq<Cue>, volume: int): (r: seq<Trigger>)
  {
    seq(|cues|, i requires 0 <= i < |cues| => Trigger(cues[i].sound, cues[i].duration, cues[i].offsetMs, volume))
  }

  ghost predicate NonDecreasing(cues: seq<Cue>)
  {
    forall i, j :: 0 <= i < j < |cues| ==> cues[i].offsetMs <= cues[j].offsetMs
  }

  ghost predicate Increasing(cues: seq<Cue>)
  {
    forall i, j :: 0 <= i < j < |cues| ==> cues[i].offsetMs < cues[j].offsetMs
  }

  /** OnVoice keeps exactly the cues of the chosen synth, and nothing else. */
  lemma {:induction false} OnVoiceSelects(cues: seq<Cue>, noise: bool)
    ensures |OnVoice(cues, noise)| <= |cues|
    ensures forall c :: c in OnVoice(cues, noise) <==> c in cues && c.sound.Noise? == noise
  {
    if cues != [] {
      OnVoiceSelects(cues[1..], noise);
      assert cues == [cues[0]] + cues[1..];
    }
  }

  /** Splitting a score by synth keeps each part in time order. */
  lemma {:induction false} OnVoiceKeepsOrder(cues: seq<Cue>, noise: bool)
    requires NonDecreasing(cues)
    ensures NonDecreasing(OnVoice(cues, noise))
  {
    if cues != [] {
      OnVoiceKeepsOrder(cues[1..], noise);
      OnVoiceSelects(cues[1..], noise);
      var rest := OnVoice(cues[1..], noise);
      forall j | 0 <= j < |rest|
        ensures cues[0].offsetMs <= rest[j].offsetMs
      {
        assert rest[j] in cues[1..];
        var k :| 0 <= k < |cues[1..]| && cues[1..][k] == rest[j];
        assert cues[k + 1] == rest[j];
      }
    }
  }

  /**
   * Every score starts at once and runs forward in time; every cue it
   * sends to the tonal synth is pitched and every cue sent to the noise
   * synth is a burst.
   */
  lemma ScoreShape(t: SoundType)
    ensures |Score(t)| >= 1 && Score(t)[0].offsetMs == 0
    ensures NonDecreasing(Score(t))
    ensures forall c :: c in Score(t) ==> c.offsetMs <= 120
    ensures |OnVoice(Score(t), false)| >= 1
  {
    var s := Score(t);
    assert s[0] in s && s[0].sound.Pitch?;
  }

  /** A score whose cues all belong to one synth goes to that synth whole, and none of it to the other. */
  lemma {:induction false} OnVoiceUniform(cues: seq<Cue>, noise: bool)
    requires forall c :: c in cues ==> c.sound.Noise? == noise
    ensures OnVoice(cues, noise) == cues
    ensures OnVoice(cues, !noise) == []
  {
    if cues != [] {
      assert cues[0] in cues;
      assert forall c :: c in cues[1..] ==> c in cues;
      OnVoiceUniform(cues[1..], noise);
      assert cues == [cues[0]] + cues[1..];
    }
  }

  /**
   * How a score divides between the synths: only `record` sends anything
   * to the noise synth, one burst, after its one tonal cue; every other
   * type sends its whole score to the tonal synth.
   */
  lemma OnlyRecordUsesNoise(t: SoundType)
    ensures OnVoice(Score(t), true) != [] <==> t == Record
    ensures t != Record ==> OnVoice(Score(t), false) == Score(t)
    ensures t == Record ==> OnVoice(Score(t), false) == [Cue(Pitch("A5"), "16n", 0)]
    ensures t == Record ==> OnVoice(Score(t), true) == [Cue(Noise, "32n", 0)]
  {
    var s := Score(t);
    if t == Record {
      assert s[1..] == [Cue(Noise, "32n", 0)];
      OnVoiceUniform(s[1..], true);
    } else {
      OnVoiceUniform(s, false);
    }
  }

  /** `switch` is two tones 30 ms apart, G5 then C6, at the baseline. */
  lemma SwitchScenario(base: int)
    ensures Played(OnVoice(Score(Switch), false), base - DipDb(Switch)) ==
              [Trigger(Pitch("G5"), "64n", 0, base), Trigger(Pitch("C6"), "64n", 30, base)]
  {
    OnlyRecordUsesNoise(Switch);
  }

  /** `knob` and `hover` play their one tick 15 and 20 dB below the baseline. */
  lemma DippedTicks(base: int)
    ensures Played(OnVoice(Score(Knob), false), base - DipDb(Knob)) == [Trigger(Pitch("A5"), "128n", 0, base - 15)]
    ensures Played(OnVoice(Score(Hover), false), base - DipDb(Hover)) == [Trigger(Pitch("E5"), "128n", 0, base - 20)]
  {
    OnlyRecordUsesNoise(Knob);
    OnlyRecordUsesNoise(Hover);
  }

  /** On each synth, a score's triggers are strictly ordered in time. */
  lemma VoicesStrictlyIncreasing(t: SoundType, noise: bool)
    ensures Increasing(OnVoice(Score(t), noise))
  {
    var s := Score(t);
    if t == Record {
      assert OnVoice(s[1..], noise) == OnVoice([Cue(Noise, "32n", 0)], noise);
      OnVoiceUniform([Cue(Noise, "32n", 0)], true);
      assert |OnVoice(s, noise)| <= 1;
    } else {
      OnVoiceUniform(s, false);
    }
  }

  // ---------------------------------------------------------------------
  // The synths
  // ---------------------------------------------------------------------

  /** A Tone.js synth as this module uses it: a volume, the triggers it was given, whether it was released. */
  class Synth {
    const kind: SynthKind
    var volume: int
    var log: seq<Trigger>
    var disposed: bool

    constructor (kind: SynthKind, volume: int)
      ensures this.kind == kind && this.volume == volume && log == [] && !disposed
    {
      this.kind := kind;
      this.volume := volume;
      log := [];
      disposed := false;
    }

    /** A pitched synth takes a note; the noise synth takes only a duration and a time. */
    method TriggerAttackRelease(sound: Sound, duration: string, offsetMs: nat)
      requires sound.Noise? <==> kind == NoiseSynth
      modifies this`log
      ensures log == old(log) + [Trigger(sound, duration, offsetMs, volume)]
    {
      log := log + [Trigger(sound, duration, offsetMs, volume)];
    }

    method Dispose()
      modifies this`disposed
      ensures disposed
    {
      disposed := true;
    }
  }

  // ---------------------------------------------------------------------
  // The manager
  // ---------------------------------------------------------------------

  /** The module-level state of the manager and the operations on it. */
  class UISoundManager {
    var uiSynth: Synth?
    var noiseSynth: Synth?
    var isInitialized: bool
    var uiVolume: int

    /**
     * Both synths exist exactly when the manager is initialised; then they
     * are two distinct live synths of the right kinds, the tonal one at the
     * baseline and the noise one NOISE_OFFSET below it.
     */
    ghost predicate Valid()
      reads this, uiSynth, noiseSynth
    {
      (uiSynth != null <==> isInitialized) &&
      (noiseSynth != null <==> isInitialized) &&
      (isInitialized ==>
        uiSynth != noiseSynth &&
        uiSynth.kind == ToneSynth && noiseSynth.kind == NoiseSynth &&
        !uiSynth.disposed && !noiseSynth.disposed &&
        uiSynth.volume == uiVolume && noiseSynth.volume == uiVolume - NOISE_OFFSET)
    }

    /** The tonal synth's trigger log, empty while there is no synth. */
    function TonalLog(): seq<Trigger>
      reads this, uiSynth
    {
      if uiSynth == null then [] else uiSynth.log
    }

    function NoiseLog(): seq<Trigger>
      reads this, noiseSynth
    {
      if noiseSynth == null then [] else noiseSynth.log
    }

    /** The state the module starts in. */
    constructor ()
      ensures Valid()
      ensures uiSynth == null && noiseSynth == null && !isInitialized && uiVolume == INITIAL_VOLUME
    {
      uiSynth := null;
      noiseSynth := null;
      isInitialized := false;
      uiVolume := INITIAL_VOLUME;
    }

    /** Builds the two synths at the current baseline, the first time only. */
    method EnsureInitialized()
      requires Valid()
      modifies this
      ensures Valid() && isInitialized && uiVolume == old(uiVolume)
      ensures old(isInitialized) ==> uiSynth == old(uiSynth) && noiseSynth == old(noiseSynth)
      ensures !old(isInitialized) ==>
                fresh(uiSynth) && fresh(noiseSynth) && uiSynth.log == [] && noiseSynth.log == []
    {
      if isInitialized {
        return;
      }
      uiSynth := new Synth(ToneSynth, 0);
      uiSynth.volume := uiVolume;
      noiseSynth := new Synth(NoiseSynth, 0);
      noiseSynth.volume := uiVolume - NOISE_OFFSET;
      isInitialized := true;
    }

    /**
     * Plays the score of `t`. Nothing happens while the audio context is not
     * running; otherwise the synths are built if needed and each receives
     * its part of the score, the tonal part at the baseline less the type's
     * dip, after which the baseline is back in place.
     */
    method Play(t: SoundType, running: bool)
      requires Valid()
      modifies this, uiSynth, noiseSynth
      ensures Valid() && uiVolume == old(uiVolume)
      ensures !running ==> unchanged(this) && (isInitialized ==> unchanged(uiSynth, noiseSynth))
      ensures running ==> isInitialized
      ensures running && old(isInitialized) ==> uiSynth == old(uiSynth) && noiseSynth == old(noiseSynth)
      ensures running && !old(isInitialized) ==> fresh(uiSynth) && fresh(noiseSynth)
      ensures running ==> TonalLog() == old(TonalLog()) + Played(OnVoice(Score(t), false), uiVolume - DipDb(t))
      ensures running ==> NoiseLog() == old(NoiseLog()) + Played(OnVoice(Score(t), true), uiVolume - NOISE_OFFSET)
    {
      if !running {
        return;
      }
      EnsureInitialized();
      // The source's null check after initialisation can never fire.
      assert uiSynth != null && noiseSynth != null;
      Dispatch(t, uiSynth, noiseSynth, uiVolume);
    }

    /** Issues the score of `t` on the existing synths; the switch of the play operation. */
    static method Dispatch(t: SoundType, tonal: Synth, noise: Synth, base: int)
      requires tonal != noise && tonal.kind == ToneSynth && noise.kind == NoiseSynth && tonal.volume == base
      modifies tonal, noise
      ensures tonal.volume == base && noise.volume == old(noise.volume)
      ensures tonal.disposed == old(tonal.disposed) && noise.disposed == old(noise.disposed)
      ensures tonal.log == old(tonal.log) + Played(OnVoice(Score(t), false), base - DipDb(t))
      ensures noise.log == old(noise.log) + Played(OnVoice(Score(t), true), noise.volume)
    {
      OnlyRecordUsesNoise(t);
      match t
      case Click =>
        tonal.TriggerAttackRelease(Pitch("C6"), "32n", 0);
      case Switch =>
        tonal.TriggerAttackRelease(Pitch("G5"), "64n", 0);
        tonal.TriggerAttackRelease(Pitch("C6"), "64n", 30);
      case Knob =>
        tonal.volume := base - 15;
        tonal.TriggerAttackRelease(Pitch("A5"), "128n", 0);
        tonal.volume := base;
      case Hover =>
        tonal.volume := base - 20;
        tonal.TriggerAttackRelease(Pitch("E5"), "128n", 0);
        tonal.volume := base;
      case Error =>
        tonal.TriggerAttackRelease(Pitch("E3"), "16n", 0);
        tonal.TriggerAttackRelease(Pitch("Eb3"), "16n", 80);
      case Success =>
        tonal.TriggerAttackRelease(Pitch("C5"), "32n", 0);
        tonal.TriggerAttackRelease(Pitch("E5"), "32n", 60);
        tonal.TriggerAttackRelease(Pitch("G5"), "32n", 120);
      case Record =>
        tonal.TriggerAttackRelease(Pitch("A5"), "16n", 0);
        noise.TriggerAttackRelease(Noise, "32n", 0);
    }

    /** Sets the baseline and, when the synths exist, retunes both to it. */
    method SetVolume(volume: int)
      requires Valid()
      modifies this, uiSynth, noiseSynth
      ensures Valid() && uiVolume == volume
      ensures uiSynth == old(uiSynth) && noiseSynth == old(noiseSynth) && isInitialized == old(isInitialized)
      ensures TonalLog() == old(TonalLog()) && NoiseLog() == old(NoiseLog())
    {
      uiVolume := volume;
      if uiSynth != null {
        uiSynth.volume := volume;
      }
      if noiseSynth != null {
        noiseSynth.volume := volume - NOISE_OFFSET;
      }
    }

    /** The baseline last set, not a synth's momentary volume. */
    method GetVolume() returns (volume: int)
      ensures volume == uiVolume
    {
      volume := uiVolume;
    }

    /** Releases whatever synths exist and returns to the uninitialised state. */
    method Dispose()
      requires Valid()
      modifies this, uiSynth, noiseSynth
      ensures Valid() && uiSynth == null && noiseSynth == null && !isInitialized
      ensures uiVolume == old(uiVolume)
      ensures old(uiSynth) != null ==> old(uiSynth).disposed
      ensures old(uiSynth) != null ==> old(uiSynth).log == old(uiSynth.log) && old(uiSynth).volume == old(uiSynth.volume)
      ensures old(noiseSynth) != null ==> old(noiseSynth).disposed
      ensures old(noiseSynth) != null ==> old(noiseSynth).log == old(noiseSynth.log) && old(noiseSynth).volume == old(noiseSynth.volume)
    {
      if uiSynth != null {
        uiSynth.Dispose();
        uiSynth := null;
      }
      if noiseSynth != null {
        noiseSynth.Dispose();
        noiseSynth := null;
      }
      isInitialized := false;
    }
  }

  // ---------------------------------------------------------------------
  // Lifecycle scenarios, as a caller of the module sees them
  // ---------------------------------------------------------------------

  /** Before the audio context runs, a play builds nothing and issues nothing. */
  method SilentUntilRunning(t: SoundType) returns (initialized: bool, tonalLog: seq<Trigger>, noiseLog: seq<Trigger>)
    ensures !initialized && tonalLog == [] && noiseLog == []
  {
    var m := new UISoundManager();
    m.Play(t, false);
    initialized := m.isInitialized;
    tonalLog, noiseLog := m.TonalLog(), m.NoiseLog();
  }

  /** A volume set before the first play is the one the synths are built with. */
  method VolumeBeforeFirstPlay(volume: int, t: SoundType) returns (tonalVolume: int, noiseVolume: int, reported: int)
    ensures tonalVolume == volume && noiseVolume == volume - NOISE_OFFSET && reported == volume
  {
    var m := new UISoundManager();
    m.SetVolume(volume);
    m.Play(t, true);
    tonalVolume, noiseVolume := m.uiSynth.volume, m.noiseSynth.volume;
    reported := m.GetVolume();
  }

  /**
   * A second play reuses the synths; after a dispose (done twice, harmlessly)
   * the next play builds new ones whose logs hold only that play.
   */
  method DisposeAndRebuild(first: SoundType, second: SoundType)
    returns (reused: bool, rebuilt: bool, freshTonalLog: seq<Trigger>, volumeKept: bool)
    ensures reused && rebuilt && volumeKept
    ensures freshTonalLog == Played(OnVoice(Score(second), false), INITIAL_VOLUME - DipDb(second))
  {
    var m := new UISoundManager();
    m.Play(first, true);
    var tonal := m.uiSynth;
    m.Play(first, true);
    reused := m.uiSynth == tonal;
    m.Dispose();
    m.Dispose();
    m.Play(second, true);
    rebuilt := m.uiSynth != tonal;
    freshTonalLog := m.uiSynth.log;
    volumeKept := m.uiVolume == INITIAL_VOLUME;
  }
}
