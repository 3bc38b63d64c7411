/**
 * The preset catalog and the initial values of the application's stores
 * (src/lib/stores.ts): the instrument and visualizer option lists, the
 * sampler URL tables, the default-name resolution and the stores' starting
 * values. Everything here is constant data plus pure functions over it.
 */
module Stores {

  datatype Option<T> = None | Some(value: T)

  /** The Tone.js constructor an instrument preset is built with. */
  datatype SynthType = Synth | FMSynth | AMSynth | Sampler | PluckSynth | MonoSynth | DuoSynth | MetalSynth

  /**
   * An instrument's configuration. Oscillator presets hand opaque numbers to
   * the audio library and are kept abstract; sampler presets keep the part
   * this module defines, the note-to-file table and the base URL.
   */
  datatype InstrumentConfig =
    | OscillatorPreset
    | SamplerPreset(urls: map<string, string>, baseUrl: string)

  datatype InstrumentOption = InstrumentOption(name: string, synthType: SynthType, config: InstrumentConfig)

  datatype VisualizerOption = VisualizerOption(name: string)

  // ---------------------------------------------------------------------
  // Sampler URL tables
  // ---------------------------------------------------------------------

  /**
   * The table an object literal with these key/value pairs denotes: every
   * key maps to a value written beside it (a repeated key keeps its last value).
   */
  function UrlTable(entries: seq<(string, string)>): (urls: map<string, string>)
    ensures forall note :: note in urls <==> exists i :: 0 <= i < |entries| && entries[i].0 == note
    ensures forall note :: note in urls ==> exists i :: 0 <= i < |entries| && entries[i] == (note, urls[note])
  {
    if entries == [] then map[]
    else
      var last := entries[|entries| - 1];
      UrlTable(entries[..|entries| - 1])[last.0 := last.1]
  }

  /** No pair after index `i` repeats the key of pair `i`. */
  predicate LastOccurrence(entries: seq<(string, string)>, i: nat)
    requires i < |entries|
  {
    forall j :: i < j < |entries| ==> entries[j].0 != entries[i].0
  }

  /** A key written more than once keeps the value of its last occurrence. */
  lemma {:induction false} UrlTableLastWins(entries: seq<(string, string)>, i: nat)
    requires i < |entries| && LastOccurrence(entries, i)
    ensures entries[i].0 in UrlTable(entries) && UrlTable(entries)[entries[i].0] == entries[i].1
  {
    var n := |entries| - 1;
    if i < n {
      UrlTableLastWins(entries[..n], i);
    }
  }

  const CASIO_ENTRIES: seq<(string, string)> := [("A1", "A1.mp3"), ("A2", "A2.mp3")]
  const CASIO_URLS := UrlTable(CASIO_ENTRIES)

  const SALAMANDER_ENTRIES: seq<(string, string)> := [
    ("A0", "A0.ogg"), ("C1", "C1.ogg"), ("D#1", "Ds1.ogg"), ("F#1", "Fs1.ogg"), ("A1", "A1.ogg"),
    ("C2", "C2.ogg"), ("D#2", "Ds2.ogg"), ("F#2", "Fs2.ogg"), ("A2", "A2.ogg"), ("C3", "C3.ogg"),
    ("D#3", "Ds3.ogg"), ("F#3", "Fs3.ogg"), ("A3", "A3.ogg"), ("C4", "C4.ogg"), ("D#4", "Ds4.ogg"),
    ("F#4", "Fs4.ogg"), ("A4", "A4.ogg"), ("C5", "C5.ogg"), ("D#5", "Ds5.ogg"), ("F#5", "Fs5.ogg"),
    ("A5", "A5.ogg"), ("C6", "C6.ogg"), ("D#6", "Ds6.ogg"), ("F#6", "Fs6.ogg"), ("A6", "A6.ogg"),
    ("C7", "C7.ogg"), ("D#7", "Ds7.ogg"), ("F#7", "Fs7.ogg")]
  const SALAMANDER_URLS := UrlTable(SALAMANDER_ENTRIES)

  const GUITAR_ACOUSTIC_ENTRIES: seq<(string, string)> := [
    ("A2", "A2.mp3"), ("A3", "A3.mp3"), ("A4", "A4.mp3"),
    ("A#2", "As2.mp3"), ("A#3", "As3.mp3"), ("A#4", "As4.mp3"),
    ("B2", "B2.mp3"), ("B3", "B3.mp3"), ("B4", "B4.mp3"),
    ("C3", "C3.mp3"), ("C4", "C4.mp3"), ("C5", "C5.mp3"),
    ("C#3", "Cs3.mp3"), ("C#4", "Cs4.mp3"), ("C#5", "Cs5.mp3"),
    ("D2", "D2.mp3"), ("D3", "D3.mp3"), ("D4", "D4.mp3"), ("D5", "D5.mp3"),
    ("D#2", "Ds2.mp3"), ("D#3", "Ds3.mp3"), ("D#4", "Ds4.mp3"),
    ("E2", "E2.mp3"), ("E3", "E3.mp3"), ("E4", "E4.mp3"),
    ("F2", "F2.mp3"), ("F3", "F3.mp3"), ("F4", "F4.mp3"),
    ("F#2", "Fs2.mp3"), ("F#3", "Fs3.mp3"), ("F#4", "Fs4.mp3"),
    ("G2", "G2.mp3"), ("G3", "G3.mp3"), ("G4", "G4.mp3"),
    ("G#2", "Gs2.mp3"), ("G#3", "Gs3.mp3"), ("G#4", "Gs4.mp3")]
  const GUITAR_ACOUSTIC_URLS := UrlTable(GUITAR_ACOUSTIC_ENTRIES)

  const GUITAR_ELECTRIC_ENTRIES: seq<(string, string)> := [
    ("A2", "A2.mp3"), ("A3", "A3.mp3"), ("A4", "A4.mp3"), ("A5", "A5.mp3"),
    ("C3", "C3.mp3"), ("C4", "C4.mp3"), ("C5", "C5.mp3"), ("C6", "C6.mp3"),
    ("C#2", "Cs2.mp3"),
    ("D#3", "Ds3.mp3"), ("D#4", "Ds4.mp3"), ("D#5", "Ds5.mp3"),
    ("E2", "E2.mp3"),
    ("F#2", "Fs2.mp3"), ("F#3", "Fs3.mp3"), ("F#4", "Fs4.mp3"), ("F#5", "Fs5.mp3")]
  const GUITAR_ELECTRIC_URLS := UrlTable(GUITAR_ELECTRIC_ENTRIES)

  const ORGAN_ENTRIES: seq<(string, string)> := [
    ("C1", "C1.mp3"), ("C2", "C2.mp3"), ("C3", "C3.mp3"), ("C4", "C4.mp3"), ("C5", "C5.mp3"), ("C6", "C6.mp3"),
    ("D#1", "Ds1.mp3"), ("D#2", "Ds2.mp3"), ("D#3", "Ds3.mp3"), ("D#4", "Ds4.mp3"), ("D#5", "Ds5.mp3"),
    ("F#1", "Fs1.mp3"), ("F#2", "Fs2.mp3"), ("F#3", "Fs3.mp3"), ("F#4", "Fs4.mp3"), ("F#5", "Fs5.mp3"),
    ("A1", "A1.mp3"), ("A2", "A2.mp3"), ("A3", "A3.mp3"), ("A4", "A4.mp3"), ("A5", "A5.mp3")]
  const ORGAN_URLS := UrlTable(ORGAN_ENTRIES)

  const HARMONIUM_ENTRIES: seq<(string, string)> := [
    ("C2", "C2.mp3"), ("C3", "C3.mp3"), ("C4", "C4.mp3"), ("C5", "C5.mp3"),
    ("C#2", "Cs2.mp3"), ("C#3", "Cs3.mp3"), ("C#4", "Cs4.mp3"), ("C#5", "Cs5.mp3"),
    ("D2", "D2.mp3"), ("D3", "D3.mp3"), ("D4", "D4.mp3"), ("D5", "D5.mp3"),
    ("D#2", "Ds2.mp3"), ("D#3", "Ds3.mp3"), ("D#4", "Ds4.mp3"),
    ("E2", "E2.mp3"), ("E3", "E3.mp3"), ("E4", "E4.mp3"),
    ("F2", "F2.mp3"), ("F3", "F3.mp3"), ("F4", "F4.mp3"),
    ("F#2", "Fs2.mp3"), ("F#3", "Fs3.mp3"),
    ("G2", "G2.mp3"), ("G3", "G3.mp3"), ("G4", "G4.mp3"),
    ("G#2", "Gs2.mp3"), ("G#3", "Gs3.mp3"), ("G#4", "Gs4.mp3"),
    ("A2", "A2.mp3"), ("A3", "A3.mp3"), ("A4", "A4.mp3"),
    ("A#2", "As2.mp3"), ("A#3", "As3.mp3"), ("A#4", "As4.mp3")]
  const HARMONIUM_URLS := UrlTable(HARMONIUM_ENTRIES)

  const TONEJS_AUDIO := "https://tonejs.github.io/audio/"
  const TONEJS_INSTRUMENTS := "https://nbrosowsky.github.io/tonejs-instruments/samples/"

  // ---------------------------------------------------------------------
  // The catalogs
  // ---------------------------------------------------------------------

  const INSTRUMENT_OPTIONS: seq<InstrumentOption> := [
    InstrumentOption("Triangle Wave", Synth, OscillatorPreset),
    InstrumentOption("Square Wave", Synth, OscillatorPreset),
    InstrumentOption("Sawtooth Wave", Synth, OscillatorPreset),
    InstrumentOption("Simple FM", FMSynth, OscillatorPreset),
    InstrumentOption("Plucky", PluckSynth, OscillatorPreset),
    InstrumentOption("Deep Bass", MonoSynth, OscillatorPreset),
    InstrumentOption("Ambient Pad", DuoSynth, OscillatorPreset),
    InstrumentOption("Bell", MetalSynth, OscillatorPreset),
    InstrumentOption("Casio Keyboard", Sampler, SamplerPreset(CASIO_URLS, TONEJS_AUDIO + "casio/")),
    InstrumentOption("Salamander Piano", Sampler, SamplerPreset(SALAMANDER_URLS, TONEJS_AUDIO + "salamander/")),
    InstrumentOption("Acoustic Guitar", Sampler, SamplerPreset(GUITAR_ACOUSTIC_URLS, TONEJS_INSTRUMENTS + "guitar-acoustic/")),
    InstrumentOption("Electric Guitar", Sampler, SamplerPreset(GUITAR_ELECTRIC_URLS, TONEJS_INSTRUMENTS + "guitar-electric/")),
    InstrumentOption("Organ", Sampler, SamplerPreset(ORGAN_URLS, TONEJS_INSTRUMENTS + "organ/")),
    InstrumentOption("Harmonium", Sampler, SamplerPreset(HARMONIUM_URLS, TONEJS_INSTRUMENTS + "harmonium/"))
  ]

  const VISUALIZER_OPTIONS: seq<VisualizerOption> := [
    VisualizerOption("Ball"),
    VisualizerOption("Bars"),
    VisualizerOption("Particle"),
    VisualizerOption("Circular")
  ]

  const PREFERRED_INSTRUMENT := "Salamander Piano"

  // ---------------------------------------------------------------------
  // Default-name resolution
  // ---------------------------------------------------------------------

  // InstrumentNames and VisualizerNames are proof aids: their ensures only
  // spell out the comprehension so that membership facts are usable.
  function InstrumentNames(options: seq<InstrumentOption>): (names: seq<string>)
    ensures |names| == |options|
    ensures forall i :: 0 <= i < |options| ==> names[i] == options[i].name
  {
    seq(|options|, i requires 0 <= i < |options| => options[i].name)
  }

  function VisualizerNames(options: seq<VisualizerOption>): (names: seq<string>)
    ensures |names| == |options|
    ensures forall i :: 0 <= i < |options| ==> names[i] == options[i].name
  {
    seq(|options|, i requires 0 <= i < |options| => options[i].name)
  }

  /**
   * Array.prototype.find with the predicate "name equals `name`": the index
   * of the first option carrying that name, or None when there is none.
   */
  function FindByName(options: seq<InstrumentOption>, name: string): (r: Option<nat>)
    ensures r.Some? ==> r.value < |options| && options[r.value].name == name
    ensures r.Some? ==> forall j :: 0 <= j < r.value ==> options[j].name != name
    ensures r.None? <==> forall j :: 0 <= j < |options| ==> options[j].name != name
  {
    if |options| == 0 then None
    else if options[0].name == name then Some(0)
    else match FindByName(options[1..], name)
      case None => None
      case Some(k) => Some(k + 1)
  }

  /**
   * `options.find(o => o.name === preferred)?.name || options[0].name`.
   * JavaScript's `||` also falls back when the found name is the empty
   * string, which is falsy; on an empty catalog the fallback reads `.name`
   * of `undefined` and throws, which is None here.
   */
  function DefaultName(options: seq<InstrumentOption>, preferred: string): (r: Option<string>)
  {
    var found := match FindByName(options, preferred)
      case None => ""
      case Some(k) => options[k].name;
    if found != "" then Some(found)
    else if |options| == 0 then None
    else Some(options[0].name)
  }

  /** `visualizerOptions[0].name`; reading index 0 of an empty list throws. */
  function FirstVisualizerName(options: seq<VisualizerOption>): (r: Option<string>)
    ensures r.Some? <==> |options| > 0
    ensures r.Some? ==> r.value == options[0].name && r.value in VisualizerNames(options)
  {
    if |options| == 0 then None else Some(options[0].name)
  }

  /** The resolver in terms of membership: preferred when present (and not empty), else the first name. */
  lemma DefaultNameSpec(options: seq<InstrumentOption>, preferred: string)
    ensures preferred != "" && preferred in InstrumentNames(options) ==> DefaultName(options, preferred) == Some(preferred)
    ensures (preferred == "" || preferred !in InstrumentNames(options)) && |options| > 0 ==>
              DefaultName(options, preferred) == Some(options[0].name)
    ensures DefaultName(options, preferred).None? <==> |options| == 0
    ensures DefaultName(options, preferred).Some? ==> DefaultName(options, preferred).value in InstrumentNames(options)
  {
    var names := InstrumentNames(options);
    if preferred in names {
      var i :| 0 <= i < |names| && names[i] == preferred;
      assert options[i].name == preferred;
    }
  }

  // ---------------------------------------------------------------------
  // Facts about the shipped data
  // ---------------------------------------------------------------------

  ghost predicate Distinct(names: seq<string>)
  {
    forall i, j :: 0 <= i < j < |names| ==> names[i] != names[j]
  }

  const DEFAULT_INSTRUMENT_NAME: Option<string> := DefaultName(INSTRUMENT_OPTIONS, PREFERRED_INSTRUMENT)
  const DEFAULT_VISUALIZER_NAME: Option<string> := FirstVisualizerName(VISUALIZER_OPTIONS)

  /** The shipped catalog contains the preferred piano, as its tenth entry, so it is the default. */
  lemma ShippedDefaultInstrument()
    ensures FindByName(INSTRUMENT_OPTIONS, PREFERRED_INSTRUMENT) == Some(9)
    ensures DEFAULT_INSTRUMENT_NAME == Some("Salamander Piano")
  {
    assert INSTRUMENT_OPTIONS[9].name == PREFERRED_INSTRUMENT;
    assert forall j :: 0 <= j < 9 ==> INSTRUMENT_OPTIONS[j].name != PREFERRED_INSTRUMENT;
  }

  /** The default visualizer is the first option, "Ball". */
  lemma ShippedDefaultVisualizer()
    ensures DEFAULT_VISUALIZER_NAME == Some("Ball")
  {
  }

  /** A catalog without the preferred name falls back to its first entry. */
  lemma FallbackScenario()
    ensures DefaultName([InstrumentOption("A", Synth, OscillatorPreset), InstrumentOption("B", Synth, OscillatorPreset)],
                        PREFERRED_INSTRUMENT) == Some("A")
  {
    var options := [InstrumentOption("A", Synth, OscillatorPreset), InstrumentOption("B", Synth, OscillatorPreset)];
    DefaultNameSpec(options, PREFERRED_INSTRUMENT);
    assert PREFERRED_INSTRUMENT !in InstrumentNames(options);
  }

  lemma InstrumentNamesDistinct()
    ensures Distinct(InstrumentNames(INSTRUMENT_OPTIONS))
  {
  }

  lemma VisualizerNamesDistinct()
    ensures Distinct(VisualizerNames(VISUALIZER_OPTIONS))
  {
  }

  // ---------------------------------------------------------------------
  // Sample file naming
  // ---------------------------------------------------------------------

  /** A note name with each sharp sign written as the letter `s` (the ensures are a proof aid). */
  function SharpAsS(note: string): (r: string)
    ensures |r| == |note|
    ensures forall i :: 0 <= i < |note| ==> r[i] == (if note[i] == '#' then 's' else note[i])
  {
    seq(|note|, i requires 0 <= i < |note| => if note[i] == '#' then 's' else note[i])
  }

  function SampleFile(note: string, ext: string): string
  {
    SharpAsS(note) + ext
  }

  ghost predicate FollowsConvention(urls: map<string, string>, ext: string)
  {
    forall note :: note in urls ==> urls[note] == SampleFile(note, ext)
  }

  /** A scientific pitch name as the tables key their samples: a letter, an optional sharp, an octave digit. */
  predicate IsNoteName(k: string)
  {
    (|k| == 2 || |k| == 3) &&
    'A' <= k[0] <= 'G' &&
    (|k| == 3 ==> k[1] == '#') &&
    '0' <= k[|k| - 1] <= '9'
  }

  ghost predicate WellFormedTable(urls: map<string, string>, ext: string)
  {
    (forall note :: note in urls ==> IsNoteName(note)) && FollowsConvention(urls, ext)
  }

  /** On a note name the file is the name itself, or for a sharp the letter, `s` and the octave. */
  lemma SampleFileOfNote(note: string, ext: string)
    requires IsNoteName(note)
    ensures SampleFile(note, ext) == (if |note| == 2 then note else [note[0], 's', note[2]]) + ext
  {
    var r := SharpAsS(note);
    if |note| == 2 {
      assert r == note;
    } else {
      assert r == [note[0], 's', note[2]];
    }
  }

  ghost predicate WellFormedEntries(entries: seq<(string, string)>, ext: string)
  {
    forall i :: 0 <= i < |entries| ==> IsNoteName(entries[i].0) && entries[i].1 == SampleFile(entries[i].0, ext)
  }

  /** A table written with well-formed pairs is a well-formed table. */
  lemma UrlTableWellFormed(entries: seq<(string, string)>, ext: string)
    requires WellFormedEntries(entries, ext)
    ensures WellFormedTable(UrlTable(entries), ext)
  {
    var urls := UrlTable(entries);
    forall note | note in urls
      ensures IsNoteName(note) && urls[note] == SampleFile(note, ext)
    {
      var i :| 0 <= i < |entries| && entries[i] == (note, urls[note]);
    }
  }

  /** Checks the pairs from index `lo` up to `hi` one by one. */
  lemma EntriesFollowConvention(entries: seq<(string, string)>, ext: string, lo: nat, hi: nat)
    requires lo <= hi <= |entries|
    requires forall i :: lo <= i < hi ==>
               IsNoteName(entries[i].0) &&
               entries[i].1 == (if |entries[i].0| == 2 then entries[i].0 else [entries[i].0[0], 's', entries[i].0[2]]) + ext
    ensures forall i :: lo <= i < hi ==> IsNoteName(entries[i].0) && entries[i].1 == SampleFile(entries[i].0, ext)
  {
    forall i | lo <= i < hi
      ensures entries[i].1 == SampleFile(entries[i].0, ext)
    {
      SampleFileOfNote(entries[i].0, ext);
    }
  }

  lemma CasioTable()
    ensures WellFormedTable(CASIO_URLS, ".mp3")
  {
    var half := |CASIO_ENTRIES| / 2;
    EntriesFollowConvention(CASIO_ENTRIES, ".mp3", 0, half);
    EntriesFollowConvention(CASIO_ENTRIES, ".mp3", half, |CASIO_ENTRIES|);
    UrlTableWellFormed(CASIO_ENTRIES, ".mp3");
  }

  lemma SalamanderTable()
    ensures WellFormedTable(SALAMANDER_URLS, ".ogg")
  {
    var half := |SALAMANDER_ENTRIES| / 2;
    EntriesFollowConvention(SALAMANDER_ENTRIES, ".ogg", 0, half);
    EntriesFollowConvention(SALAMANDER_ENTRIES, ".ogg", half, |SALAMANDER_ENTRIES|);
    UrlTableWellFormed(SALAMANDER_ENTRIES, ".ogg");
  }

  lemma GuitarAcousticTable()
    ensures WellFormedTable(GUITAR_ACOUSTIC_URLS, ".mp3")
  {
    var half := |GUITAR_ACOUSTIC_ENTRIES| / 2;
    EntriesFollowConvention(GUITAR_ACOUSTIC_ENTRIES, ".mp3", 0, half);
    EntriesFollowConvention(GUITAR_ACOUSTIC_ENTRIES, ".mp3", half, |GUITAR_ACOUSTIC_ENTRIES|);
    UrlTableWellFormed(GUITAR_ACOUSTIC_ENTRIES, ".mp3");
  }

  lemma GuitarElectricTable()
    ensures WellFormedTable(GUITAR_ELECTRIC_URLS, ".mp3")
  {
    var half := |GUITAR_ELECTRIC_ENTRIES| / 2;
    EntriesFollowConvention(GUITAR_ELECTRIC_ENTRIES, ".mp3", 0, half);
    EntriesFollowConvention(GUITAR_ELECTRIC_ENTRIES, ".mp3", half, |GUITAR_ELECTRIC_ENTRIES|);
    UrlTableWellFormed(GUITAR_ELECTRIC_ENTRIES, ".mp3");
  }

  lemma OrganTable()
    ensures WellFormedTable(ORGAN_URLS, ".mp3")
  {
    var half := |ORGAN_ENTRIES| / 2;
    EntriesFollowConvention(ORGAN_ENTRIES, ".mp3", 0, half);
    EntriesFollowConvention(ORGAN_ENTRIES, ".mp3", half, |ORGAN_ENTRIES|);
    UrlTableWellFormed(ORGAN_ENTRIES, ".mp3");
  }

  lemma HarmoniumTable()
    ensures WellFormedTable(HARMONIUM_URLS, ".mp3")
  {
    var half := |HARMONIUM_ENTRIES| / 2;
    EntriesFollowConvention(HARMONIUM_ENTRIES, ".mp3", 0, half);
    EntriesFollowConvention(HARMONIUM_ENTRIES, ".mp3", half, |HARMONIUM_ENTRIES|);
    UrlTableWellFormed(HARMONIUM_ENTRIES, ".mp3");
  }

  /** Renaming sharps to `s` loses nothing on note names, which never contain `s`. */
  lemma SampleFileInjective(a: string, b: string, ext: string)
    requires IsNoteName(a) && IsNoteName(b)
    requires SampleFile(a, ext) == SampleFile(b, ext)
    ensures a == b
  {
    var fa, fb := SampleFile(a, ext), SampleFile(b, ext);
    assert |a| == |b| by {
      assert |fa| == |a| + |ext| && |fb| == |b| + |ext|;
    }
    forall i | 0 <= i < |a|
      ensures a[i] == b[i]
    {
      assert fa[i] == SharpAsS(a)[i] && fb[i] == SharpAsS(b)[i];
    }
  }

  /** In a well-formed table two notes never share a sample file. */
  lemma TableFilesDistinct(urls: map<string, string>, ext: string, a: string, b: string)
    requires WellFormedTable(urls, ext)
    requires a in urls && b in urls && a != b
    ensures urls[a] != urls[b]
  {
    if urls[a] == urls[b] {
      SampleFileInjective(a, b, ext);
    }
  }

  /** Every sampler preset in the shipped catalog follows the convention for its format. */
  lemma ShippedSamplerTables()
    ensures forall i :: 0 <= i < |INSTRUMENT_OPTIONS| && INSTRUMENT_OPTIONS[i].synthType == Sampler ==>
              INSTRUMENT_OPTIONS[i].config.SamplerPreset? &&
              WellFormedTable(INSTRUMENT_OPTIONS[i].config.urls,
                              if INSTRUMENT_OPTIONS[i].name == "Salamander Piano" then ".ogg" else ".mp3")
  {
    CasioTable();
    SalamanderTable();
    GuitarAcousticTable();
    GuitarElectricTable();
    OrganTable();
    HarmoniumTable();
  }

  // ---------------------------------------------------------------------
  // Initial store values
  // ---------------------------------------------------------------------

  datatype NoteId = StringId(s: string) | NumberId(n: int)

  datatype ActiveNote = ActiveNote(id: NoteId, noteNumber: int, velocity: real)

  /** Opaque handles owned by the audio library and the application shell. */
  datatype SynthHandle = PolySynthHandle | SamplerHandle
  datatype AudioControls = AudioControls

  datatype StoreValues = StoreValues(
    activeNotes: map<NoteId, ActiveNote>,
    selectedInstrumentName: string,
    selectedVisualizerName: string,
    isAudioReady: bool,
    synthInstance: Option<SynthHandle>,
    audioControls: Option<AudioControls>)

  /**
   * The values the stores are created with; the two selections are the
   * resolved defaults, which exist for the shipped (non-empty) catalogs.
   */
  function InitialStores(): (s: StoreValues)
    ensures s.activeNotes == map[] && !s.isAudioReady && s.synthInstance.None? && s.audioControls.None?
    ensures s.selectedInstrumentName == "Salamander Piano" && s.selectedInstrumentName in InstrumentNames(INSTRUMENT_OPTIONS)
    ensures s.selectedVisualizerName == "Ball" && s.selectedVisualizerName in VisualizerNames(VISUALIZER_OPTIONS)
  {
    ShippedDefaultInstrument();
    StoreValues(map[], DEFAULT_INSTRUMENT_NAME.value, DEFAULT_VISUALIZER_NAME.value, false, None, None)
  }
}
