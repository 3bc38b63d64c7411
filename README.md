# UI feedback sounds and preset catalog of a browser keyboard, in Dafny

This project models the two pieces of logic in a browser-based musical
keyboard application. Everything else in it is configuration and calls into
Tone.js and Svelte.

- **UI sound manager** (`ui_sounds.dfy`, module `UISounds`, after
  `src/lib/ui/UISounds.ts`). The module-level state of the source is a class,
  `UISoundManager`, with the same four variables:
  - `uiSynth` and `noiseSynth`: nullable handles;
  - `isInitialized`;
  - `uiVolume`, in dB, initially -20.

  Each Tone.js synth is a `Synth` object. It has a `volume` that the manager
  changes in place, an append-only `log` of the triggers it was handed, and a
  `disposed` flag. Each logged trigger carries the synth's volume at the
  moment it was issued. The operations are:
  - `EnsureInitialized`: lazy construction, at most once;
  - `Play`: the guard on the audio context, then initialisation, then the
    switch (`Dispatch`);
  - `SetVolume`, `GetVolume` and `Dispose`.

  The per-type score is the pure table `Score`. `OnVoice` splits a score
  between the two synths and `Played` turns cues into logged triggers. The
  invariant `Valid()` holds between calls:
  - both synths exist exactly when the manager is initialised;
  - they are two distinct live synths;
  - the tonal synth sits at `uiVolume` and the noise synth at `uiVolume - 10`.
- **Preset catalog** (`stores.dfy`, module `Stores`, after
  `src/lib/stores.ts`). This module holds:
  - the instrument and visualizer option lists as constant sequences;
  - the sampler note-to-file tables, each written as the list of its literal
    key/value pairs and turned into a map by `UrlTable`;
  - the default-instrument resolver `DefaultName`, built on `FindByName`
    (a model of `Array.prototype.find`);
  - the first-entry default visualizer;
  - the initial values of the stores.

Abstractions:
- Whether the audio context is running is a boolean parameter of `Play`.
- `Tone.now()` is offset 0. Offsets are whole milliseconds: 0.03 s is 30.
- Note names and Tone.js duration tokens (`'32n'`, `'64n'`, …) are opaque
  strings.

Notes on the code:
- `record` issues its tone and its noise burst both at offset 0, so a whole
  score is only non-decreasing (`ScoreShape`). On each synth taken alone the
  offsets strictly increase (`VoicesStrictlyIncreasing`).
- The resolver is `find(...)?.name || options[0].name`. JavaScript's `||`
  also falls back when the found name is the empty string. On an empty
  catalog the fallback throws, and `DefaultName` returns `None` for that case.

## Model

| member | source | states |
|---|---|---|
| `UISounds.UISoundManager.constructor` | src/lib/ui/UISounds.ts:7-12 | The manager starts with no synths, not initialised, at a baseline of -20 dB, and satisfies the invariant. |
| `UISounds.UISoundManager.EnsureInitialized` | src/lib/ui/UISounds.ts:15-41 | If already initialised, the handles stay the same. Otherwise two fresh synths are built with empty logs, tonal at `uiVolume` and noise at `uiVolume - 10`. Afterwards the manager is initialised and `uiVolume` is unchanged. |
| `UISounds.UISoundManager.Play` | src/lib/ui/UISounds.ts:45-99 | When the context is not running, nothing at all changes. Otherwise the manager ends initialised, reusing existing synths or building fresh ones. Each synth's log grows by exactly its part of `Score(t)`: tonal cues at `uiVolume - DipDb(t)`, the noise burst at `uiVolume - 10`. `uiVolume` is unchanged and the invariant (tonal volume back at the baseline) holds. The null check after initialisation is proved unreachable. |
| `UISounds.UISoundManager.Dispatch` | src/lib/ui/UISounds.ts:54-98 | The switch: each synth's log grows by `Played(OnVoice(Score(t), …))`. The tonal synth ends at the baseline, so the knob/hover dip is fully restored. The noise synth's volume and both disposed flags are untouched. |
| `UISounds.UISoundManager.SetVolume` | src/lib/ui/UISounds.ts:101-105 | The baseline becomes `v`. Existing synths move to `v` and `v - 10` (by the invariant). Handles, the initialised flag and the logs are unchanged. |
| `UISounds.UISoundManager.GetVolume` | src/lib/ui/UISounds.ts:107-109 | Returns the baseline last set, not a synth's momentary volume. |
| `UISounds.UISoundManager.Dispose` | src/lib/ui/UISounds.ts:112-122 | Any existing synth is released (marked disposed, its log and volume untouched). Both handles become null and the manager is uninitialised, with `uiVolume` kept. The resulting state does not depend on the state before, so a second call changes nothing. |
| `UISounds.OnVoiceSelects` | src/lib/ui/UISounds.ts:55-97 | Splitting a score by synth keeps exactly the cues meant for that synth (noise bursts for the noise synth, pitches for the tonal one), and no more than the score. |
| `UISounds.OnVoiceKeepsOrder` | src/lib/ui/UISounds.ts:55-97 | If a score is in time order, so is each synth's part of it. |
| `UISounds.OnVoiceUniform` | src/lib/ui/UISounds.ts:55-97 | A score whose cues all belong to one synth goes to that synth whole and none of it goes to the other. |
| `UISounds.ScoreShape` | src/lib/ui/UISounds.ts:55-97 | Every score is non-empty, starts at offset 0, is non-decreasing in time, ends by 120 ms and has at least one tonal cue. |
| `UISounds.OnlyRecordUsesNoise` | src/lib/ui/UISounds.ts:93-97 | The noise synth gets a cue exactly for `record`, one 32n burst at 0. `record`'s tonal part is A5 at 0. Every other type sends its whole score to the tonal synth. |
| `UISounds.VoicesStrictlyIncreasing` | src/lib/ui/UISounds.ts:55-97 | On each synth, the offsets of a score's triggers strictly increase. |
| `UISounds.SwitchScenario` | src/lib/ui/UISounds.ts:60-64 | `switch` logs G5 at 0 and C6 at 30 ms, both 64n, at the baseline. |
| `UISounds.DippedTicks` | src/lib/ui/UISounds.ts:66-78 | The `knob` tick (A5) is logged 15 dB below the baseline and the `hover` tick (E5) 20 dB below it. |
| `UISounds.SilentUntilRunning` | src/lib/ui/UISounds.ts:47 | A play while the context is not running leaves a new manager uninitialised with empty logs. |
| `UISounds.VolumeBeforeFirstPlay` | src/lib/ui/UISounds.ts:101-109 | A volume set before any play is the one the synths are built with (`v` and `v - 10`), and `GetVolume` reports it. |
| `UISounds.DisposeAndRebuild` | src/lib/ui/UISounds.ts:112-122 | A second play reuses the same tonal synth. After two disposes, the next play builds a new one whose log holds only that play's triggers. The baseline is kept. |
| `Stores.FindByName` | src/lib/stores.ts:122 | `find` by name returns the first index whose name matches, or None exactly when no entry has that name. |
| `Stores.DefaultNameSpec` | src/lib/stores.ts:122 | The resolver returns the preferred name when an entry carries it (and it is not empty), else the first entry's name. It fails exactly on an empty catalog, and a result is always a name in the catalog. |
| `Stores.FirstVisualizerName` | src/lib/stores.ts:143 | The default visualizer exists exactly when the list is non-empty, and it is the name of the first entry. |
| `Stores.ShippedDefaultInstrument` | src/lib/stores.ts:99-122 | In the shipped catalog, 'Salamander Piano' is found at index 9 (the tenth entry) and is the default instrument. |
| `Stores.ShippedDefaultVisualizer` | src/lib/stores.ts:135-143 | The default visualizer is 'Ball'. |
| `Stores.FallbackScenario` | src/lib/stores.ts:122 | A catalog `[A, B]` without the preferred piano resolves to "A". |
| `Stores.InstrumentNamesDistinct` | src/lib/stores.ts:99-119 | The shipped instrument names are pairwise distinct. |
| `Stores.VisualizerNamesDistinct` | src/lib/stores.ts:135-140 | The shipped visualizer names are pairwise distinct. |
| `Stores.UrlTable` | src/lib/stores.ts:24-31 | The map an object literal denotes has exactly the written keys, and each key's value is one written beside it. |
| `Stores.UrlTableLastWins` | src/lib/stores.ts:24-31 | A key written more than once keeps the value of its last occurrence, as in a JavaScript object literal. |
| `Stores.SampleFileOfNote` | src/lib/stores.ts:24-31 | For a note name, the file name is the name itself plus the extension, or for a sharp the letter, `s` and the octave plus the extension. |
| `Stores.UrlTableWellFormed` | src/lib/stores.ts:24-31 | A table written with well-formed pairs maps only note names, each to its own file name. |
| `Stores.CasioTable` | src/lib/stores.ts:19 | Casio: every key is a note name and maps to its `.mp3` file. |
| `Stores.SalamanderTable` | src/lib/stores.ts:24-31 | Salamander: every key is a note name and maps to its `.ogg` file, with `#` written `s`. |
| `Stores.GuitarAcousticTable` | src/lib/stores.ts:38-51 | Acoustic guitar: every key maps to its `.mp3` file, with `#` written `s`. |
| `Stores.GuitarElectricTable` | src/lib/stores.ts:57-64 | Electric guitar: every key maps to its `.mp3` file, with `#` written `s`. |
| `Stores.OrganTable` | src/lib/stores.ts:70-75 | Organ: every key maps to its `.mp3` file, with `#` written `s`. |
| `Stores.HarmoniumTable` | src/lib/stores.ts:81-93 | Harmonium: every key maps to its `.mp3` file, with `#` written `s`. |
| `Stores.SampleFileInjective` | src/lib/stores.ts:24-31 | Writing `#` as `s` loses nothing on note names: two notes with the same file name are the same note. |
| `Stores.TableFilesDistinct` | src/lib/stores.ts:37-51 | In a well-formed table, two different notes never share a sample file. |
| `Stores.ShippedSamplerTables` | src/lib/stores.ts:113-118 | Every sampler preset in the catalog carries a well-formed table: `.ogg` for the Salamander piano, `.mp3` for the others. |
| `Stores.InitialStores` | src/lib/stores.ts:148-166 | The stores start with no active notes, 'Salamander Piano' and 'Ball' selected (both members of their catalogs), audio not ready, and no synth or audio controls. |

## Left out

- Tone.js itself is not modelled: synthesis, envelopes, oscillator and noise generation, `toDestination` routing, and the handles' `dispose()` beyond setting a flag. The audio clock's `now` is taken as offset 0 and the context state as a boolean parameter.
- Conversion of duration tokens and note names to seconds or frequencies is not modelled. It depends on Tone's transport, which is not part of this model.
- The preset configuration numbers (envelopes, harmonicity, release times, oscillator types) are not modelled. They are opaque values handed to the library, so oscillator presets are just `OscillatorPreset`.
- Fetching samples from the `baseUrl` locations is network I/O done by the library.
- Svelte `writable` get/set/subscribe behaviour is not modelled; only the stores' initial values are.
- Triggers that fire on the audio clock after `Dispose`, and errors thrown by the audio engine, are not modelled. This model is sequential.
- `Play`: the model stamps each trigger with the volume the synth has when the trigger is issued. Whether Tone.js still applies the dip once the volume is restored before the note sounds is outside the model.
- `SetVolume`: volumes are integers (dB); the source accepts any JavaScript number.
- `Dispatch` receives the two synths and the baseline as parameters instead of reading the manager's fields. `Play` passes it exactly those fields.
- `Stores.ActiveNote`: velocities are reals and numeric note ids are integers. The map store's contents after start-up are not modelled.
