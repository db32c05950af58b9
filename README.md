# Melody search front end: playback, query building and helpers, in Dafny

This project models the logic of a melody-search web client. The user enters a
melody on a stave, using an on-screen piano or the microphone, and the client
builds the query string the search back end reads. Result scores (MEI documents)
are paged, each matched note is coloured from its match degree, a score's title is
pulled out of its MEI text, and a score can be played back with a synthesiser on a
Tone.js transport. The modules are:

- `Optional`: the `Option` datatype (absent values such as `null`, `undefined` and missing attributes).
- `Text`: decimal rendering of integers, with the round trip for natural numbers, joining with a separator, and ASCII upper-casing.
- `Constants`: the duration tables and the keyboard-to-piano tables as exact maps.
- `MeiScore`: MEI note elements turned into playable notes, and `convertMeiDurationToTone`.
- `Timeline`: the start offsets of the playback events and the auto-stop time.
- `Playback`: the audio player. It has a class `AudioPlayer` whose fields are the
  composable's closure variables, the transport and the audio context. Each of its
  methods is proved equal to a pure transition function on a `Player` value. Every
  state reachable from a new player satisfies the invariant `Consistent`.
- `LazyMatch`: the leftmost, shortest match of `open.*?close` (the lazy, dot-all
  regular expressions the title extractor uses).
- `DataManager`: `getPageN` with JavaScript `slice` semantics, the `createNotesQueryParam`
  serialiser (imperative, with its nested loops), `extractTitleFromMeiXML`, and the
  unclamped colour ramp.
- `ColorService`: the clamped colour ramp and `interpolateBetweenColors`.
- `InputMode`: the `SwitchInput` class and its lazily created shared instance.

Some things are parameters rather than computed:

- Tone.js is not modelled. The transport is a value with a state, a tempo and the list of what is scheduled on it.
- `Tone.Time(d).toSeconds()` is a parameter `secondsOf(bpm, d)`.
- Whether `Tone.start()` succeeds is a boolean parameter.
- The note elements of the parsed XML document are an input sequence.
- The callbacks are opaque identifiers.
- What the player makes happen outside is recorded in `effects`: notes triggered, the remove-highlight callback called, and notes highlighted.

Numbers are exact reals. Every duration in the tables is a dyadic rational, so
those values agree with the JavaScript ones.

Where the code and its documentation differ, the model follows the code:

- `playScore` sets the tempo only after checking that notes were found. With no notes the tempo is unchanged.
- The colour text is `rgb(r, g, b)` with ", " separators. The doc comment says `rgb(r,g,b)`.
- The data manager's `getGradientColor` does not clamp. A degree outside [0, 1] can give channels outside 0..255 (degree 2 gives rgb(-430, 107, 0)).
- In `createNotesQueryParam` the trim of the pitch list is unconditional too. A note with no keys loses its "([".

## Model

| member | source | states |
|---|---|---|
| MeiScore.ConvertMeiDurationToTone | src/composables/useAudioPlayer.ts:79-90 | "1", "2", "4", "8", "16", "32" map to the code followed by "n"; every other string maps to "4n"; the result is always one of the six Tone.js durations |
| MeiScore.Kept | src/composables/useAudioPlayer.ts:50-56 | the positions of the elements whose pitch class and octave are both non-empty, strictly increasing; every such position is included; no more positions than elements |
| MeiScore.ParseMeiToNotes | src/composables/useAudioPlayer.ts:43-72 | the loop pushing one note per kept element returns exactly `ParseNotes` of the elements |
| MeiScore.ParseNotesSelectsKept | src/composables/useAudioPlayer.ts:50-69 | the output has one note per kept element, in document order, so it is no longer than the input; note k is built from the k-th kept element and its position |
| MeiScore.EmittedNoteFields | src/composables/useAudioPlayer.ts:51-66 | an emitted pitch is the upper-cased pitch class followed by the octave; an absent or empty `dur` gives "4n"; the id is `xml:id` when non-empty, else "note-i", where i counts skipped elements too |
| MeiScore.SynthesizedIdsDistinct | src/composables/useAudioPlayer.ts:66 | two notes that both get a synthesized id get different ids |
| Timeline.BuildTimeline | src/composables/useAudioPlayer.ts:116-132 | the running-clock loop yields event k at the total length of notes 0..k-1; the auto-stop time, the last event's start plus its length (0 without events), is the total length of all notes |
| Timeline.EventsAreBackToBack | src/composables/useAudioPlayer.ts:117-128 | one event per note; the first starts at 0; each starts when the previous one ends |
| Timeline.AutoStopAtEnd | src/composables/useAudioPlayer.ts:131-135 | the auto-stop is scheduled at the end of the last event, which is the sum of all durations |
| Timeline.EventsNondecreasing | src/composables/useAudioPlayer.ts:117-135 | with non-negative durations, start offsets are non-negative, never decrease and never exceed the auto-stop time |
| Timeline.PrefixTotalsGrow | src/composables/useAudioPlayer.ts:126-127 | with non-negative durations the running clock never goes back |
| Timeline.ThreeNoteScenario | src/composables/useAudioPlayer.ts:116-135 | two quarters and a half at half a second per quarter start at 0, 0.5 and 1.0 and stop at 2.0 |
| Playback.Initial | src/composables/useAudioPlayer.ts:14-21 | a new player is stopped, neither playing nor paused, and consistent |
| Playback.AfterStop | src/composables/useAudioPlayer.ts:193-210 | from any state: stopped, not playing or paused, no part, transport stopped with nothing scheduled; tempo, callbacks, synthesiser and context unchanged |
| Playback.AfterPause | src/composables/useAudioPlayer.ts:169-176 | only a started transport is paused (flags paused, part unchanged); otherwise nothing changes; callbacks, synthesiser and context are never touched; consistency is kept |
| Playback.AfterResume | src/composables/useAudioPlayer.ts:181-188 | only a paused transport is restarted (flags playing, part unchanged); otherwise nothing changes; callbacks, synthesiser and context are never touched; consistency is kept |
| Playback.AfterUpdateTempo | src/composables/useAudioPlayer.ts:216-218 | only the transport tempo changes, to the new value |
| Playback.AfterSetHighlightCallbacks | src/composables/useAudioPlayer.ts:225-228 | the new pair of callbacks replaces the old; nothing else changes |
| Playback.AfterInitializeTone | src/composables/useAudioPlayer.ts:28-36 | fails exactly when the context is not running and cannot start; otherwise the context runs and a synthesiser exists |
| Playback.AfterPlayScore | src/composables/useAudioPlayer.ts:97-164 | an active player is stopped first (its stop effects); the highlight callbacks are kept; with a failed start or no notes the player ends stopped, nothing scheduled, tempo unchanged; otherwise it plays with the transport started at the new tempo, the part holding the timeline of the parsed notes at that tempo, and the auto-stop at their total length scheduled before the part |
| Playback.EventEffects | src/composables/useAudioPlayer.ts:138-150 | per event: the synthesiser, when present, plays the note's pitch and duration at the event time first; only when a highlight callback is set, the remove-highlight callback (when set) runs just before the note is highlighted |
| Playback.AfterPlayNote | src/composables/useAudioPlayer.ts:235-240 | fails exactly when the audio cannot start; otherwise one note is triggered at once and only the synthesiser and context change |
| Playback.StopIdempotent | src/composables/useAudioPlayer.ts:193-210 | stopping twice is stopping once |
| Playback.PauseResumeRoundTrip | src/composables/useAudioPlayer.ts:169-188 | pause changes only a playing player, resume only a paused one; pausing then resuming a playing player restores it |
| Playback.ReachableStatesConsistent | src/composables/useAudioPlayer.ts:14-16 | after any sequence of commands from a new player (auto-stop included) the state is consistent: exactly one of playing, paused and stopped holds |
| Playback.AudioPlayer.constructor | src/composables/useAudioPlayer.ts:14-21 | the fields start as the initial player state, with no effects |
| Playback.AudioPlayer.InitializeTone | src/composables/useAudioPlayer.ts:28-36 | succeeds and updates the state exactly as `AfterInitializeTone`; on failure nothing changes |
| Playback.AudioPlayer.StopScore | src/composables/useAudioPlayer.ts:193-210 | the new state is `AfterStop` of the old, the remove-highlight callback is recorded when set, and the state is valid |
| Playback.AudioPlayer.PlayScore | src/composables/useAudioPlayer.ts:97-164 | the new state and the recorded effects are those of `AfterPlayScore`, and the state stays valid |
| Playback.AudioPlayer.StartPart | src/composables/useAudioPlayer.ts:113-160 | sets the tempo, builds the timeline, schedules the auto-stop and then the part, starts the transport and sets the flags to playing |
| Playback.AudioPlayer.PauseScore | src/composables/useAudioPlayer.ts:169-176 | the new state is `AfterPause` of the old; the state stays valid |
| Playback.AudioPlayer.ResumeScore | src/composables/useAudioPlayer.ts:181-188 | the new state is `AfterResume` of the old; the state stays valid |
| Playback.AudioPlayer.UpdateTempo | src/composables/useAudioPlayer.ts:216-218 | the new state is `AfterUpdateTempo` of the old |
| Playback.AudioPlayer.SetHighlightCallbacks | src/composables/useAudioPlayer.ts:225-228 | the new state is `AfterSetHighlightCallbacks` of the old |
| Playback.AudioPlayer.PlayNote | src/composables/useAudioPlayer.ts:235-240 | new state and effects as `AfterPlayNote`; no change when the audio cannot start |
| Playback.AudioPlayer.FirePartEvent | src/composables/useAudioPlayer.ts:138-150 | the effects of one part event are appended exactly as `EventEffects`; the state is unchanged |
| Constants.Reciprocal | src/constants/index.ts:2-9 | for every duration code, the reciprocal of its length is a whole number, one of 1, 2, 4, 8, 16, 32 |
| Constants.DurationsDouble | src/constants/index.ts:2-9 | the codes 32, 16, 8, q, h, w have lengths 1/32 up to 1, each twice the previous |
| Constants.DottedTableExtendsPlain | src/constants/index.ts:2-23 | the dotted table agrees with the plain one on the six plain codes |
| Constants.DottedIsThreeHalves | src/constants/index.ts:11-23 | each code except "w" has a dotted form worth 3/2 of it; there is no "wd"; the dotted table holds exactly the plain codes and these dotted ones |
| Constants.AzertyMappingWellFormed | src/constants/index.ts:26-51 | every octave is 0 or 1; every pitch is a chromatic name or the rest; only "b" is the rest |
| Constants.QwertyConversionInjective | src/constants/index.ts:54-65 | no two QWERTY keys map to the same AZERTY key; q/a and w/z are swapped |
| LazyMatch.FirstMatch | src/services/dataManagerServices.ts:131-137 | the reported match is a match, the leftmost one and, among those, the shortest; none is reported exactly when there is no match |
| LazyMatch.Match | src/services/dataManagerServices.ts:131-137 | the matched text starts with the opening and ends with the closing text; absent exactly when nothing matches |
| DataManager.GetPageN | src/services/dataManagerServices.ts:15-17 | for a page number of at least 1 and a non-negative size, a page holds at most that many items |
| DataManager.PageIsContiguous | src/services/dataManagerServices.ts:15-17 | for any integer arguments, negative ones included, a page is a contiguous run of the data |
| DataManager.PageIsWindow | src/services/dataManagerServices.ts:15-17 | for page p at least 1 and size n at least 0, page p is the data from min((p-1)n, len) to min(pn, len), at most n items |
| DataManager.FirstPagesArePrefix | src/services/dataManagerServices.ts:15-17 | pages 1..k put together are the first min(kn, len) items: consecutive pages are adjacent and do not overlap |
| DataManager.DropLastTwo | src/services/dataManagerServices.ts:110-122 | `slice(0, -2)` drops the last two characters, and leaves nothing from a shorter string |
| DataManager.CreateNotesQueryParam | src/services/dataManagerServices.ts:94-125 | the nested loops with their two trims return exactly `NotesQueryParam`: "[" then one tuple per note, in melody order, joined by ", ", then "]"; "]" for the empty melody |
| DataManager.AppendTuple | src/services/dataManagerServices.ts:97-119 | one pass of the outer loop appends the note's tuple followed by ", " |
| DataManager.TupleParts | src/services/dataManagerServices.ts:100-119 | a key gives "None" when the pitch is ignored (before the rest test), else "'r'" for a rest, else the quoted key; the duration part is "None, 0" when the rhythm is ignored, else a whole reciprocal (1 to 32, NaN for an unknown code) and the dot count (0 when absent) |
| DataManager.QueryParamSmall | src/services/dataManagerServices.ts:95-122 | the empty melody gives "]"; one note gives its tuple in brackets |
| DataManager.QueryParamAppend | src/services/dataManagerServices.ts:96-122 | appending a note inserts ", " and its tuple before the closing bracket |
| DataManager.TrimPitchList | src/services/dataManagerServices.ts:110 | the trim after the pitch loop yields "([" and the keys joined by ", ", or removes the "([" when there are no keys |
| DataManager.TrimFinal | src/services/dataManagerServices.ts:122 | the final trim removes the last ", " after the tuples, and the lone "[" when there are none |
| DataManager.TagText | src/services/dataManagerServices.ts:133-138 | the text between the first '>' and the first '<' after it, which holds no '<'; absent exactly when no '>' is followed by a '<' |
| DataManager.ExtractTitleFromMeiXML | src/services/dataManagerServices.ts:127-141 | the page-head title if present (even when empty), else the title element's, else "Titre inconnu"; never contains '<' |
| DataManager.GradientChannels | src/services/dataManagerServices.ts:27-47 | the unclamped ramp of this file is the colour service's ramp before its clamp; blue is 0 |
| DataManager.GetGradientColor | src/services/dataManagerServices.ts:27-65 | the text of this file's unclamped ramp, computed through `interpolateBetweenColors` along the half the degree falls in |
| DataManager.RampsAgree | src/services/dataManagerServices.ts:27-65 | the clamped ramp at a degree is this ramp at the clamped degree, so the two agree on [0, 1]; red at 0, dark yellow at 0.5, dark green at 1 |
| DataManager.UnclampedLeavesRange | src/services/dataManagerServices.ts:42-44 | without clamping, degree 2 gives the red channel -430, outside 0..255 |
| ColorService.Round | src/services/colorService.ts:40-42 | `Math.round` gives the integer within half of its argument, halves rounded up |
| ColorService.MixChannel | src/services/colorService.ts:39-42 | delta 0 gives the target channel and delta 1 the source channel; for delta in [0, 1] the result lies between them |
| ColorService.Interpolate | src/services/colorService.ts:34-45 | returns `toColor` at 0 % and `fromColor` at 100 %; for percent in [0, 100] every channel lies between the endpoint channels, so valid colours give a valid colour |
| ColorService.InterpolateBetweenColors | src/services/colorService.ts:34-45 | the text of `toColor` at 0 % and of `fromColor` at 100 % |
| ColorService.Clamp | src/services/colorService.ts:16 | the degree limited to [0, 1]: unchanged inside, 0 below, 1 above |
| ColorService.GradientChannels | src/services/colorService.ts:10-25 | the ramp at the clamped degree; always a valid colour with blue 0; up to 0.5 between red and dark yellow, above 0.5 between dark yellow and dark green |
| ColorService.GetGradientColor | src/services/colorService.ts:10-25 | clamps, then interpolates along the half of the ramp the degree falls in; the result is the text of `GradientChannels` |
| ColorService.GradientOfClamped | src/services/colorService.ts:16 | the colour of a degree is the colour of its clamped value |
| ColorService.GradientEndpoints | src/services/colorService.ts:11-24 | 0 gives "rgb(255, 0, 0)", 0.5 gives "rgb(215, 215, 0)", 1 gives "rgb(0, 179, 0)" |
| ColorService.GradientTextForm | src/services/colorService.ts:42-44 | the text is "rgb(r, g, 0)" with ", " between the channels |
| Text.NatTextRoundTrip | src/services/colorService.ts:44 | reading back the decimal text of a number gives the number |
| Text.NatTextInjective | src/composables/useAudioPlayer.ts:66 | different numbers have different decimal texts |
| InputMode.SwitchInput.constructor | src/lib/switch_input.js:14-20 | a new switch has the piano selected |
| InputMode.SwitchInput.IsPianoSelected | src/lib/switch_input.js:37-39 | true exactly when the piano is selected |
| InputMode.SwitchInput.IsMicrophoneSelected | src/lib/switch_input.js:44-46 | always the negation of `isPianoSelected` |
| InputMode.SwitchInput.DisplayPiano | src/lib/switch_input.js:51-53 | the piano is selected afterwards, whatever was selected before |
| InputMode.SwitchInput.DisplayMicrophone | src/lib/switch_input.js:58-60 | the microphone is selected afterwards, whatever was selected before |
| InputMode.SwitchInput.Toggle | src/lib/switch_input.js:65-68 | the selection is flipped |
| InputMode.ToggleTwiceRestores | src/lib/switch_input.js:65-68 | toggling twice restores the selection |
| InputMode.DisplayIsIdempotent | src/lib/switch_input.js:51-60 | selecting the same input twice leaves it selected |
| InputMode.Registry.GetInstance | src/lib/switch_input.js:16-32 | the first call creates a switch with the piano selected and keeps it; every later call returns that same object |
| InputMode.GetInstanceIsShared | src/lib/switch_input.js:26-32 | two calls in a row return the same object |

## Left out

- Tone.js itself: audio output, the synthesiser's sound, `synth.dispose`, and the frame-synchronised `Tone.Draw` scheduling. A highlight is recorded at the moment the part event fires.
- The exact `Tone.Time(...).toSeconds()` formula: it is the parameter `secondsOf(bpm, duration)`. Re-interpreting already scheduled events after a tempo change is not modelled.
- `DOMParser` and `querySelectorAll`: the note elements are an input sequence of their four attributes.
- The `async`/`await` interleavings of `playScore` and `playNote`, the logging in `playScore`'s catch, and the `onUnmounted` hook. The calls are modelled as running to completion one after another.
- The firing of the scheduled auto-stop is the `AutoStopReached` command, which stops like `stopScore`; it is not tied to a clock.
- `colorMatches`: DOM writes scheduled with `nextTick`.
- One transport per player: Tone.js has a single transport for the whole page, shared by every `useAudioPlayer()` instance. The model gives each `AudioPlayer` its own transport, and `Consistent` relies on that. With two players, one's stop would cancel the other's auto-stop, and a pause on a stopped player could mark it paused. The model does not capture that interference.
- Default arguments: the default tempo of 120 for `playScore` and the default duration "4n" for `playNote` are not modelled. Both parameters are always given.
- The microphone recorder, the HTTP client set-up, the router, the type declarations and the tooltip texts: none of them is part of this model.
- IEEE-754 rounding: all arithmetic is on exact reals. The duration tables are exact in both.
- `toUpperCase` outside ASCII: `Text.Upper` changes only 'a'..'z'.
- Inherited object-prototype keys in the JavaScript lookup tables (such as "constructor"): the model's maps hold only the listed keys.
- DataManager.GetPageN: integer page numbers and sizes only. Fractional or non-numeric arguments and the `'*'` of the doc comment are not modelled.
- DataManager.CreateNotesQueryParam: the stave note is a record with keys, note type, duration code and an optional dot count. Only a missing dot count is read as 0; other untyped values are left out.
- ColorService.InterpolateBetweenColors: modelled once, although both service files carry an identical copy.
- Playback.AudioPlayer.SetHighlightCallbacks: callbacks are identifiers, and what they do to the page is not modelled.
