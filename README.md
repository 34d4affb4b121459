# Waveform letter editor: state-machine model

This project models the editor state behind the waveform-labelling editor in `src/main.ts`. The editor loads two channels of audio samples. It renders one clickable element per sample per channel. The user selects one sample and types a letter for it. Two buttons zoom the timeline. The DOM is modelled only through what the handlers write into it and read back from it:

- the text of each rendered sample's letter display;
- whether each rendered sample carries the `has-letter` and `selected` classes;
- the text of the `selection-info` element.

Modules:

- `Zoom` (`zoom.dfy`): the zoom constants, the clamped zoom-in and zoom-out steps, and what any sequence of button presses does to the zoom level.
- `Keys` (`keys.dfy`): the keydown handler's tests on `key`. `Classify` is a reference definition of what each key means. Lemmas connect it to the handler's upper-case-then-test code path.
- `SelectionInfo` (`selection_info.dfy`): the `CH<channel> #<index>: <letter>` text and a parser for it. The round trip shows that the text names the selected sample and its letter unambiguously. The editor writes the text as the source spells it (`InfoTextAsWritten`, whose blank-letter placeholder is `â€”`). The intended text with an em dash (`InfoText`) is the corrected half of the finding below.
- `Editor` (`editor.dfy`): the class `EditorState`. Its fields are the module-level globals and the DOM state listed above. Its methods are the handlers. `Valid()` is the invariant they keep:
  - the timeline shows exactly the samples of the loaded audio;
  - `has-letter` is set exactly on non-blank letters;
  - at most the selected sample is highlighted;
  - the zoom stays a reachable level.

Where a reader might expect otherwise, the code in `src/main.ts` does the following:

- Arrow keys do not move the selection. `"ArrowLeft".toUpperCase()` fails the one-letter test, so the key is ignored (`Keys.OtherKeysIgnored`).
- A load clears every letter but keeps `selectedSample`, and it does not refresh the info text. A kept selection that now names no element makes later key presses write nothing.
- There is no separate input track. Letters live on the two amplitude channels, and each channel has its own letter for a given index.
- Clicking selects a `(channel, index)` pair. It highlights the clicked element only, not the same index on the other channel.
- Transport (play/pause) controls do not exist in this file.

## Model

| member | source | states |
|---|---|---|
| `Zoom.ZoomedIn` | src/main.ts:273-275 | the level after zoom-in: never lower, at most one step higher, and either unchanged or at most 100 |
| `Zoom.ZoomedOut` | src/main.ts:280-282 | the level after zoom-out: never higher, at most one step lower, and either unchanged or at least 20 |
| `Zoom.ZoomInStep` | src/main.ts:272-277 | zoom-in at or above 100 leaves the level unchanged; below it the level rises, by exactly 10 or up to the cap of 100; from a reachable level it rises by exactly one step |
| `Zoom.ZoomOutStep` | src/main.ts:279-284 | zoom-out at or below 20 leaves the level unchanged; above it the level falls, by exactly 10 or down to the floor of 20; from a reachable level it falls by exactly one step |
| `Zoom.ZoomRoundTrip` | src/main.ts:272-284 | from a reachable level that is not at the bound, zoom-in then zoom-out (and zoom-out then zoom-in) restores the level |
| `Zoom.ApplyKeepsZoomLevel` | src/main.ts:272-284 | one button press keeps the zoom in [20, 100] and a multiple of 10 |
| `Zoom.ApplyAllKeepsZoomLevel` | src/main.ts:272-284 | any sequence of presses keeps the zoom in [20, 100] and a multiple of 10 |
| `Zoom.ZoomFromDefaultStaysInRange` | src/main.ts:11-14 | starting from the default 40, every sequence of presses leaves the zoom in [MIN_ZOOM, MAX_ZOOM] and on the ZOOM_STEP grid |
| `Zoom.RepeatedZoomInSaturates` | src/main.ts:272-277 | n zoom-ins from a reachable level give min(level + 10n, 100) |
| `Zoom.RepeatedZoomOutSaturates` | src/main.ts:279-284 | n zoom-outs from a reachable level give max(level - 10n, 20) |
| `Keys.ToUpper` | src/main.ts:124 | the upper-cased key has the same length, turns each lowercase ASCII letter into the capital at the same place in the alphabet (`q` to `Q`), keeps every other character, and so holds no ASCII lowercase letter and has an ASCII letter exactly where the key has one |
| `Keys.PassesLetterTest` | src/main.ts:124-125 | upper-casing the key and then requiring one character from A to Z accepts exactly the one-character keys that are ASCII letters of either case; every longer key name, digit or punctuation key is refused |
| `Keys.Classify` | src/main.ts:112-129 | what a key does to the selection: Escape deselects, Backspace/Delete clear, a single letter of either case sets its uppercase form (always A..Z, so always a label), anything else is ignored |
| `Keys.LetterTestMatchesClassify` | src/main.ts:124-127 | the handler's letter test accepts exactly the keys `Classify` calls letters, and passes on the same uppercase letter |
| `Keys.NamedKeysFailLetterTest` | src/main.ts:115-127 | Escape, Backspace and Delete fail the letter test, so Backspace/Delete, which fall through to it, assign nothing after clearing |
| `Keys.OtherKeysIgnored` | src/main.ts:124-125 | a single non-letter character, or a key name other than Escape/Backspace/Delete (Enter, ArrowLeft, ...), is ignored and fails the letter test |
| `SelectionInfo.Decimal` | src/main.ts:187 | the decimal text of a channel or index is at least one digit, all digits, without a leading zero |
| `SelectionInfo.DecimalRoundTrip` | src/main.ts:187 | reading the decimal text back gives the number |
| `SelectionInfo.Shown` | src/main.ts:185 | the letter part shows the letter, or the placeholder when blank; reading it back recovers every label when the placeholder is not itself a letter |
| `SelectionInfo.InfoTextWith` | src/main.ts:187 | the info text starts with `CH` and ends with the shown letter part |
| `SelectionInfo.InfoTextAsWritten` | src/main.ts:185-187 | the text the editor writes: it starts with `CH`, ends with the letter, or with the three characters `â€”` when the letter is blank |
| `SelectionInfo.InfoText` | src/main.ts:187 | the intended text: it starts with `CH`, ends with the letter, or with an em dash when the letter is blank |
| `SelectionInfo.InfoTextWithRoundTrip` | src/main.ts:184-187 | for any placeholder that is not a letter, parsing `CH<c> #<i>: <letter or placeholder>` gives back the channel, the index and the letter |
| `SelectionInfo.InfoTextAsWrittenRoundTrip` | src/main.ts:184-187 | parsing the text the editor writes gives back the channel, the index and the letter (blank when `â€”` is shown), for every label |
| `SelectionInfo.InfoTextAsWrittenInjective` | src/main.ts:184-187 | two selections show the same text in the editor only if they name the same channel, index and letter |
| `SelectionInfo.InfoTextRoundTrip` | src/main.ts:184-187 | parsing the intended text gives back the channel, the index and the letter (blank when the em dash is shown), for every label |
| `SelectionInfo.InfoTextInjective` | src/main.ts:184-187 | two selections show the same intended text only if they name the same channel, index and letter |
| `SelectionInfo.PlaceholderAsWrittenIsMisencoded` | src/main.ts:185 | the placeholder as written is the UTF-8 encoding of an em dash read as Windows-1252, so an unlabelled selection shows `CH1 #0: â€”` instead of `CH1 #0: —` |
| `SelectionInfo.AsWrittenAgreesOnLetters` | src/main.ts:185 | the as-written and corrected texts agree whenever the sample has a letter |
| `Editor.Assigned` | src/main.ts:131-150 | writing a letter for (channel, index) changes that display only, leaves the set of elements the same, and does nothing when no element exists for the pair (so the same index on the other channel is untouched) |
| `Editor.AssignThenClear` | src/main.ts:120-150 | a letter followed by a clear equals a clear alone; on a blank, freshly rendered sample it restores the displays exactly |
| `Editor.AssignedKeepsLabels` | src/main.ts:120-127 | writing labels keeps every letter display blank or one uppercase letter |
| `Editor.EditorState.constructor` | src/main.ts:9-11 | the initial state: no audio, no selection, zoom 40, no rendered samples |
| `Editor.EditorState.RenderTimeline` | src/main.ts:28-49 | with audio loaded, the old elements are replaced by exactly one element per entry of each channel, indexed by position, blank and without `has-letter` or `selected`; without audio nothing changes |
| `Editor.EditorState.LoadAudioData` | src/main.ts:16-26 | the new audio is stored and rendered with every letter blank; the selection, zoom and info text are kept |
| `Editor.EditorState.DeselectSamples` | src/main.ts:104-109 | the selection is cleared and no element stays highlighted |
| `Editor.EditorState.UpdateSelectionInfo` | src/main.ts:166-188 | the info text becomes empty with no selection, `CH<c> #<i>: <letter or â€”>` (as written) when the selected sample has an element, and is left alone otherwise |
| `Editor.EditorState.SelectSample` | src/main.ts:93-102 | exactly the clicked sample is selected and highlighted, letters are untouched, and the info text (as written) names it and its letter |
| `Editor.EditorState.AssignLetter` | src/main.ts:131-153 | the sample's display holds the letter and carries `has-letter` exactly when the letter is non-blank, every other display is unchanged, and the info text is refreshed (as written); nothing changes when the sample has no element |
| `Editor.EditorState.KeyDown` | src/main.ts:112-129 | inert without selection or audio; Escape drops the selection, keeping letters and info text; Backspace/Delete blank the selected sample's letter and the refreshed info text ends in `â€”`; a letter key sets its uppercase form and `has-letter`; any other key changes nothing; every display stays a label |
| `Editor.EditorState.ZoomIn` | src/main.ts:272-277 | the zoom becomes `ZoomedIn` of the old level and stays reachable |
| `Editor.EditorState.ZoomOut` | src/main.ts:279-284 | the zoom becomes `ZoomedOut` of the old level and stays reachable |
| `Editor.TypeThenBackspace` | src/main.ts:112-153 | a letter typed on a selected blank sample and then Backspace leave the audio, the zoom, the selection, the letters and `has-letter` classes as they were, and the info text ends in the placeholder `â€”` that the code writes |

## Left out

- Presentation is not modelled. This covers the bar height `Math.max(value * 100, 2)%` (floating-point display math, src/main.ts:69) and the index label text (src/main.ts:78-82). It also covers the sample-count text (src/main.ts:155-164) and the `--sample-width` style set by `applyZoom` (src/main.ts:286-287). Sample amplitudes are carried as `real` values and never inspected.
- The unified scrollbar and its `isScrolling` latch (src/main.ts:227-270) are not modelled. Neither are the `setTimeout` and `requestAnimationFrame` callbacks (src/main.ts:52-56, 289-294). They depend on browser event ordering and layout-engine scroll clamping.
- The file dialog and the `get_wav_data` call (src/main.ts:18, 190-225) are host I/O. The call at src/main.ts:18 passes only `path`, while the command it names takes a required `rate` argument as well (src-tauri/src/lib.rs:5). Tauri refuses an invocation that omits a required command argument. So, as the two files stand, every load is refused, the error is caught at src/main.ts:210-211, `audioData` stays `null`, and only the zoom buttons have any effect. The model assumes a call that succeeds: `LoadAudioData` and every state reached after it describe the editor once the decoder answers. A load is modelled as receiving the two decoded channels. A failed decode throws before `audioData` is assigned, which leaves the state untouched. It is not a separate operation. A decoder answer with fewer than two channels is not modelled.
- The guards for missing page elements are assumed to pass: `channel-1`, `channel-2` and `selection-info` exist (src/main.ts:34, 133, 167-168, 176). The page markup is not part of this model, so the initial `selection-info` text is a constructor parameter.
- Keys.ToUpper: upper-cases ASCII letters only and leaves other characters unchanged. JavaScript's full Unicode case mapping (`"ı"` to `"I"`, `"ß"` to `"SS"`) is not modelled. So the model ignores the non-ASCII keys that JavaScript would upper-case to a letter A..Z.
- Keys.PassesLetterTest: inherits the same gap. It refuses a key such as `"ı"`, which JavaScript upper-cases to `"I"` and so would accept.
- Keys are Unicode scalar sequences. A key outside the Basic Multilingual Plane has length 2 in JavaScript and length 1 here. Either way it fails the A..Z test.
- Event interleaving is not modelled. Clicks, key presses and zoom presses each run to completion. The load handler (src/main.ts:197-213) and `loadAudioData` (src/main.ts:16-26) are async, and other events can run while they wait on `open` and on `get_wav_data`. No state changes before the last wait. Once the decoder answers, assigning `audioData`, `renderTimeline()` and `updateSampleCount()` (src/main.ts:19-24) run as one synchronous step, and that step is `LoadAudioData`. When two loads overlap, the answer that arrives last wins.
- src-tauri/src/lib.rs is not part of this model. It wraps an external decoder (`get_wav_data`), does file I/O with base64 encoding (`read_audio_file_b64`), and wires the Tauri application (`run`).

## Findings

| source | as written | input that shows it | evidently intended | confidence | as-written member | corrected member |
|---|---|---|---|---|---|---|
| src/main.ts:185 | the blank-letter placeholder is the three characters `â€”` (U+00E2 U+20AC U+201D), which is the UTF-8 encoding of an em dash read as Windows-1252 | select any sample that has no letter: the info text reads `CH1 #0: â€”` | a single em dash `—` (U+2014) | not executed; certain for the file as it stands, since the characters are in the source text | `SelectionInfo.PlaceholderAsWrittenIsMisencoded` | `SelectionInfo.InfoTextRoundTrip` |

The editor class writes the as-written text, `SelectionInfo.InfoTextAsWritten`, so its contracts state what the code shows. The corrected text is `SelectionInfo.InfoText`, which shows the em dash. The parse round trip is proved for both texts.
