# Chord chart practice metronome — a Dafny model

The program is a terminal metronome for practising chord changes. On every beat it:
- redraws a screen holding the current chord, a progress bar across the phrase and the next chord;
- plays a high or a low click;
- schedules the next beat with `setTimeout`.

Key presses change the tempo and the other options, or quit. Three generations of the program sit in the repository, and all three are modelled:

- **`index.js`** is the first script. Its globals hold the options and the measure state. A helper draws a random chord from its own flat quality table. Every key press that does not exit both changes an option and restarts the beat loop at once.
- **`src/cli.js`** is the `CLI` class. Its options live in the class state, and it uses the shared chord generator.
- **`src/app.js`** is `ChordChartPracticeApp`. Its user options live in a `SettingsManager` (`src/settingsManager.js`), a registry of typed settings with a cursor. The settings panel is toggled with `s`. While it is open, the arrow keys move the cursor and change the selected value.

Modules shared by the CLI and the app:
- `src/theoryConstants.js` defines the tonic letters, the accidentals, the enharmonic spellings that can be avoided, and the quality table.
- `src/getRandomChord.js` draws a tonic, rejecting avoidable enharmonics on request, plus a quality.

The model's modules follow those files:

| module | models |
|---|---|
| `Text` | the JavaScript built-ins the code relies on: `repeat`, `String(n)`, `Number(key)`, `replace` with a string pattern, `join`, the truncating `%`, `substring` clamping, the raw-mode arrow-key sequences, and styled text spans in place of ANSI colours |
| `TheoryConstants` | `src/theoryConstants.js`; `alias` is modelled as written, and each quality row records whether it is listed or produced by `alias` |
| `RandomChord` | `src/getRandomChord.js`; `Math.random()` becomes real-valued draws in [0, 1), and the rejection loop runs over a finite sequence of tonic draws |
| `Settings` | `src/settingsManager.js`: the setting datatype, the pure key semantics `ApplyKey`, and the class `SettingsManager` over an `array<Setting>` whose methods are proved against `ApplyKey` |
| `Rendering` | helpers the app and the CLI share: beat length, click sounds, and the gray progress bar |
| `App` | `src/app.js`: the phrase state machine `Advance`, key dispatch `DispatchKey`, measure formatting, and the class `ChordChartPracticeApp` with its timer queue and played sounds |
| `Cli` | `src/cli.js`: its own beat counting (starting at -2), option keys, a `formatMeasure` that throws on long chords, and the class `CLI` |
| `IndexScript` | `index.js`: the legacy quality table, `genChord`, `dimText`, the `▓░` progress bar, the key handler, and the class `Script` for the script's globals |

There is no clock or terminal in the model:
- Each beat is a method call.
- The delay passed to `setTimeout` is appended to `timers`.
- A played sample is appended to `played`.
- A drawn interface is returned as lines of spans.
- The chords the generator would return during a beat are parameters (`drawn1`, `drawn2`) of that beat. The generator itself is modelled separately (`RandomChord.GetRandomChord`, `IndexScript.GenChord`).

The model follows the code as written, including these behaviours that differ from what a reader of the settings and comments might expect:
- `getRandomChord(simplifyEnharmonics, complexity)` ignores `complexity`. It always draws a group from all four groups, then a row from that group.
- The drawn quality is the whole alias row. The template literal joins the row with commas, so a chord reads `C,Maj,M` (`RandomChord.CommaJoinedExample`).
- The accent conventions differ:
  - The app accents when `beat % timeSignature === 1`, so under a 1/4 time signature it never accents (`App.AccentOnFirstBeatOfBar`).
  - The CLI accents when the remainder is 0 (`Cli.AccentOnBarStart`).
- In `index.js`, `m` and the right and left arrows are not handled, so they quit the script (`IndexScript.UnlistedKeysExit`). Any key that is handled also advances the beat, because the handler restarts `mainLoop`.
- In the CLI, a key press only redraws.
- `cli.js`'s `formatMeasure` has no guard for long strings. A chord longer than 8 characters makes `' '.repeat` throw, and the model records this as a `failure` (`Cli.FormatMeasure`, `Cli.LongChordThrows`).

## Model

| member | source | states |
|---|---|---|
| Text.Clamp | src/app.js:119-121 | the cut index stays in the string: inside [lo, hi]; k itself when in range; the bound that k passed otherwise |
| Text.JsRem | src/app.js:151 | JavaScript's truncating remainder: smaller than the divisor in magnitude, differing from the dividend by a multiple of the divisor, equal to the mathematical remainder for non-negative dividends, never positive for non-positive ones |
| Text.Repeat | src/app.js:97 | `s.repeat(n)` has n times the length of s and uses only characters of s |
| Text.RepeatAt | src/app.js:97 | every cell of `s.repeat(n)` is the cell of s at the same offset modulo the length of s |
| Text.Spaces | src/app.js:97 | `' '.repeat(n)` is exactly n spaces |
| Text.NatToString | src/settingsManager.js:96 | `String(n)` for n ≥ 0 is a non-empty string of decimal digits that starts with 0 only for 0 |
| Text.IntToString | src/settingsManager.js:96 | `String(n)` is the digits of the magnitude of n, preceded by a minus sign exactly when n < 0 |
| Text.NatToStringRoundTrip | src/settingsManager.js:96 | reading back the decimal digits of `String(n)` gives n |
| Text.TrimStart | src/cli.js:97 | `Number` skips leading white space: the result is a suffix of the key that does not start with white space |
| Text.TrimEnd | src/cli.js:97 | `Number` skips trailing white space: the result is a prefix that does not end with white space |
| Text.JsNumber | src/cli.js:97 | `Number(key)` for the keys modelled: trailing and leading white space trimmed, then the value of a digit string, or NaN; its properties are `JsNumberShape`, `SingleKeyNumber` and `JsNumberOfNatToString` |
| Text.JsNumberShape | src/cli.js:97 | a key reads as a number only when it holds nothing but digits and white space; a blank key reads as 0; a digit string reads as its value |
| Text.SingleKeyNumber | src/cli.js:97-98 | `Number` of a one-character key is the digit's value for a digit, 0 for white space, and NaN for any other character |
| Text.JsNumberOfNatToString | src/cli.js:97 | `Number(String(n)) == n` for every n ≥ 0 |
| Text.ReplaceFirst | src/theoryConstants.js:21 | `replace` with a string pattern: the first occurrence replaced, the string unchanged when there is none; its properties are `ShorterThanPattern`, `ReplaceFirstAt` and `ReplaceFirstAbsent` |
| Text.ShorterThanPattern | src/theoryConstants.js:21 | `replace` leaves a string shorter than the pattern unchanged |
| Text.ReplaceFirstAt | src/theoryConstants.js:21 | `replace` with a string pattern substitutes exactly the first occurrence and keeps everything around it |
| Text.ReplaceFirstAbsent | src/theoryConstants.js:21 | `replace` leaves a string without the pattern unchanged |
| Text.Join | src/getRandomChord.js:20-21 | an array turned into a string: empty for no elements, and otherwise the total length of the elements plus one separator between neighbours |
| Text.JoinShape | src/getRandomChord.js:20-21 | an interpolated array is its elements joined by the separator: total length of the elements plus one separator between neighbours, starting with the first element |
| Text.CharactersAppend | src/app.js:122 | the text of concatenated styled pieces is the concatenation of their texts |
| TheoryConstants.Alias | src/theoryConstants.js:21 | `alias` yields three spellings, and the first is the original |
| TheoryConstants.AliasWithoutPatterns | src/theoryConstants.js:21 | a quality with neither `min` nor `Maj` gets three copies of itself |
| TheoryConstants.AliasOfMinor | src/theoryConstants.js:21 | the second and third spellings replace the first `min` by `m` and by `-`, leaving everything else |
| TheoryConstants.AliasOfMajor | src/theoryConstants.js:21 | for a quality without `min`, the second and third spellings replace the first `Maj` by `M` and by `Δ`, leaving everything else |
| TheoryConstants.AliasExamples | src/theoryConstants.js:21 | `alias('Maj7')` is `Maj7, M7, Δ7` and `alias('min')` is `min, m, -` |
| TheoryConstants.Spellings | src/theoryConstants.js:30-86 | a listed row is kept as written; an `alias` row has three spellings starting with its original; the half-diminished row lists two spellings and then the alias of `min7 (b5)` |
| TheoryConstants.QualitiesShape | src/theoryConstants.js:30-86 | the table has four complexity groups; every group is non-empty and every row has at least one spelling |
| TheoryConstants.TriadsSpelt | src/theoryConstants.js:31-41 | the triads-and-suspensions group is non-empty and every row is spelt |
| TheoryConstants.SeventhsSpelt | src/theoryConstants.js:43-49 | the sevenths group is non-empty and every row is spelt |
| TheoryConstants.ExtensionsSpelt | src/theoryConstants.js:51-66 | the extensions group is non-empty and every row is spelt |
| TheoryConstants.AlteredSpelt | src/theoryConstants.js:68-85 | the altered group is non-empty and every row is spelt |
| TheoryConstants.EnharmonicsAreAccidentalTonics | src/theoryConstants.js:4-14 | every avoidable enharmonic is a tonic letter with a flat or a sharp, so the tonic draw can produce it |
| RandomChord.PickIndex | src/getRandomChord.js:8 | `Math.floor(r * n)` for r in [0, 1) is an index below n, the one whose interval holds r·n |
| RandomChord.PickRandom | src/getRandomChord.js:8 | `pickRandom` returns an element of the array |
| RandomChord.PickIndexReaches | src/getRandomChord.js:8 | every index is picked by some random value |
| RandomChord.Tonic | src/getRandomChord.js:18 | one attempt: a picked key letter followed by a picked accidental; its properties are `TonicSpelling` |
| RandomChord.TonicSpelling | src/getRandomChord.js:18 | a drawn tonic is a letter A–G followed by an empty, flat or sharp accidental |
| RandomChord.FirstAccepted | src/getRandomChord.js:17-19 | the accepted draw, if any, is one of the draws |
| RandomChord.FirstAcceptedSpec | src/getRandomChord.js:17-19 | the loop stops at the first draw that is not rejected, after rejecting every draw before it; no draw is accepted only when all are rejected |
| RandomChord.AcceptedAt | src/getRandomChord.js:17-19 | the converse: the first unrejected draw is the one accepted |
| RandomChord.AllRejected | src/getRandomChord.js:17-19 | the converse: when every draw is rejected, none is accepted |
| RandomChord.FirstAttemptWithoutSimplify | src/getRandomChord.js:19 | without simplification the loop ends after its first draw |
| RandomChord.PickTonic | src/getRandomChord.js:16-19 | the `do … while` loop returns the first accepted tonic and counts one attempt per draw it consumed; the tonic is well spelt and, with simplification, not an avoidable enharmonic; without simplification it takes exactly one attempt |
| RandomChord.Rejected | src/getRandomChord.js:19 | a tonic is drawn again exactly when simplification is on and the tonic is an avoidable enharmonic; used by `FirstAcceptedSpec` and `PickTonic` |
| RandomChord.QualitySpellings | src/getRandomChord.js:20 | the drawn quality is the spelling row of some row in some group |
| RandomChord.RandomChordOf | src/getRandomChord.js:15-22 | no chord exactly when every tonic draw is rejected; otherwise the chord is some unrejected draw's tonic followed by the comma-joined spellings of the drawn quality row |
| RandomChord.GetRandomChord | src/getRandomChord.js:15-22 | the chord is an accepted tonic followed by the comma-joined spellings of some quality row; it always exists without simplification |
| RandomChord.AnyQualityReachable | src/getRandomChord.js:20 | every quality row of every group can be drawn |
| RandomChord.CommaJoinedExample | src/getRandomChord.js:20-21 | drawing C and the first triad row yields `C,Maj,M` |
| RandomChord.MinorChordExample | src/getRandomChord.js:15-22 | drawing C# and the second triad row yields `C#min,m,-` |
| Rendering.MsPerBeat | src/app.js:105 | `60 * 1000 / tempo`; its properties are `BeatsFillAMinute`, `MsPerBeatDecreasing` and `DefaultBeatLengths` |
| Rendering.BeatsFillAMinute | src/app.js:105 | tempo times the beat length is 60000 ms |
| Rendering.MsPerBeatDecreasing | src/app.js:105 | a faster tempo gives a strictly shorter beat |
| Rendering.DefaultBeatLengths | src/app.js:105 | tempo 120 gives 500 ms and tempo 60 gives 1000 ms |
| Rendering.Round | src/app.js:119 | `Math.round(x)` is the integer within half a unit of x, with halves rounded up |
| Rendering.RoundMonotone | src/app.js:119 | rounding preserves order |
| Rendering.CutPoint | src/app.js:119-121 | the progress cut lies inside the string |
| Rendering.ProgressBarIfy | src/app.js:118-123 | a gray span for the text up to the rounded progress cut, then a plain span for the rest; its properties are `ProgressBarCharacters` and `ProgressBarMonotone` |
| Rendering.ProgressBarCharacters | src/app.js:118-123 | the bar shows the string unchanged, a gray part followed by a plain part; the gray part has the rounded progress length; it is empty at progress 0 and covers everything at progress 1 |
| Rendering.ProgressBarMonotone | src/app.js:118-123 | more progress never shortens the gray part |
| Settings.DefaultsWellFormed | src/settingsManager.js:15-22 | the six default settings are well formed: values within their bounds and enum indices within their labels |
| Settings.DefaultsConform | src/settingsManager.js:15-22 | the defaults have the registry's fixed shape |
| Settings.ConformingWellFormed | src/settingsManager.js:15-22 | every setting of a conforming registry is well formed and has the default's kind, name and bounds |
| Settings.DistinctDefaultNames | src/settingsManager.js:15-22 | the setting names are pairwise distinct |
| Settings.ConformingKinds | src/settingsManager.js:15-22 | tempo ≥ 20, time signature in 1..12, bars ≥ 1 and complexity in 0..3 are numbers; metronome and simplification are booleans |
| Settings.Find | src/settingsManager.js:34 | `find` returns the first setting with the name, or nothing when no setting has it |
| Settings.FindInConforming | src/settingsManager.js:33-39 | in a conforming registry every default name is found at its own position, and `get` returns its value |
| Settings.GetResult | src/settingsManager.js:33-39 | `get(name)`: the value of the first setting with the name, or the not-found error; its properties are `GetResultSpec`, `GetUnknown` and `FindInConforming` |
| Settings.GetResultSpec | src/settingsManager.js:33-39 | `get` throws `NotFound(name)` exactly when no setting has the name, and otherwise returns the value of the first setting that has it |
| Settings.GetUnknown | src/settingsManager.js:35-37 | `get` of an unknown name throws `Setting "<name>" not found!` |
| Settings.TempoOf | src/settingsManager.js:33-39 | `get('tempo')` succeeds with a number ≥ 20 |
| Settings.TimeSignatureOf | src/settingsManager.js:33-39 | `get('timeSignature')` succeeds with a number in 1..12 |
| Settings.BarsPerPhraseOf | src/settingsManager.js:33-39 | `get('barsPerPhrase')` succeeds with a number ≥ 1 |
| Settings.ComplexityOf | src/settingsManager.js:33-39 | `get('complexity')` succeeds with an index in 0..3 |
| Settings.MetronomeOf | src/settingsManager.js:33-39 | `get('metronome')` succeeds with a boolean |
| Settings.SimplifyOf | src/settingsManager.js:33-39 | `get('simplifyEnharmonics')` succeeds with a boolean |
| Settings.Step | src/settingsManager.js:61-82 | a right or left press keeps the setting's kind, name, bounds, step and labels |
| Settings.ToggleEitherWay | src/settingsManager.js:61-82 | both directions negate a boolean, and pressing twice restores it |
| Settings.NumberStepBounds | src/settingsManager.js:61-82 | a number moves by at most its increment (default 1) and never passes max or min; away from its bounds it moves by exactly the increment, and a step that would overshoot lands exactly on max (right) or min (left) |
| Settings.NumberRoundTrip | src/settingsManager.js:61-82 | away from the bounds, left after right (and right after left) restores a number |
| Settings.EnumModular | src/settingsManager.js:61-82 | an enum index steps by one modulo its number of labels, and the two directions undo each other |
| Settings.WrapNext | src/settingsManager.js:66-68 | the code's wrap-to-0 after `+1` is addition modulo n |
| Settings.WrapPrevious | src/settingsManager.js:77-79 | the code's wrap-to-last after `-1` is subtraction modulo n |
| Settings.StepKeepsBounds | src/settingsManager.js:61-82 | a press keeps a well-formed setting within its bounds |
| Settings.TempoFloorExample | src/settingsManager.js:76 | tempo 25 goes down to 20 and stays there |
| Settings.ComplexityWrapExample | src/settingsManager.js:66-79 | complexity 3 goes right to 0, and 0 goes left to 3 |
| Settings.ApplyKey | src/settingsManager.js:48-88 | a key is handled exactly when it is an arrow key; an unhandled key changes nothing; the settings keep their number |
| Settings.CursorKeys | src/settingsManager.js:51-60 | up and down move the cursor cyclically by one without touching any value, and each undoes the other |
| Settings.ValueKeys | src/settingsManager.js:61-82 | right and left change only the selected setting, keep its shape and keep the cursor |
| Settings.ApplyKeyKeepsValid | src/settingsManager.js:48-88 | any key keeps the registry conforming and the cursor on a row |
| Settings.ApplyKeys | src/settingsManager.js:48-88 | a sequence of keys keeps the registry valid |
| Settings.AnyKeysKeepBounds | src/settingsManager.js:48-88 | from the defaults, after any keys every setting is within its bounds |
| Settings.PrettyValue | src/settingsManager.js:96-99 | the value text of a settings line; its properties are `PrettyValueShape`, `NumberReadsBack` and `EnumReadsBack` |
| Settings.PrettyValueShape | src/settingsManager.js:96-99 | the suffix ends the text and is shorter than it; booleans show ON or OFF before the suffix; a non-negative number's text, with the suffix cut off, reads back as its value; an enum's text is `<index> (<label>)` then the suffix, and its leading digits read back as the index |
| Settings.NumberReadsBack | src/settingsManager.js:96-99 | the part of a non-negative number's text before its suffix reads back as the number |
| Settings.EnumLabel | src/settingsManager.js:98 | the enum's label at the index, or `undefined` when the index is out of range; stated through `EnumReadsBack` |
| Settings.EnumReadsBack | src/settingsManager.js:98-99 | an enum's text ends with ` (`, the label (or `undefined` for an index out of range), `)` and the suffix, and the digits before that read back as the index |
| Settings.SettingLine | src/settingsManager.js:100 | the display name, a colon and a space, then `PrettyValue`; the lines it gives are stated by `DefaultLinesExample` and `FramedRows` |
| Settings.DefaultLinesExample | src/settingsManager.js:96-100 | default lines `Time Signature: 4/4`, `Complexity: 3 (Altered Chords)` and `Metronome: ON` |
| Settings.FramedRows | src/settingsManager.js:90-104 | the two help lines and a blank line, one line per setting with the selected one gray, and a final blank line make up the settings screen |
| Settings.SettingsManager.constructor | src/settingsManager.js:15-24 | the manager starts with the default settings and the cursor on row 0 |
| Settings.SettingsManager.Get | src/settingsManager.js:33-39 | `get` returns the value of the first setting with the name, or the not-found error |
| Settings.SettingsManager.HandleKeyboardInput | src/settingsManager.js:48-88 | the result and the new settings and cursor are exactly `ApplyKey` of the old state, and validity is kept |
| Settings.SettingsManager.DrawInterface | src/settingsManager.js:90-104 | the header, then one line per setting (the selected line gray), then a blank line |
| App.Progress | src/app.js:111 | the beat divided by the phrase length; its properties are `ProgressVsBeat` |
| App.StartsPhrase | src/app.js:47 | the phrase test: beat 1 or progress past 1; stated by `ProgressVsBeat` and `AdvanceFacts` |
| App.NewPhrase | src/app.js:139-143 | beat 1, the look-ahead chord (or a fresh one when it is empty) becomes current, and a fresh look-ahead is drawn; used by `AdvanceFacts` |
| App.Advance | src/app.js:45-47 | one beat step: the beat goes up by one, then a new phrase starts on beat 1 or once the progress passes 1; its properties are `AdvanceFacts`, `AdvanceBeat` and `OnePhraseEveryPTicks` |
| App.ProgressVsBeat | src/app.js:111 | progress exceeds 1 exactly when the beat passes the phrase length, and lies in (0, 1] within the phrase |
| App.AdvanceFacts | src/app.js:46-47 | a tick starts a phrase exactly on the first beat or after the last; the beat stays in 1..phrase length; a new phrase promotes the look-ahead chord (or a fresh one when there is none) and draws a new look-ahead; otherwise only the beat advances |
| App.FirstTickStartsPhrase | src/app.js:47 | the first tick from the initial state starts a phrase with the two drawn chords |
| App.AdvanceBeat | src/app.js:46-47 | the beat after a tick is the next beat count |
| App.QuietStretch | src/app.js:45-47 | inside a phrase, k ticks add k to the beat and start no phrase |
| App.TicksCompose | src/app.js:45-47 | m + n ticks are m ticks and then n, for the beat and for the number of phrases started |
| App.OnePhraseEveryPTicks | src/app.js:45-47 | a phrase-length run of ticks returns to the same beat and starts exactly one phrase |
| App.EightTicksPerPhraseExample | src/app.js:45-47 | with 4 beats and 2 bars, the first 8 ticks start one phrase and the ninth starts the next |
| App.MetronomeSound | src/app.js:149-157 | `doMetronome`'s click for a beat; its properties are `AccentOnFirstBeatOfBar` |
| App.AccentOnFirstBeatOfBar | src/app.js:149-157 | no sound when the metronome is off; a high click when the beat leaves remainder 1, which never happens under 1/4; a low click otherwise |
| App.DispatchKey | src/app.js:74-83 | the key handler's three branches: the settings manager, the `s` toggle, or the exit; its properties are `DispatchFacts` and `DispatchKeepsValid` |
| App.DispatchFacts | src/app.js:74-83 | with the panel open, arrows go to the settings; `s` toggles the panel and resets the cursor, and pressing it twice restores the panel; any other key exits |
| App.DispatchKeepsValid | src/app.js:74-83 | dispatch keeps the registry valid |
| App.FormatMeasure | src/app.js:94-98 | a pipe character, then the string centred in 8 columns, the extra space going right; a longer string is padded by one space each side |
| App.PercentMeasure | src/app.js:97 | the repeat mark measure is a pipe, three spaces, `%` and four spaces |
| App.PhraseMeasures | src/app.js:130 | the chord's measure and then one `%` measure for each further bar; its length and layout are in `ChordLineShape` |
| App.GenChordLine | src/app.js:129-133 | the phrase's measures as a progress bar, then a pipe, the dim next chord and a space; its properties are `ChordLineShape` |
| App.ChordLineShape | src/app.js:129-133 | the chord line's text is the measures, a pipe and a space, the dim next chord and a space; the gray part is the progress share of the measures; short chords give 9 columns per bar |
| App.ChordChartPracticeApp.PhraseLength | src/app.js:111 | time signature times bars per phrase is positive |
| App.ChordChartPracticeApp.constructor | src/app.js:36-39 | after construction and the first loop: defaults, panel closed, beat 1 of the first phrase with the two drawn chords, one 500 ms timer and one high click |
| App.ChordChartPracticeApp.MainLoop | src/app.js:45-54 | the phrase advances by `Advance`; the metronome sound for the new beat is appended; the screen shows the help or the settings plus the chord line; a timer of one beat at the current tempo is appended |
| App.ChordChartPracticeApp.AdvanceBeat | src/app.js:46-47 | the beat increment and the phrase check are `Advance` of the old phrase |
| App.ChordChartPracticeApp.TimerFires | src/app.js:45-53 | firing the pending timer runs the loop: the phrase advances by `Advance` and the sound is appended; the help lines or the settings panel are drawn, then the chord line; exactly the next timer is left pending |
| App.ChordChartPracticeApp.NextPhrase | src/app.js:139-143 | beat 1, the look-ahead (or a fresh chord) becomes current, and a fresh look-ahead is drawn |
| App.ChordChartPracticeApp.DoMetronome | src/app.js:149-157 | plays `MetronomeSound` for the current beat and changes nothing else |
| App.ChordChartPracticeApp.DrawInterface | src/app.js:163-173 | the help lines or the settings panel, followed by the chord line |
| App.ChordChartPracticeApp.HandleKeyboardInput | src/app.js:74-87 | the exit flag, the panel and the settings follow `DispatchKey`; the phrase, timers and sounds are untouched; unless exiting, the redraw shows the help lines or the settings panel of the new state, then the chord line |
| App.ChordChartPracticeApp.Dispatch | src/app.js:75-83 | the branches of the key handler match `DispatchKey` |
| App.DefaultValues | src/settingsManager.js:16-20 | default tempo 120, 4/4, 2 bars per phrase, metronome on |
| App.FirstTickWithDefaults | src/app.js:36-54 | with the defaults the phrase has 8 beats, the first tick starts it, the first click is high, and the beat lasts 500 ms |
| Cli.OptionsKey | src/cli.js:69-105 | the switch on the key string: the four arrows, `m`, `e`, and `Number(key)` for the rest; its properties are `OptionsKeyKeepsValid` and the key lemmas below |
| Cli.OptionsKeyKeepsValid | src/cli.js:69-105 | every key keeps tempo ≥ 20, the time signature ≥ 1 and the bars ≥ 1 |
| Cli.TempoAndBarKeys | src/cli.js:72-87 | up adds 5 to the tempo and down subtracts 5 down to a floor of 20; right adds a bar and left removes one down to 1; each pair undoes itself away from the floor |
| Cli.ToggleKeys | src/cli.js:88-95 | `m` toggles the metronome and `e` the enharmonic simplification; each is its own inverse |
| Cli.DigitKeys | src/cli.js:96-104 | a digit 1–9 sets the time signature to that digit; `0` or any other single character exits |
| Cli.NumberKey | src/cli.js:96-104 | an unlisted key sets the time signature to its nonzero numeric value, and exits when it is zero or not a number |
| Cli.ExitKeys | src/cli.js:69-105 | a key exits exactly when it is neither listed nor a nonzero number, and then the options are unchanged |
| Cli.Progress | src/cli.js:132 | `(beat + 1)` over the phrase length; its properties are in `AdvanceFacts` and `ShiftedCounter` |
| Cli.StartsPhrase | src/cli.js:44 | the phrase test: beat -1 or progress past 1; stated by `AdvanceFacts` (beat + 1 reaches the phrase length) and `ShiftedCounter` |
| Cli.NewPhrase | src/cli.js:160-164 | beat 0, the look-ahead chord (or a fresh one) becomes current, and a fresh look-ahead is drawn; used by `AdvanceFacts` and `FirstTickStartsPhrase` |
| Cli.Advance | src/cli.js:42-44 | one beat step: the beat goes up by one, then a new phrase starts at beat -1 or once the progress passes 1; its properties are `FirstTickStartsPhrase`, `AdvanceFacts`, `ShiftedCounter` and `OnePhraseEveryPTicks` |
| Cli.FirstTickStartsPhrase | src/cli.js:22-44 | from beat -2 the first tick starts a phrase at beat 0 with the two drawn chords |
| Cli.AdvanceFacts | src/cli.js:43-44 | a phrase starts when the incremented beat reaches the phrase length; the beat stays in 0..length-1; a new phrase promotes the look-ahead |
| Cli.ShiftedCounter | src/cli.js:132 | the CLI's zero-based counter is the app's one-based counter shifted by one, with the same phrase boundaries and chords |
| Cli.AdvanceBeat | src/cli.js:43-44 | the beat after a tick is the next beat count |
| Cli.ShiftedTicks | src/cli.js:132 | over any number of ticks the CLI's beat stays one below the app's, and both start the same number of phrases |
| Cli.OnePhraseEveryPTicks | src/cli.js:42-44 | from a beat inside the phrase, a phrase-length run of ticks returns to the same beat and starts exactly one phrase |
| Cli.MetronomeSound | src/cli.js:170-178 | `doMetronome`'s click for a beat; its properties are `AccentOnBarStart` |
| Cli.AccentOnBarStart | src/cli.js:170-178 | no sound when the metronome is off; a high click when the beat is a multiple of the time signature, and a low click otherwise |
| Cli.FormatMeasure | src/cli.js:116-119 | throws exactly for strings longer than 8; an 8-character string has no padding; shorter ones are centred like the app's |
| Cli.LongChordThrows | src/cli.js:116-119 | the generator's draw of C# and the minor triad yields the 9-character chord `C#min,m,-`, and formatting it throws |
| Cli.GenChordLine | src/cli.js:150-154 | the chord line fails exactly when the chord is longer than 8, and otherwise matches the app's for chords up to 7 |
| Cli.EightCharacterChordLine | src/cli.js:150-154 | for an 8-character chord the line succeeds, and its text opens with a pipe directly followed by the chord |
| Cli.OptionLines | src/cli.js:186-192 | the five option lines, each with its value and a dim key hint, then the exit hint and a blank line; used by `CLI.DrawInterface` |
| Cli.CLI.constructor | src/cli.js:13-36 | default options and beat 0 of the first phrase with one high click; one 500 ms timer unless the first chord is too long, in which case the failure is recorded and no timer is set |
| Cli.CLI.MainLoop | src/cli.js:42-51 | the phrase advances by `Advance` and the sound is appended; on success the options screen and chord line are drawn and one beat's timer is appended; on failure the error is kept and no timer is set |
| Cli.CLI.AdvanceBeat | src/cli.js:43-44 | the beat increment and the phrase check are `Advance` of the old phrase |
| Cli.CLI.TimerFires | src/cli.js:42-50 | firing the pending timer runs the loop: on success the option lines and the chord line are drawn and exactly the next timer is pending; on a long chord the formatting error is recorded and no timer is pending |
| Cli.CLI.NextPhrase | src/cli.js:160-164 | beat 0, the look-ahead (or a fresh chord) becomes current, and a fresh look-ahead is drawn |
| Cli.CLI.DoMetronome | src/cli.js:170-178 | plays `MetronomeSound` for the current beat and changes nothing else |
| Cli.CLI.DrawInterface | src/cli.js:184-194 | the five option lines and the chord line, or the formatting error |
| Cli.CLI.HandleKeyboardInput | src/cli.js:69-109 | the new options and the exit flag are `OptionsKey`; the phrase, timers and sounds are untouched; unless exiting, the redraw shows the option lines of the new options and the chord line, or records the formatting error of a long chord |
| Cli.CLI.ChangeOption | src/cli.js:71-105 | the switch's branches match `OptionsKey` |
| IndexScript.LegacyQualitiesShape | index.js:9-41 | the script's table has 20 rows, each with at least one spelling |
| IndexScript.LegacyQuality | index.js:58 | the drawn quality is a spelling in some row of the script's table |
| IndexScript.AnyLegacyQualityReachable | index.js:58 | every spelling of the script's table can be drawn |
| IndexScript.GenChordOf | index.js:53-60 | the first accepted tonic followed by one drawn spelling, or none when every draw is rejected; `GenChord`'s loop is proved equal to it |
| IndexScript.GenChord | index.js:53-60 | an accepted tonic followed by one spelling; it always exists without simplification |
| IndexScript.DimText | index.js:67 | dimming adds nine escape characters |
| IndexScript.DimTextParts | index.js:67 | the text sits between the dim-on and dim-off sequences |
| IndexScript.ProgressBar | index.js:81 | `beat + 1` filled cells, then empty cells up to the measure length; its properties are `ProgressBarShape` and `FirstBeatBar` |
| IndexScript.ProgressBarShape | index.js:81 | the bar has max(beats per measure, beat + 1) cells, filled exactly up to the beat and empty after it |
| IndexScript.FirstBeatBar | index.js:81 | beat 0 of a 4-beat measure shows `▓░░░` |
| IndexScript.NextChordPart | index.js:82 | the dimmed `(next: …)` preview, or nothing for an empty next chord; its properties are in `ChordLineShape` |
| IndexScript.ChordLineText | index.js:80-84 | the bar, a space, the chord, a space and the dimmed next chord; its properties are `ChordLineShape` |
| IndexScript.ChordLineShape | index.js:80-84 | the bar, a space, the chord, a space, then the dimmed `(next: …)` exactly when there is a next chord |
| IndexScript.FeedbackLine | index.js:89 | the dimmed tempo, time signature and simplification line; its properties are `FeedbackReadsBack` |
| IndexScript.FeedbackReadsBack | index.js:89 | the line is 41 characters plus its three values; the tempo starts at offset 10, the beats per measure 12 characters after the tempo ends, ON or OFF 14 characters after that, and a non-negative tempo or beats per measure reads back as its number |
| IndexScript.Screen | index.js:110 | a carriage return, the feedback line, a newline and the chord line; its properties are `ScreenParts` |
| IndexScript.ScreenParts | index.js:110 | the feedback line and the chord line can be taken back out of the screen, around the carriage return and the newline |
| IndexScript.StartOptionsValid | index.js:2-4 | the start options (60 bpm, 4 beats, no simplification) are valid, and their beat lasts 1000 ms |
| IndexScript.OptionsKey | index.js:121-145 | the switch on the key string: up, down, `e`, and `Number(key)` for the rest; its properties are `OptionsKeyKeepsValid` and the key lemmas below |
| IndexScript.OptionsKeyKeepsValid | index.js:121-145 | every key keeps tempo ≥ 20 and beats per measure ≥ 1 |
| IndexScript.TempoAndToggleKeys | index.js:124-135 | up adds 20 and down subtracts 20 down to a floor of 20, undoing up; `e` toggles simplification |
| IndexScript.NumberKey | index.js:136-144 | an unlisted key sets beats per measure to its nonzero numeric value, else exits |
| IndexScript.EscapeNotNumber | index.js:137 | an escape sequence is not a number |
| IndexScript.UnlistedKeysExit | index.js:123-144 | right, left and `m` quit the script |
| IndexScript.ArrowExits | index.js:136-144 | the right and left arrows fall through to the exit |
| IndexScript.DigitKeys | index.js:136-144 | a digit 1–9 sets beats per measure; `0` or another character exits |
| IndexScript.ExitKeys | index.js:121-145 | a key exits exactly when it is not up, down or `e` and not a nonzero number; the options are then unchanged |
| IndexScript.NextMeasure | index.js:99-103 | beat 0, the look-ahead chord (or a fresh one) becomes current, and a fresh look-ahead is drawn; used by `DrawnBeatInMeasure` |
| IndexScript.Drawn | index.js:106 | the measure `mainLoop` draws: the next measure when the beat has reached the measure length, the same one otherwise; its properties are `DrawnBeatInMeasure` |
| IndexScript.Tick | index.js:105-114 | one loop run: a new measure when the beat has filled the measure, then the beat goes up by one; its properties are `DrawnBeatInMeasure`, `TickBeat` and `MeasureCycle` |
| IndexScript.DrawnBeatInMeasure | index.js:99-110 | the drawn beat lies in the measure; a full measure is replaced by the next measure with the look-ahead promoted; the bar is one measure wide |
| IndexScript.TickBeat | index.js:105-112 | a loop run moves the beat to the next count |
| IndexScript.MeasureCycle | index.js:105-112 | from the first beat, after n runs the beat is n mod the measure length, plus one |
| IndexScript.Script.constructor | index.js:159-160 | start options; the first measure opens with the two drawn chords; one screen at beat 0 is written and one 1000 ms timer is set |
| IndexScript.Script.BeginMeasure | index.js:99-103 | beat 0, the look-ahead (or a fresh chord) becomes current, and a fresh look-ahead is drawn |
| IndexScript.Script.MainLoop | index.js:105-114 | a measure change when the beat is full, one screen written for the drawn measure, the beat advanced, and one timer at the current tempo appended |
| IndexScript.Script.TimerFires | index.js:113 | the pending timer fires the loop and is replaced by the next one |
| IndexScript.Script.HandleKeyboardInput | index.js:121-150 | the options follow `OptionsKey`; an exit changes nothing else; otherwise the timer is cleared and the loop restarts, advancing the beat and writing a screen |
| IndexScript.Script.ChangeOption | index.js:122-145 | the switch's branches match `OptionsKey` |

## Left out

- Terminal I/O is not modelled: raw mode, `console.clear`, cursor movement and writing. Screens are returned as values, or appended to `written` in the script.
- Playing a sample through the player is left out. A play is modelled as appending `High` or `Low` to `played`, and the `Player` class is not part of this model.
- Real time is not modelled. `setTimeout` delays are appended to `timers`, and a timer firing is a method call. The imprecision of timers is ignored.
- `Math.random()` is not modelled: random numbers are parameters in [0, 1). The tonic rejection loop gets a finite sequence of draws, and it yields no chord if every draw is rejected, where the program would keep drawing.
- The chords drawn during a beat are passed in as `drawn1` and `drawn2`. The generator is proved separately and is not called from the loops.
- RandomChord.GetRandomChord: ignores `complexity`, because `getRandomChord` does so as written.
- Text.JsNumber: covers only digit strings with surrounding white space, and blank strings. A typed key is a single character, and for those the model agrees with `Number` (`+` and `.` are NaN there too). A pasted multi-character key with a sign, a decimal point, an exponent, a hexadecimal prefix or `Infinity` (`-5`, `0.5`, `1e1`, `0x4`, `Infinity`) reads as NaN in the model and exits. The program instead sets the time signature (src/cli.js:99) or beats per measure (index.js:139) to that number.
- Cli.OptionsKeyKeepsValid: the time signature ≥ 1 holds only for the narrowed `Number`. In the program a pasted `-5` or `0.5` sets the time signature to -5 or 0.5.
- IndexScript.OptionsKeyKeepsValid: beats per measure ≥ 1 holds only for the narrowed `Number`. In the program a pasted `-5` or `0.5` sets beats per measure to -5 or 0.5.
- TheoryConstants.Alias: its own contract states the three spellings and the first. The others are stated by `AliasOfMinor` for a quality with `min` and by `AliasOfMajor` for a quality with `Maj` and no `min`. No lemma covers a quality with both, and the table has none.
- Floating point is not modelled. Beat lengths and progress are exact reals, and the progress cut uses exact rounding.
- `process.exit()` becomes an `exit` result, and the CLI's thrown `RangeError` becomes a recorded `failure`. What happens after an exit or a crash is not modelled.
- In the app, the heading lines are exact and the setting lines are given by `SettingLine`. The ANSI colour codes behind `COLORS` are replaced by span styles.
- The colour module `src/colors.js`, the player, and `package.json` startup are not part of this model.
