# Piano note detector: a verified model of its logic

The piano note detector is a small web application. The browser page
(`wwwroot/js/app.js`) records from the microphone into a buffer of
sample blocks and averages the blocks into one frame. It posts the
frame to a Flask service (`app.py`) and shows the detected note or
chord on a two-octave on-screen keyboard. The service names the note
and matches the strongest pitch classes against a table of chord
types. A detector class (`backend/note_detector.py`), behind a second
Flask service (`backend/app.py`, route `/record`), turns a pitch track
into the list of distinct notes it contains.

This project models the logic around the audio and signal-processing
library calls, in Dafny, and proves what that logic promises.

- `notes.dfy` (`NoteNames`): the twelve pitch-class names and their
  Turkish solfège names. The three programs each spell out the twelve
  names; `app.py` and `app.js` also spell out the Turkish table.
- `chord.dfy` (`ChordMatcher`): `detect_chord` of `app.py` and its
  tables. It is modelled as the loops the source runs: roots in input
  order, chord types in table order, and a best score that starts at 0
  and is replaced only by a strictly greater one. The model also
  covers the integer part of `frequency_to_note`: Python's round-half-even,
  truncating `int()`, the piano range 21..108 and the octave formula.
  The score `matches - 0.5 * extra` is doubled to `2 * matches - extra`.
  Doubling keeps every comparison the source makes.
- `note_detector.dfy` (`NoteDetector`): `NoteDetector.frequency_to_note`
  from its rounded note number, including the `+49` offset that names
  440 Hz "C#3". It also models the `detect_notes` frame loop: the first
  loudest bin per frame, then order-preserving deduplication. The
  pitch and magnitude matrices are inputs.
- `averager.dfy` (`ChunkAverager`): `averageAudioChunks`. The frame
  length is `floor(total samples / number of blocks)`. Sample `i` is the
  sum of `chunk[i]` over the blocks long enough to have it, divided by
  the number of all blocks.
- `client.dfy` (`DetectionClient`): the reply of the detection service
  and how `sendAudioToServer` and `detectSound` sort it. The four
  outcomes are connection error, server error, nothing to show, and a
  note or chord to show.
- `presenter.dfy` (`Presenter`): the keyboard of 24 keys and what is
  shown on it.
  - `clearKeyHighlights`, `highlightKey`, `getChordNoteColor` and
    `getRoleClass`.
  - The two `querySelector` lookups.
  - Everything a delivered result does to the keys and to the result
    panel.
- `page.dfy` (`Page`): the page's mutable state as a class.
  - Fields: `isRecording`, the four nullable audio handles
    (`audioContext`, `analyser`, `microphone`, `processor`), the
    recorded blocks, the button and status texts, the keys as an
    array, and the requests sent to the service, each with the buttons'
    disabled state at the time.
  - Event handlers as methods: record click, `startRecording`,
    `stopRecording`, the silence-gated `onaudioprocess` callback,
    `detectSound`, `sendAudioToServer` and key clicks.

Samples are exact `real` numbers. The service's reply is an input to
the handlers, either a failed fetch or a response with its `ok` flag and
decoded body. Each handler runs as one atomic step.

Averaging `[[1,1,1],[1,1]]` gives `[1,1]`, because the frame length is
`floor(5 / 2) = 2` (`ChunkAverager.AveragedTwoUnevenChunks`). A short
block scales down the columns it does not reach when the frame is long
enough to include them (`ChunkAverager.AveragedShortChunkAttenuates`).

## Model

| member | source | states |
|---|---|---|
| NoteNames.IndexOf | app.py:199 | `note_names.index(name)` is the first position of the name in the table |
| NoteNames.IndexOfName | app.py:199 | looking up the name of pitch class p gives back p |
| NoteNames.TurkishTableAgrees | app.py:11-24 | `NOTE_NAMES_TR` maps every English name to the Turkish name at the same position |
| ChordMatcher.TablesWellFormed | app.py:38-57 | every chord type has as many role names as intervals, at least three; its intervals are distinct and lie in 0..11 |
| ChordMatcher.PitchValues | app.py:197-199 | `note_values` has one pitch class per input name, and each one names its input |
| ChordMatcher.NoteValues | app.py:197-199 | the loop building `note_values` produces exactly `PitchValues` |
| ChordMatcher.CountsPartition | app.py:212-214 | for any list of intervals, the counts of those present and those absent add up to its length, and the present count equals the length exactly when every interval is present |
| ChordMatcher.IntervalsFor | app.py:206-207 | the interval list for a root is strictly ascending, so it is sorted and duplicate-free; every element lies in 0..11; it contains exactly the offsets `(n - root) mod 12` of the input notes |
| ChordMatcher.IntervalsFrom | app.py:206-207 | the same, restricted to offsets of at least `lo` |
| ChordMatcher.WinnerUnique | app.py:205-222 | at most one candidate is the first one to reach the top qualifying score |
| ChordMatcher.SearchStep | app.py:212-222 | one test `matches >= 3 and score > best_match_score` keeps the search state: an adopted candidate becomes the best so far, otherwise the old best stays |
| ChordMatcher.SearchAdopt | app.py:220-222 | an adopted candidate is the best of every candidate tried so far, and strictly beats the earlier ones |
| ChordMatcher.SearchKeep | app.py:220 | a rejected candidate leaves the best candidate and score unchanged |
| ChordMatcher.SearchNextRoot | app.py:205-210 | after the last chord type of one root, the search continues with the first chord type of the next root |
| ChordMatcher.SearchDone | app.py:205-224 | after every root, nothing was adopted exactly when no candidate qualifies; otherwise the adopted one is the winner |
| ChordMatcher.TryChordTypes | app.py:210-222 | the inner loop over chord types, in table order, keeps the search invariant for one root |
| ChordMatcher.FindBestMatch | app.py:202-224 | `best_match` is unset exactly when no candidate has at least 3 matches and a positive score; otherwise it is the first candidate, in iteration order, with the highest score |
| ChordMatcher.PositionOf | app.py:235 | `list.index`: the first position holding the value |
| ChordMatcher.PositionOfInterval | app.py:235 | in a chord's interval list, `index(interval)` gives back the loop position |
| ChordMatcher.ChordNoteNamesAt | app.py:231-234 | chord note k is the `NOTE_NAMES_TR` name of `(root + interval k) mod 12` |
| ChordMatcher.ChordComponentsOf | app.py:228-235 | `chord_notes[k]` is the Turkish name of `(root + CHORD_INTERVALS[type][k]) mod 12`, and `note_roles` is `CHORD_COMPONENTS[type]`, with one entry per interval |
| ChordMatcher.ComponentStep | app.py:231-235 | one loop pass appends the entries for interval k to both lists |
| ChordMatcher.DetectChord | app.py:191-239 | fewer than 3 notes, whatever they are, or no qualifying candidate, gives no chord; otherwise the root is one of the input notes and is the winning candidate's, and the notes and roles are those of the winning chord type |
| ChordMatcher.RoundHalfEven | app.py:186 | Python's `round`: the nearest integer, with ties going to the even one |
| ChordMatcher.TruncDiv | app.py:187 | `int(a / b)` truncates toward zero, for negative numerators too |
| ChordMatcher.FrequencyToNote | app.py:173-189 | no note when the frequency is at most 0 or the MIDI number is outside [21, 108]; otherwise, with r the rounded number, the name is `note_names[r mod 12]`, the octave lies in 0..8, and `12 * (octave + 1) + r mod 12 = r` |
| ChordMatcher.OctaveOfMidi | app.py:186-187 | on the piano range the truncated octave lies in 0..8, and octave and pitch class give back the MIDI number |
| NoteDetector.FrequencyToNote | backend/note_detector.py:10-21 | frequency 0 gives None, and every positive frequency gives a name; the name is `notes[n mod 12]` with Python's non-negative modulo, and the octave is `floor((n - 12) / 12)` |
| NoteDetector.LabelDeterminesNoteNumber | backend/note_detector.py:16-21 | two positive frequencies get the same label only when their note numbers are equal, so name and octave encode the note number |
| NoteDetector.ConcertAIsCSharp3 | backend/note_detector.py:15-21 | 440 Hz, note number 49, is named "C#3" |
| NoteDetector.Column | backend/note_detector.py:40 | `magnitudes[:, i]` is column i of the matrix |
| NoteDetector.ArgMax | backend/note_detector.py:40 | `argmax` is a position of the maximum, and the first such position |
| NoteDetector.FrameNotesNext | backend/note_detector.py:39-46 | a frame adds the note of its loudest bin's pitch when that pitch is positive, and nothing otherwise |
| NoteDetector.FirstOccurrencesNext | backend/note_detector.py:45-46 | appending a note already seen leaves the deduplicated list as it was; a new note is appended at the end |
| NoteDetector.DetectStep | backend/note_detector.py:39-46 | one loop pass turns the deduplicated notes of the first i frames into those of the first i + 1 |
| NoteDetector.DetectNotes | backend/note_detector.py:31-48 | `detected_notes` is the order-preserving deduplication of the per-frame notes |
| NoteDetector.FirstOccurrencesSameElements | backend/note_detector.py:45-46 | the deduplicated list holds exactly the notes that occur in some frame |
| NoteDetector.ElementOfFirstOccurrences | backend/note_detector.py:45-46 | a note is detected exactly when it occurs in some frame |
| NoteDetector.FirstOccurrencesNoDuplicates | backend/note_detector.py:45-46 | `detected_notes` has no duplicates |
| NoteDetector.FirstIndex | backend/note_detector.py:45-46 | the first frame at which a note occurs |
| NoteDetector.FirstOccurrencesInOrder | backend/note_detector.py:45-46 | notes are listed in the order of their first appearance across frames |
| NoteDetector.PrefixFirstIndex | backend/note_detector.py:45-46 | a later frame does not change where a note was first seen |
| NoteDetector.FirstIndexOfNew | backend/note_detector.py:45-46 | a note not seen before is first seen at the frame that adds it |
| ChunkAverager.AverageAudioChunks | wwwroot/js/app.js:156-171 | for a non-empty buffer the length is `floor(total samples / number of blocks)`; an empty buffer gives an empty frame; sample i is the sum of `chunk[i]` over the blocks longer than i, divided by the number of all blocks |
| ChunkAverager.AveragedSingleChunk | wwwroot/js/app.js:156-171 | one block is returned unchanged |
| ChunkAverager.AveragedTwoUnevenChunks | wwwroot/js/app.js:157-158 | `[[1,1,1],[1,1]]` averages to `[1,1]`: the frame is only floor(5/2) long |
| ChunkAverager.AveragedShortChunkAttenuates | wwwroot/js/app.js:160-168 | a block too short for index i still counts in the divisor: `[[1,1,1,1],[1,1]]` gives `[1,1,0.5]` |
| ChunkAverager.ColumnSumBounded | wwwroot/js/app.js:161-166 | with every sample in [-b, b], the running sum stays within the number of blocks times b |
| ChunkAverager.AveragedBounded | wwwroot/js/app.js:156-171 | with every sample in [-b, b], every averaged sample is in [-b, b] |
| ChunkAverager.AveragedEqualLengths | wwwroot/js/app.js:156-166 | blocks of equal length give a frame of that length whose sample i is the sum of the blocks' samples i divided by the number of blocks |
| DetectionClient.Classify | wwwroot/js/app.js:284-310 | a failed fetch, a non-ok status or an undecodable body is a connection error; a truthy `error` field is a server error; exactly the other replies are delivered, as they are |
| DetectionClient.ShownFor | wwwroot/js/app.js:117-145 | a note is shown exactly for a note request whose reply has a non-empty `note`; a chord is shown exactly for a chord request whose reply has a `chord`; otherwise nothing is shown |
| Presenter.ColorAndClassAgree | wwwroot/js/app.js:233-261 | for indexes 0..3, colour and role class name the same role (root, third, fifth, seventh) and the colours differ; beyond 3 the class is `''` and the colour falls back to root |
| Presenter.HighlightedOverwrites | wwwroot/js/app.js:263-282 | highlighting with a colour and a text sets the whole display of a key, whatever it showed before |
| Presenter.QuerySelector | wwwroot/js/app.js:120-135 | `querySelector` gives the first key in document order that the selector matches, and nothing when none does |
| Presenter.KeyboardLabel | wwwroot/js/app.js:42-51 | key j of the 24 carries `note + octave` and its Turkish name + octave, with octave 4 for the first twelve keys and 5 for the rest |
| Presenter.KeyboardLowerOctave | wwwroot/js/app.js:42-51 | the first twelve keys carry the Turkish names with octave 4 |
| Presenter.NotPrefixOfEarlierKey | wwwroot/js/app.js:42-51 | no Turkish name is a prefix of an earlier key's label in the lower octave |
| Presenter.LowerOctaveMatches | wwwroot/js/app.js:42-51 | a Turkish name is a prefix of its own lower-octave key and of no earlier key |
| Presenter.ChordKeyFindsLowerOctave | wwwroot/js/app.js:135 | with the attribute the page sets, a chord note name finds its own key in the lower octave ("Do" finds "Do4", not "Do#4") |
| Presenter.ChordKeyAsWrittenFindsNothing | wwwroot/js/app.js:135 | the selector `[data-noteTr^=...]` as written matches no key on any keyboard |
| Presenter.ChordKeyAsWrittenMissesDo | wwwroot/js/app.js:135 | on the page's keyboard, "Do" lights no key as written, while the intended lookup finds key 0 |
| Presenter.LookupsIgnoreViews | wwwroot/js/app.js:120-135 | both lookups depend only on the keys' labels, not on what the keys display |
| Presenter.HighlightNoteEffect | wwwroot/js/app.js:135-140 | highlighting one chord note changes only the key it finds, which then shows that note's colour, opacity and "note (role)" text |
| Presenter.ChordHighlightsKeepKeyboard | wwwroot/js/app.js:134-141 | highlighting chord notes changes only what keys display |
| Presenter.ChordHighlightsMissStep | wwwroot/js/app.js:134-141 | a key the next chord note does not find is left as it was |
| Presenter.ChordHighlightsMissKey | wwwroot/js/app.js:134-141 | a key that no chord note finds keeps its display |
| Presenter.ChordHighlightsHitStep | wwwroot/js/app.js:134-141 | the key the latest chord note finds shows that note |
| Presenter.ChordHighlightsLastHit | wwwroot/js/app.js:134-141 | a key shows the colour of the last chord note that finds it, and that note's label |
| Presenter.PresentedClearsTheRest | wwwroot/js/app.js:115-141 | after a delivered reply, every key that the shown note or chord does not light is reset |
| Presenter.PresentedKeepsKeyboard | wwwroot/js/app.js:115-141 | presenting a result changes only what keys display |
| Presenter.PresentedChordNote | wwwroot/js/app.js:115-141 | after a chord reply, the key of chord note k, when no later note lands on it, shows colour k, the black/white opacity and "note (role)" |
| Presenter.PresentedNote | wwwroot/js/app.js:115-121 | after a note reply, the key whose `data-note` is `note_en` shows the root colour and the Turkish note text |
| Presenter.DetailsFor | wwwroot/js/app.js:126-131 | the chord details list one component per chord note, with its role and `getRoleClass(k)` |
| Page.TeardownReleasesEachOnce | wwwroot/js/app.js:215-230 | stopping disconnects or closes each non-null handle exactly once and nothing else, and closes the context last |
| Page.CreatedBefore | wwwroot/js/app.js:185-188 | the handles that exist when `startRecording` fails at a given step: the context first, then analyser, microphone source and processor |
| Page.FailedStartReleasesCreated | wwwroot/js/app.js:201-204 | a start that fails after creating k handles releases exactly k |
| Page.TeardownOfNothing | wwwroot/js/app.js:215-230 | with every handle null, stopping releases nothing |
| Page.GatedOnlyAudible | wwwroot/js/app.js:194-199 | every buffered block was delivered and has a sample with `abs(s) > 0.01` |
| Page.GatedKeepsAudible | wwwroot/js/app.js:194-199 | every audible block is buffered |
| Page.GatedSilence | wwwroot/js/app.js:194-199 | silence buffers nothing |
| Page.Page.constructor | wwwroot/js/app.js:10-70 | the page starts idle, with nothing buffered and the 24 keys built |
| Page.Page.StopRecording | wwwroot/js/app.js:207-231 | not recording, both buttons enabled, record button text restored, status "Kayıt tamamlandı..."; each handle that was set is released once, and all four are null |
| Page.Page.ReleaseGraph | wwwroot/js/app.js:215-230 | releases the set handles in source order and nulls all four |
| Page.Page.StartRecording | wwwroot/js/app.js:173-205 | the buffer is emptied and the result panel reset; on success it is recording with both buttons disabled; a failure at step k ends stopped, with the record button back to "start", both buttons enabled and the k created handles released |
| Page.Page.BeginSession | wwwroot/js/app.js:174-182 | sets recording, empties the buffer, disables both buttons, sets the status and the button text |
| Page.Page.BuildGraph | wwwroot/js/app.js:185-192 | creates the handles in order up to the failing step |
| Page.Page.OnRecordClick | wwwroot/js/app.js:72-90 | while recording, a click stops, with the whole state `stopRecording` leaves; otherwise a refused microphone changes the status and nothing else, and a granted one starts recording, with the whole state `startRecording` leaves on success and on failure |
| Page.Page.OnAudioProcess | wwwroot/js/app.js:194-199 | runs only while recording; a block is appended as a whole copy exactly when it is audible; the buffer is always the gated sequence of blocks heard so far |
| Page.Page.ClearKeyHighlights | wwwroot/js/app.js:238-251 | every key loses its highlight, colour, opacity and text |
| Page.Page.HighlightKey | wwwroot/js/app.js:263-282 | only key j changes, to its highlighted display |
| Page.Page.OnKeyClick | wwwroot/js/app.js:66-68 | only the clicked key changes: it becomes active and shows its Turkish label, keeping its background, opacity and label colour |
| Page.Page.SendAudioToServer | wwwroot/js/app.js:284-310 | one request, recording the frame and whether each of the two buttons was disabled when it went out; the status becomes "Sunucu bağlantı hatası" or "Tespit edilemedi" on the two error outcomes and is unchanged otherwise; the payload is returned exactly when it is delivered |
| Page.Page.HighlightChord | wwwroot/js/app.js:134-141 | the keys are the chord highlights of all chord notes, in order |
| Page.Page.PresentResult | wwwroot/js/app.js:114-145 | clears every key, then lights the note's or chord's keys, and sets result text and details |
| Page.Page.DetectSound | wwwroot/js/app.js:100-154 | with nothing recorded, only the status changes; otherwise the averaged frame is sent once while both buttons are disabled, the buttons end enabled, an undelivered reply leaves keys and result panel untouched, and a delivered one is presented |
| Page.Page.DetectRecorded | wwwroot/js/app.js:106-153 | the part after the empty-buffer guard: the averaged frame is sent once while both buttons are disabled |

## Left out

- Floating point: `log2`, `float32` storage of samples (`Float32Array`) and of the service's input, and `toFixed(1)`. Samples are exact reals. The MIDI number (app.py) and the rounded note number (backend/note_detector.py) are inputs.
- NoteDetector.FrequencyToNote: requires a non-negative frequency. The source computes `log2` of a negative pitch and fails, and `detect_notes` calls it only for positive pitches.
- NoteDetector.DetectNotes: requires at least one frequency bin, because `argmax` of an empty column raises. It takes the note-number computation `round(12 * log2(f / 440) + 49)` as a function argument. Labels are a name and an octave rather than the formatted string; the formatting is one-to-one, so deduplication is the same.
- ChordMatcher.DetectChord: requires every input name to be one of the twelve names when there are at least three of them. With three or more names the source's `.index` raises `ValueError` on an unknown one; with fewer it returns no chord before looking at the names, as the model does. The only caller passes names from the twelve.
- The `detect_note` endpoint of app.py (library calls `normalize`, `chroma_cqt`, `piptrack`, the float thresholds and `jsonify`), the static routes, and the Turkish chord-type display names used only there.
- backend/app.py and `NoteDetector.record_audio`: HTTP and sound-device input and output.
- DOM construction and event wiring beyond the keys' labels and classes; CSS colour values (colours are the four roles); `innerHTML` markup (details are a list of components).
- `getUserMedia` and the audio graph. An audio handle is a token with a session number, and a failure of `startRecording` is an input step number.
- `fetch` and JSON decoding: the reply is an input. The `catch` of `detectSound` for a malformed delivered payload, such as a missing `frequency`, is not modelled.
- Asynchronous interleaving: each handler is one atomic step. The state of both buttons while the request is in flight is recorded in each request (`Page.Post`), but other events arriving during the `await` of `detectSound` are not modelled.
- Presenter.ChordKey: chord notes are looked up as intended, as the first key whose `data-note-tr` starts with the note name. The selector as written (wwwroot/js/app.js:135) matches no key (`Presenter.ChordKeyAsWrittenFindsNothing`), so on the page as written no chord key is lit. `Presenter.PresentedChordNote`, the `Presenter.ChordHighlights` lemmas, `Page.Page.HighlightChord`, `Page.Page.PresentResult` and `Page.Page.DetectSound` describe the corrected page.

## Findings

| source | as written | input that shows it | evidently intended | confidence | as-written member | corrected member |
|---|---|---|---|---|---|---|
| wwwroot/js/app.js:135 | `document.querySelector('[data-noteTr^="…"]')`. HTML compares attribute names without regard to case, so this asks for an attribute `data-notetr`. The page stores `dataset.noteTr` (line 51) as `data-note-tr`, so no key matches and chord notes are never lit. | a chord reply with notes `["Do","Mi","Sol"]`; the note "Do" finds no key | the first key whose `data-note-tr` starts with the note name, which is key "Do4" for "Do" | high; not executed | Presenter.ChordKeyAsWrittenMissesDo | Presenter.ChordKeyFindsLowerOctave |
