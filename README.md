# Keyboard piano — a verified model of its logic

A toy keyboard piano maps keyboard characters to musical notes. It has two programs.

`keyboard_piano.py` plays a melody given as text, renders it into a mono 16-bit WAV file, or reacts to live key presses. `piano.py` is a pygame variant. It first plays a melody character by character, watching for a window-close or Escape event. It then runs an interactive loop that plays a tone for each key pressed.

This project models the deterministic core of both programs in Dafny and proves what it promises:

- `key_notes.dfy` (module `KeyNotes`): the note and key tables of `keyboard_piano.py`. It also holds the case-insensitive resolution of a melody character (note, rest, space, newline or unmapped) and the decision of the `on_press` listener callback.
- `renderer.dfy` (module `Renderer`): `generate_tone_samples` and the sample-buffer loop of `generate_audio_file`. Both are methods with loops, proved against the pure functions `Tone` and `Render`.
- `pcm.dfy` (module `Pcm`): the WAV payload. Each sample becomes two bytes, low byte first, in two's complement. It has a decoder and round trips in both directions.
- `output_name.dfy` (module `OutputName`): the output file name chosen in `main`. The typed name is stripped, an empty name becomes the default, and `.wav` is appended when missing.
- `piano.py`'s logic (module `Piano`, file `piano.dfy`) covers three things. First, `char_to_key`. Second, the per-character schedule of `play_sequence` with its early abort. Third, the `while running` event loop.
- `wrappers.dfy` (module `Wrappers`): the `Option` type.

How the model represents things:

- Durations are given as frame counts. These are the values of `int(duration * sample_rate)`: 13230, 4410 and 8820 at the defaults.
- The sine function is a parameter whose values lie in [-1, 1]. Python's `int()` on the scaled value is modelled as truncation toward zero. So the sample bound [-32767, 32767] is proved.
- Sleeps are `Sleep(ms)` actions in a schedule.
- Polled events are given as a sequence of batches. A poll past the end of that sequence returns an empty batch.

The model follows the code as written:

- A tone has `int(duration * rate)` samples, and each sample is `int()` of the scaled sine, truncated toward zero.
- Unmapped characters add nothing to the buffer.
- In `piano.py` the Enter character `'\r'` has a key code that is in `sounds`, so it plays the 783.99 Hz tone. The "rest" branch at `piano.py:118-120` is never reached (`Piano.ReturnHasSound`, `Piano.PlayChar`).

## Model

| member | source | states |
|---|---|---|
| `KeyNotes.KeyNotesHaveFrequencies` | keyboard_piano.py:16-42 | every note named in the key table is a key of the frequency table, so the lookup at line 131 cannot fail |
| `KeyNotes.NoteFrequencies` | keyboard_piano.py:16-25 | the frequency of each note name |
| `KeyNotes.KeyNoteMap` | keyboard_piano.py:28-42 | the note each key plays, `None` for the Enter rest |
| `KeyNotes.Lower` | keyboard_piano.py:127 | A-Z fold to a-z (code plus 32), the Kelvin sign to 'k', and every other character is left as it is; no A-Z letter or Kelvin sign remains; space and newline are kept exactly |
| `KeyNotes.LowerIdempotent` | keyboard_piano.py:127 | folding twice is folding once |
| `KeyNotes.Resolve` | keyboard_piano.py:126-148 | a character is a note iff its lower-case form maps to a note, and then it is exactly that note with its table frequency; a rest iff it folds to `'\r'`; a space iff it is `' '`; a newline iff it is `'\n'`; unmapped iff it is neither a key nor a space nor a newline |
| `KeyNotes.ResolveExamples` | keyboard_piano.py:16-42 | 'h' and 'H' resolve to A at 440 Hz, 'D' to D at 293.66 Hz, ';' and 'l' to C5 at 523.25 Hz |
| `KeyNotes.ResolveIgnoresCase` | keyboard_piano.py:127-128 | a character resolves exactly like its lower-case form |
| `KeyNotes.OnPress` | keyboard_piano.py:193-215 | the callback stops the listener exactly for Esc; any note it plays is in the frequency table and comes from a character key |
| `KeyNotes.OnPressAgreesWithResolve` | keyboard_piano.py:209-213 | a character key plays a note iff the renderer resolves the same character to a note, and it is the same note |
| `KeyNotes.OnPressIgnoresNonNotes` | keyboard_piano.py:199-207 | Enter (mapped to the rest `'\r'`), other special keys and keys without a character do nothing |
| `Renderer.Truncate` | keyboard_piano.py:53 | `int()` truncates toward zero: the result is within one of x and on the zero side of it |
| `Renderer.Sample` | keyboard_piano.py:47-53 | every synthesized sample lies in [-32767, 32767] |
| `Renderer.Tone` | keyboard_piano.py:44-55 | a tone has exactly `frames` samples, all in [-32767, 32767] |
| `Renderer.Silence` | keyboard_piano.py:138-140 | silence of n frames is exactly n zeros |
| `Renderer.GenerateToneSamples` | keyboard_piano.py:44-55 | the append loop returns exactly the tone: sample i is `int(32767 * sin(...))` at index i |
| `Renderer.FrameCount` | keyboard_piano.py:129-148 | the frames a character appends: `note` for a note or rest, `space` for a space, `newline` for a newline, none otherwise |
| `Renderer.NoteCount` | keyboard_piano.py:124-134 | `note_count`: the number of characters that resolve to a note |
| `Renderer.RenderChar` | keyboard_piano.py:127-148 | one character appends exactly its class's frame count; samples are in range; anything but a note appends only zeros |
| `Renderer.Render` | keyboard_piano.py:126-148 | every sample of the rendered buffer lies in [-32767, 32767] |
| `Renderer.RenderAppend` | keyboard_piano.py:126-148 | the buffer and the note count for s1+s2 are those of s1 followed by those of s2 |
| `Renderer.RenderSnoc` | keyboard_piano.py:126-148 | processing one more character extends the buffer by that character's samples and counts it iff it is a note |
| `Renderer.RenderLength` | keyboard_piano.py:126-148 | the buffer length is `note` frames per note or rest character, `space` frames per space and `newline` frames per newline |
| `Renderer.RenderIgnoresCase` | keyboard_piano.py:127-128 | a melody renders to the same buffer as its lower-case form |
| `Renderer.NoteCharAppendsTone` | keyboard_piano.py:129-136 | a note character appends its note's tone of `note` frames and counts one note |
| `Renderer.RestAppendsSilence` | keyboard_piano.py:137-140 | `'\r'` appends `note` zeros and is not counted as a note |
| `Renderer.PausesAndUnmapped` | keyboard_piano.py:141-148 | a space appends `space` zeros, a newline `newline` zeros, an unmapped character nothing |
| `Renderer.ExampleLength` | keyboard_piano.py:126-148 | "H K" at the defaults is 13230 + 4410 + 13230 samples long |
| `Renderer.RenderEncodes` | keyboard_piano.py:161 | every rendered buffer encodes without overflow into twice as many bytes, and decodes back to itself |
| `Renderer.GenerateAudioFile` | keyboard_piano.py:118-162 | the character loop builds exactly `Render(sequence)`, counts exactly the note characters, and writes the buffer's encoding |
| `Pcm.InInt16` | keyboard_piano.py:161 | the values `to_bytes(2, signed=True)` accepts: -32768 to 32767 |
| `Pcm.EncodeSample` | keyboard_piano.py:161 | a sample encodes iff it fits in 16 signed bits, into two bytes whose little-endian value is congruent to it modulo 65536 |
| `Pcm.DecodeSample` | keyboard_piano.py:161 | decoding two bytes gives a 16-bit value congruent to their little-endian value |
| `Pcm.SampleRoundTrip` | keyboard_piano.py:161 | decoding the two bytes of an in-range sample gives the sample back |
| `Pcm.BytesRoundTrip` | keyboard_piano.py:161 | encoding the decoded value of any two bytes gives those bytes back |
| `Pcm.EncodePcm` | keyboard_piano.py:161 | the payload exists iff every sample fits 16 bits, and then it is exactly twice as long as the buffer |
| `Pcm.DecodePcm` | keyboard_piano.py:161 | decoding yields one 16-bit value per pair of bytes |
| `Pcm.EncodePcmAt` | keyboard_piano.py:161 | sample i sits at bytes 2i (low) and 2i+1 (high) of the payload |
| `Pcm.PcmRoundTrip` | keyboard_piano.py:161 | decoding the payload recovers every sample |
| `Pcm.PcmBytesRoundTrip` | keyboard_piano.py:161 | every even-length payload is the encoding of its decoding |
| `OutputName.TrimStart` | keyboard_piano.py:281 | strips leading whitespace: a suffix of the input, not starting with whitespace, with only whitespace removed |
| `OutputName.TrimEnd` | keyboard_piano.py:281 | strips trailing whitespace: a prefix of the input, not ending with whitespace, with only whitespace removed |
| `OutputName.IsSpace` | keyboard_piano.py:281 | the characters `str.isspace()` accepts, which `strip()` removes |
| `OutputName.EndsWith` | keyboard_piano.py:284 | `str.endswith`: the last characters of the name are the suffix |
| `OutputName.Strip` | keyboard_piano.py:281 | the result is a contiguous piece of the input with no whitespace at either end, and everything before and after it is whitespace |
| `OutputName.StripBlank` | keyboard_piano.py:281 | a line of whitespace only strips to the empty string |
| `OutputName.StripUnchanged` | keyboard_piano.py:281 | a name without whitespace at its ends is its own strip |
| `OutputName.NormalizeFilename` | keyboard_piano.py:281-285 | the result ends with ".wav"; a blank line gives "song_output.wav"; otherwise the stripped name is a prefix of the result, and the result is the stripped name itself iff that name already ends with ".wav" |
| `OutputName.NormalizeIdempotent` | keyboard_piano.py:281-285 | normalising twice equals normalising once |
| `OutputName.NormalizeKeepsWavName` | keyboard_piano.py:284-285 | a name that does not start with whitespace and ends in ".wav" is unchanged |
| `OutputName.DefaultHasExtension` | keyboard_piano.py:283-285 | the default name already ends with ".wav" |
| `OutputName.NormalizeAppends` | keyboard_piano.py:281-285 | a non-blank stripped name without ".wav" gets exactly ".wav" appended |
| `OutputName.NormalizeEmpty` | keyboard_piano.py:281-283 | every line made only of whitespace, the empty line included, becomes "song_output.wav" |
| `OutputName.NormalizeCaseSensitive` | keyboard_piano.py:284-285 | "x.WAV" becomes "x.WAV.wav": the suffix test is case-sensitive |
| `Piano.KeyFreqMap` | piano.py:22-45 | the key code to frequency table |
| `Piano.Sounds` | piano.py:47 | `sounds` has one tone per key of the frequency table |
| `Piano.IsAlpha` | piano.py:69 | `isalpha()` on ASCII letters |
| `Piano.Upper` | piano.py:69 | `upper()` on ASCII letters |
| `Piano.CharMap` | piano.py:54-68 | `char_map`: the upper-case letters, `;`, `'` and `'\r'` with their key codes |
| `Piano.CharToKey` | piano.py:52-69 | a character has a key code iff it is one of D F G H T K L J Y U (either case), `;`, `'` or `'\r'`; the code is that of the lower-case letter for a letter and the character's own code otherwise; every code it gives is a key of `sounds` |
| `Piano.CharToKeyIgnoresCase` | piano.py:69 | a lower-case letter gives the same code as its upper-case form |
| `Piano.ReturnHasSound` | piano.py:35 | `'\r'` gives the Enter key code, which has the 783.99 Hz sound |
| `Piano.CharSteps` | piano.py:107-120 | the intended schedule of one character: space 100 ms, newline 200 ms, a keyed character plays its sound then 300 ms, anything else nothing; it is empty iff the character is neither space nor newline and has no key code, and every key it plays has a sound |
| `Piano.Steps` | piano.py:97-120 | the schedule of a string is the schedules of its characters in order |
| `Piano.CharSleepMs` | piano.py:107-120 | one character sleeps 300 ms if it has a key code, 100 ms for a space, 200 ms for a newline, else 0 |
| `Piano.StepsDuration` | piano.py:97-120 | a whole melody sleeps 300 ms per keyed character plus 100 ms per space plus 200 ms per newline |
| `Piano.PlayChar` | piano.py:107-120 | the source's if/elif dispatch, Enter rest branch included, always produces `CharSteps`: the silent 300 ms rest at lines 118-120 is never produced |
| `Piano.PlaySequence` | piano.py:92-123 | the schedule is exactly that of the characters played before the first poll with a quit or Escape event; it returns True iff every character was reached, and False exactly when the poll before the next character had an exit event |
| `Piano.Poll` | piano.py:99 | the batch `pygame.event.get()` returns at each poll (here and at line 132); a poll past the given batches finds nothing |
| `Piano.IsExit` | piano.py:100-105 | an event is an exit event iff it is QUIT or a KEYDOWN of Escape |
| `Piano.HasExit` | piano.py:133-137 | a batch holds an exit event |
| `Piano.EventPlays` | piano.py:135-139 | a KEYDOWN of a key other than Escape that has a sound plays it; every other event plays nothing |
| `Piano.BatchPlays` | piano.py:132-139 | every key a batch plays has a sound and is not Escape |
| `Piano.HandleBatch` | piano.py:132-139 | one pass of the event loop plays exactly the batch's playable keys in order, including those after an exit event, and clears `running` iff the batch holds an exit event |
| `Piano.InteractiveLoop` | piano.py:129-139 | the loop stops after the first batch holding an exit event, never polls another batch, and plays exactly the playable keys of the batches it polled |
| `Piano.BatchPlaysAppend` | piano.py:132-139 | the sounds of two consecutive runs of events are the sounds of each in order |
| `Piano.ExitDoesNotBreak` | piano.py:131-139 | an exit event only marks the batch as ending the loop; the events after it still play |
| `Piano.HasExitAppend` | piano.py:131-137 | two runs of events hold an exit event iff one of them does |
| `Piano.UnknownKeyIgnored` | piano.py:135-139 | a key press that is neither Escape nor a key with a sound changes neither the sounds played nor whether the loop ends |

## Left out

- Sine synthesis is left out. `math.sin` and the numpy tones of `piano.py` (lines 13-20) are floating point. The model takes the sine values as a parameter bounded by [-1, 1].
- The conversion of a float duration to frames (`int(duration * sample_rate)`) is left out. Frame counts and pause lengths are parameters and constants.
- `play_note` is left out. It covers winsound, sounddevice and the print fallback, and its failures.
- All `time.sleep` calls and `pygame.mixer` playback are left out. They are device and timing calls. Pauses and plays are actions in a schedule.
- The WAV header, temporary files, `generate_tone_wav`, file paths, `getsize` and the progress and summary printing of `generate_audio_file` are left out. They are file I/O and console output. Only the sample payload is modelled.
- The pynput `Listener` that calls `on_press` until it returns False is left out. It is library code. Only the per-event decision is modelled.
- The prints of `piano.py`'s `play_sequence` (lines 94-95, 104 and 122) are left out. They are console output.
- The demo melodies, the menu and the `play_sequence` of `keyboard_piano.py` are left out. The demo melodies are configuration data. The menu is console UI. `play_sequence` plays each note through `play_note`, sleeps for rests and pauses, and prints. It uses the same classification as `KeyNotes.Resolve`.
- `KeyNotes.Lower`: models `str.lower()` only for A-Z and the Kelvin sign, which lower-cases to 'k'. Every other character keeps its value, because its real lower-case form is never a key of the table, so lookups are unaffected.
- `Piano.CharToKey`: models `str.isalpha()` and `str.upper()` only for ASCII letters. No other character upper-cases to a key of `char_map`.
- `Piano.InteractiveLoop`: also ends when the given batches run out. The real loop keeps polling forever while `running` is set.
