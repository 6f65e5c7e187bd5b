/**
 * Render-to-buffer: `generate_tone_samples` and the sample loop of
 * `generate_audio_file` in keyboard_piano.py. Durations arrive already
 * converted to frame counts, and the sine function is a parameter.
 */
module Renderer {
  import opened Wrappers
  import opened Pcm
  import opened KeyNotes

  /** Largest amplitude of a 16-bit signed sample. */
  const MaxAmplitude: int := 32767

  type SineValue = x: real | -1.0 <= x <= 1.0

  /**
   * `sine(f, i)` stands for sin(2*pi*f*i/sample_rate): the value of the
   * sine wave of frequency f at sample index i, at the fixed sample rate.
   */
  type Sine = (real, nat) -> SineValue

  /**
   * The frame counts `int(duration * sample_rate)` for a note or rest, a
   * space (0.1 s) and a newline (0.2 s).
   */
  datatype FrameCounts = FrameCounts(note: nat, space: nat, newline: nat)

  /** 0.3 s, 0.1 s and 0.2 s at 44100 Hz. */
  const DefaultFrames: FrameCounts := FrameCounts(13230, 4410, 8820)

  /** Python's `int()` on a float: truncation toward zero. */
  function Truncate(x: real): (n: int)
    ensures 0.0 <= x ==> n as real <= x < n as real + 1.0
    ensures x < 0.0 ==> n as real - 1.0 < x <= n as real
  {
    if 0.0 <= x then x.Floor else -((-x).Floor)
  }

  /** Sample i of a tone: `int(32767 * sin(...))`. */
  function Sample(sine: Sine, frequency: real, i: nat): (s: int)
    ensures -MaxAmplitude <= s <= MaxAmplitude
  {
    Truncate(MaxAmplitude as real * sine(frequency, i))
  }

  /** The tone of `frames` samples that `generate_tone_samples` returns. */
  function Tone(frequency: real, frames: nat, sine: Sine): (r: seq<int>)
    ensures |r| == frames
    ensures forall k :: 0 <= k < |r| ==> -MaxAmplitude <= r[k] <= MaxAmplitude
  {
    seq(frames, i requires 0 <= i => Sample(sine, frequency, i))
  }

  /** `[0] * frames`. */
  function Silence(frames: nat): (r: seq<int>)
    ensures |r| == frames
    ensures forall k :: 0 <= k < |r| ==> r[k] == 0
  {
    seq(frames, _ => 0)
  }

  /** The sample loop of `generate_tone_samples`. */
  method GenerateToneSamples(frequency: real, frames: nat, sine: Sine) returns (samples: seq<int>)
    ensures samples == Tone(frequency, frames, sine)
  {
    samples := [];
    for i := 0 to frames
      invariant |samples| == i
      invariant forall k :: 0 <= k < i ==> samples[k] == Sample(sine, frequency, k)
    {
      samples := samples + [Sample(sine, frequency, i)];
    }
  }

  /** Samples one character appends, by its class. */
  function FrameCount(c: char, frames: FrameCounts): nat {
    match Resolve(c)
    case Note(_, _) => frames.note
    case Rest => frames.note
    case Space => frames.space
    case Newline => frames.newline
    case Unmapped => 0
  }

  /** What one character appends to the buffer. */
  function RenderChar(c: char, frames: FrameCounts, sine: Sine): (r: seq<int>)
    ensures |r| == FrameCount(c, frames)
    ensures forall k :: 0 <= k < |r| ==> -MaxAmplitude <= r[k] <= MaxAmplitude
    ensures !Resolve(c).Note? ==> forall k :: 0 <= k < |r| ==> r[k] == 0
  {
    match Resolve(c)
    case Note(_, frequency) => Tone(frequency, frames.note, sine)
    case Rest => Silence(frames.note)
    case Space => Silence(frames.space)
    case Newline => Silence(frames.newline)
    case Unmapped => []
  }

  /** The whole buffer: each character's samples, in order. */
  function Render(s: string, frames: FrameCounts, sine: Sine): (r: seq<int>)
    ensures forall k :: 0 <= k < |r| ==> -MaxAmplitude <= r[k] <= MaxAmplitude
  {
    if s == [] then [] else RenderChar(s[0], frames, sine) + Render(s[1..], frames, sine)
  }

  /** The value of `note_count`: characters that resolve to a note. */
  function NoteCount(s: string): nat {
    if s == [] then 0 else (if Resolve(s[0]).Note? then 1 else 0) + NoteCount(s[1..])
  }

  /** Characters that resolve to a rest. */
  function RestCount(s: string): nat {
    if s == [] then 0 else (if Resolve(s[0]).Rest? then 1 else 0) + RestCount(s[1..])
  }

  /** Rendering distributes over concatenation. */
  lemma {:induction false} RenderAppend(s1: string, s2: string, frames: FrameCounts, sine: Sine)
    ensures Render(s1 + s2, frames, sine) == Render(s1, frames, sine) + Render(s2, frames, sine)
    ensures NoteCount(s1 + s2) == NoteCount(s1) + NoteCount(s2)
  {
    if s1 != [] {
      assert (s1 + s2)[0] == s1[0];
      assert (s1 + s2)[1..] == s1[1..] + s2;
      RenderAppend(s1[1..], s2, frames, sine);
    } else {
      assert s1 + s2 == s2;
    }
  }

  /** One more character extends the buffer by that character's samples. */
  lemma RenderSnoc(s: string, i: nat, frames: FrameCounts, sine: Sine)
    requires i < |s|
    ensures Render(s[..i + 1], frames, sine) == Render(s[..i], frames, sine) + RenderChar(s[i], frames, sine)
    ensures NoteCount(s[..i + 1]) == NoteCount(s[..i]) + (if Resolve(s[i]).Note? then 1 else 0)
  {
    assert s[..i + 1] == s[..i] + [s[i]];
    RenderAppend(s[..i], [s[i]], frames, sine);
    assert [s[i]][1..] == [];
  }

  /**
   * The buffer's length is the sum of the per-character frame counts:
   * note and rest characters give `note` frames each, spaces `space`,
   * newlines `newline`, everything else none.
   */
  lemma {:induction false} RenderLength(s: string, frames: FrameCounts, sine: Sine)
    ensures |Render(s, frames, sine)|
         == frames.note * (NoteCount(s) + RestCount(s))
          + frames.space * multiset(s)[' ']
          + frames.newline * multiset(s)['\n']
  {
    if s != [] {
      var c, t := s[0], s[1..];
      RenderLength(t, frames, sine);
      var tones, spaces, newlines := NoteCount(t) + RestCount(t), multiset(t)[' '], multiset(t)['\n'];
      assert |Render(s, frames, sine)| == FrameCount(c, frames) + |Render(t, frames, sine)|;
      MultisetCons(s, ' ');
      MultisetCons(s, '\n');
      var isTone := if Resolve(c).Note? || Resolve(c).Rest? then 1 else 0;
      assert NoteCount(s) + RestCount(s) == tones + isTone;
      MulSucc(frames.note, tones);
      MulSucc(frames.space, spaces);
      MulSucc(frames.newline, newlines);
    }
  }

  /** Occurrences of x in s, split at the first character. */
  lemma MultisetCons(s: string, x: char)
    requires s != []
    ensures multiset(s)[x] == (if s[0] == x then 1 else 0) + multiset(s[1..])[x]
  {
    assert s == [s[0]] + s[1..];
  }

  lemma MulSucc(a: nat, n: nat)
    ensures a * (n + 1) == a * n + a
  {
  }

  /** Case-insensitivity: a melody renders exactly like its lower-case form. */
  lemma {:induction false} RenderIgnoresCase(s: string, frames: FrameCounts, sine: Sine)
    ensures Render(seq(|s|, i requires 0 <= i < |s| => Lower(s[i])), frames, sine) == Render(s, frames, sine)
  {
    var lower := seq(|s|, i requires 0 <= i < |s| => Lower(s[i]));
    if s != [] {
      ResolveIgnoresCase(s[0]);
      RenderIgnoresCase(s[1..], frames, sine);
      assert lower[1..] == seq(|s[1..]|, i requires 0 <= i < |s[1..]| => Lower(s[1..][i]));
    }
  }

  /** A note character appends its tone and counts as one note. */
  lemma NoteCharAppendsTone(c: char, frames: FrameCounts, sine: Sine)
    requires Resolve(c).Note?
    ensures RenderChar(c, frames, sine) == Tone(NoteFrequencies[Resolve(c).name], frames.note, sine)
    ensures NoteCount([c]) == 1
  {
  }

  /** The rest character '\r' appends a note's worth of zeros and is not a note. */
  lemma RestAppendsSilence(frames: FrameCounts, sine: Sine)
    ensures RenderChar('\r', frames, sine) == Silence(frames.note)
    ensures NoteCount("\r") == 0
  {
  }

  /** Spaces and newlines append pauses of their own length; unmapped characters append nothing. */
  lemma PausesAndUnmapped(c: char, frames: FrameCounts, sine: Sine)
    ensures RenderChar(' ', frames, sine) == Silence(frames.space)
    ensures RenderChar('\n', frames, sine) == Silence(frames.newline)
    ensures Lower(c) !in KeyNoteMap && c != ' ' && c != '\n' ==> RenderChar(c, frames, sine) == []
  {
  }

  /** "H K" at the default frame counts: two notes around one short pause. */
  lemma ExampleLength(sine: Sine)
    ensures |Render("H K", DefaultFrames, sine)| == 13230 + 4410 + 13230
  {
  }

  /** Rendered samples always fit the payload encoder. */
  lemma RenderEncodes(s: string, frames: FrameCounts, sine: Sine)
    ensures EncodePcm(Render(s, frames, sine)).Some?
    ensures |EncodePcm(Render(s, frames, sine)).value| == 2 * |Render(s, frames, sine)|
    ensures DecodePcm(EncodePcm(Render(s, frames, sine)).value) == Render(s, frames, sine)
  {
    PcmRoundTrip(Render(s, frames, sine));
  }

  /**
   * The character loop of `generate_audio_file` and the byte payload it
   * writes: returns the sample buffer, `note_count` and the frame bytes.
   */
  method GenerateAudioFile(sequence: string, frames: FrameCounts, sine: Sine)
    returns (samples: seq<int>, noteCount: nat, payload: seq<byte>)
    ensures samples == Render(sequence, frames, sine)
    ensures noteCount == NoteCount(sequence)
    ensures EncodePcm(samples) == Some(payload)
    ensures DecodePcm(payload) == samples
  {
    samples, noteCount := [], 0;
    for i := 0 to |sequence|
      invariant samples == Render(sequence[..i], frames, sine)
      invariant noteCount == NoteCount(sequence[..i])
    {
      var c := sequence[i];
      var key := Lower(c);
      if key in KeyNoteMap {
        var note := KeyNoteMap[key];
        if note.Some? {
          KeyNotesHaveFrequencies();
          var tone := GenerateToneSamples(NoteFrequencies[note.value], frames.note, sine);
          samples := samples + tone;
          noteCount := noteCount + 1;
        } else {
          samples := samples + Silence(frames.note);
        }
      } else if c == ' ' {
        samples := samples + Silence(frames.space);
      } else if c == '\n' {
        samples := samples + Silence(frames.newline);
      }
      RenderSnoc(sequence, i, frames, sine);
    }
    assert sequence[..|sequence|] == sequence;
    RenderEncodes(sequence, frames, sine);
    payload := EncodePcm(samples).value;
  }
}
