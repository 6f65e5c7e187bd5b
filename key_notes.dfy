/**
 * The static tables of keyboard_piano.py and the two lookups built on them:
 * resolving a melody character (the render loop) and deciding what a live
 * key press does (the listener callback).
 */
module KeyNotes {
  import opened Wrappers

  /** Note name to frequency in Hz, C4 up to C5. */
  const NoteFrequencies: map<string, real> := map[
    "C" := 261.63, "D" := 293.66, "E" := 329.63, "F" := 349.23,
    "G" := 392.00, "A" := 440.00, "B" := 493.88, "C5" := 523.25
  ]

  /** Key character to note name; the Enter character '\r' is a rest (None). */
  const KeyNoteMap: map<char, Option<string>> := map[
    'd' := Some("D"), 'f' := Some("F"), 'g' := Some("G"), 'h' := Some("A"),
    't' := Some("E"), 'k' := Some("B"), ';' := Some("C5"), 'l' := Some("C5"),
    'j' := Some("A"), 'y' := Some("G"), 'u' := Some("F"), '\'' := Some("C5"),
    '\r' := None
  ]

  /** Every note a key names has a frequency, so the frequency lookup cannot fail. */
  lemma KeyNotesHaveFrequencies()
    ensures forall k :: k in KeyNoteMap && KeyNoteMap[k].Some? ==> KeyNoteMap[k].value in NoteFrequencies
  {
  }

  const KelvinSign: char := '\U{212A}'

  /**
   * Python's `str.lower()` as far as lookups in KeyNoteMap can tell: A-Z
   * become a-z and the Kelvin sign becomes 'k'. Every other character's
   * lower-case form is either itself or a character (or string) that is
   * not a key, so it is left unchanged here.
   */
  function Lower(c: char): (r: char)
    ensures 'A' <= c <= 'Z' ==> r as int == c as int + 32
    ensures c == KelvinSign ==> r == 'k'
    ensures !('A' <= c <= 'Z') && c != KelvinSign ==> r == c
    ensures !('A' <= r <= 'Z') && r != KelvinSign
    ensures r == ' ' <==> c == ' '
    ensures r == '\n' <==> c == '\n'
  {
    if 'A' <= c <= 'Z' then (c as int + 32) as char
    else if c == KelvinSign then 'k'
    else c
  }

  lemma LowerIdempotent(c: char)
    ensures Lower(Lower(c)) == Lower(c)
  {
  }

  /** What one melody character stands for. */
  datatype Symbol =
    | Note(name: string, frequency: real)
    | Rest
    | Space
    | Newline
    | Unmapped

  /** The classification of the render loop's if/elif chain. */
  function Resolve(c: char): (r: Symbol)
    ensures r.Note? ==> r.name in NoteFrequencies && r.frequency == NoteFrequencies[r.name]
    ensures r.Note? <==> Lower(c) in KeyNoteMap && KeyNoteMap[Lower(c)].Some?
    ensures r.Note? ==> Some(r.name) == KeyNoteMap[Lower(c)]
    ensures r.Space? <==> c == ' '
    ensures r.Newline? <==> c == '\n'
    ensures r.Rest? <==> Lower(c) == '\r'
    ensures r.Unmapped? <==> Lower(c) !in KeyNoteMap && c != ' ' && c != '\n'
  {
    var key := Lower(c);
    if key in KeyNoteMap then
      match KeyNoteMap[key]
      case Some(name) => Note(name, NoteFrequencies[name])
      case None => Rest
    else if c == ' ' then Space
    else if c == '\n' then Newline
    else Unmapped
  }

  /** Resolution ignores case: a character resolves like its lower-case form. */
  lemma ResolveIgnoresCase(c: char)
    ensures Resolve(Lower(c)) == Resolve(c)
  {
    LowerIdempotent(c);
  }

  /** 'h' and 'H' both play A at 440 Hz; 'd' plays D, ';' and 'l' play C5. */
  lemma ResolveExamples()
    ensures Resolve('h') == Resolve('H') == Note("A", 440.00)
    ensures Resolve('D') == Note("D", 293.66)
    ensures Resolve(';') == Resolve('l') == Note("C5", 523.25)
  {
  }

  /** A key event from the listener: a key with a character (possibly none), or a special key. */
  datatype KeyEvent = CharKey(ch: Option<char>) | SpecialKey(special: Special)
  datatype Special = Enter | Esc | OtherSpecial

  /** What the callback does: stop the listener, play a note, or nothing. */
  datatype Reaction = Stop | Play(note: string) | Nothing

  /** The decision of `on_press`, without the printing and the sound device. */
  function OnPress(e: KeyEvent): (r: Reaction)
    ensures r == Stop <==> e == SpecialKey(Esc)
    ensures r.Play? ==> r.note in NoteFrequencies
    ensures r.Play? ==> e.CharKey? && e.ch.Some?
  {
    var key: Option<char> :=
      match e
      case CharKey(Some(c)) => Some(Lower(c))
      case CharKey(None) => None
      case SpecialKey(Enter) => Some('\r')
      case SpecialKey(Esc) => None
      case SpecialKey(OtherSpecial) => None;
    if e == SpecialKey(Esc) then Stop
    else if key.Some? && key.value in KeyNoteMap && KeyNoteMap[key.value].Some? then
      Play(KeyNoteMap[key.value].value)
    else Nothing
  }

  /**
   * A character key plays exactly when the render loop would resolve the
   * same character to a note, and it plays that very note.
   */
  lemma OnPressAgreesWithResolve(c: char)
    ensures OnPress(CharKey(Some(c))).Play? <==> Resolve(c).Note?
    ensures Resolve(c).Note? ==> OnPress(CharKey(Some(c))) == Play(Resolve(c).name)
  {
  }

  /** Enter maps to the rest character, so nothing plays; other special keys and char-less keys are ignored. */
  lemma OnPressIgnoresNonNotes()
    ensures OnPress(SpecialKey(Enter)) == Nothing
    ensures OnPress(SpecialKey(OtherSpecial)) == Nothing
    ensures OnPress(CharKey(None)) == Nothing
    ensures OnPress(CharKey(Some('\r'))) == Nothing
  {
  }
}
