/**
 * piano.py: the character-to-key-code table, the per-character schedule of
 * `play_sequence` with its abort on a quit or Escape event, and the
 * interactive `while running` loop. Key codes are pygame's (SDL) codes:
 * a letter key's code is the code of its lower-case letter.
 */
module Piano {
  import opened Wrappers

  const KeyReturn: int := 13
  const KeyEscape: int := 27

  /** Key code to tone frequency in Hz. */
  const KeyFreqMap: map<int, real> := map[
    'a' as int := 261.63, 's' as int := 293.66, 'd' as int := 329.63,
    'f' as int := 349.23, 'g' as int := 392.00, 'h' as int := 440.00,
    'j' as int := 493.88, 'k' as int := 523.25, 'l' as int := 587.33,
    ';' as int := 659.25, '\'' as int := 698.46,
    KeyReturn := 783.99,
    'w' as int := 277.18, 'e' as int := 311.13, 't' as int := 369.99,
    'y' as int := 415.30, 'u' as int := 466.16, 'o' as int := 554.37,
    'p' as int := 622.25, '[' as int := 739.99, ']' as int := 783.99
  ]

  /** The keys of `sounds`: one synthesized tone per entry of KeyFreqMap. */
  const Sounds: set<int> := KeyFreqMap.Keys

  /** The `char_map` of `char_to_key`: script character to key code. */
  const CharMap: map<char, int> := map[
    'D' := 'd' as int, 'F' := 'f' as int, 'G' := 'g' as int, 'H' := 'h' as int,
    'T' := 't' as int, 'K' := 'k' as int, ';' := ';' as int, 'L' := 'l' as int,
    'J' := 'j' as int, 'Y' := 'y' as int, 'U' := 'u' as int, '\'' := '\'' as int,
    '\r' := KeyReturn
  ]

  /**
   * `str.isalpha()` restricted to ASCII: no other alphabetic character
   * upper-cases to a key of CharMap, so lookups cannot tell the difference.
   */
  predicate IsAlpha(c: char) {
    'a' <= c <= 'z' || 'A' <= c <= 'Z'
  }

  function Upper(c: char): char {
    if 'a' <= c <= 'z' then (c as int - 32) as char else c
  }

  /** `char_to_key`: letters are upper-cased, other characters are looked up as they are. */
  function CharToKey(c: char): (r: Option<int>)
    ensures r.Some? <==> c in "DdFfGgHhTtKkLlJjYyUu;'\r"
    ensures r.Some? ==> r.value == (if 'A' <= c <= 'Z' then c as int + 32 else c as int)
    ensures r.Some? ==> r.value in Sounds && r.value != 0
  {
    var k := if IsAlpha(c) then Upper(c) else c;
    if k in CharMap then Some(CharMap[k]) else None
  }

  /** 'd' and 'D' (and every other letter pair) give the same key code. */
  lemma CharToKeyIgnoresCase(c: char)
    requires 'a' <= c <= 'z'
    ensures CharToKey(c) == CharToKey((c as int - 32) as char)
  {
  }

  /** The Enter character has a key code with a sound: the 783.99 Hz tone. */
  lemma ReturnHasSound()
    ensures CharToKey('\r') == Some(KeyReturn)
    ensures KeyReturn in Sounds && KeyFreqMap[KeyReturn] == 783.99
  {
  }

  /** One entry of a playback schedule. */
  datatype Action = PlaySound(key: int) | Sleep(ms: nat)

  const NoteDurationMs: nat := 300
  const SpacePauseMs: nat := 100
  const NewlinePauseMs: nat := 200

  /**
   * The intended per-character schedule of `play_sequence`, once no abort
   * event was seen: a space pauses 100 ms, a newline 200 ms, a character
   * with a key code plays that key's sound and pauses for a note, and any
   * other character does nothing.
   */
  function CharSteps(c: char): (r: seq<Action>)
    ensures r == [] <==> c != ' ' && c != '\n' && CharToKey(c).None?
    ensures forall k :: 0 <= k < |r| && r[k].PlaySound? ==> r[k].key in Sounds
  {
    if c == ' ' then [Sleep(SpacePauseMs)]
    else if c == '\n' then [Sleep(NewlinePauseMs)]
    else if CharToKey(c).Some? then [PlaySound(CharToKey(c).value), Sleep(NoteDurationMs)]
    else []
  }

  /** The schedule of a whole string, character after character. */
  function Steps(s: string): seq<Action> {
    if s == [] then [] else Steps(s[..|s| - 1]) + CharSteps(s[|s| - 1])
  }

  /** Total sleeping time of a schedule, in milliseconds. */
  function SleepMs(schedule: seq<Action>): nat {
    if schedule == [] then 0
    else SleepMs(schedule[..|schedule| - 1]) + (match schedule[|schedule| - 1] case Sleep(ms) => ms case PlaySound(_) => 0)
  }

  /** Characters of s that have a key code. */
  function KeyedCount(s: string): nat {
    if s == [] then 0 else KeyedCount(s[..|s| - 1]) + (if CharToKey(s[|s| - 1]).Some? then 1 else 0)
  }

  lemma {:induction false} SleepMsAppend(a: seq<Action>, b: seq<Action>)
    ensures SleepMs(a + b) == SleepMs(a) + SleepMs(b)
  {
    if b != [] {
      assert (a + b)[..|a + b| - 1] == a + b[..|b| - 1];
      SleepMsAppend(a, b[..|b| - 1]);
    } else {
      assert a + b == a;
    }
  }

  lemma CharSleepMs(c: char)
    ensures SleepMs(CharSteps(c))
         == (if CharToKey(c).Some? then 300 else 0) + (if c == ' ' then 100 else 0) + (if c == '\n' then 200 else 0)
  {
    var steps := CharSteps(c);
    if c == ' ' || c == '\n' {
      assert CharToKey(c).None?;
      var pause := Sleep(if c == ' ' then 100 else 200);
      assert steps == [pause] && [pause][..0] == [];
    } else if CharToKey(c).Some? {
      var play := PlaySound(CharToKey(c).value);
      assert steps == [play, Sleep(300)];
      assert [play, Sleep(300)][..1] == [play];
      assert [play][..0] == [];
    } else {
      assert steps == [];
    }
  }

  /**
   * Playback time of a whole string: 300 ms per character with a key code,
   * 100 ms per space, 200 ms per newline, nothing for anything else.
   */
  lemma {:induction false} StepsDuration(s: string)
    ensures SleepMs(Steps(s)) == 300 * KeyedCount(s) + 100 * multiset(s)[' '] + 200 * multiset(s)['\n']
  {
    if s != [] {
      var t, c := s[..|s| - 1], s[|s| - 1];
      StepsDuration(t);
      assert s == t + [c];
      assert multiset(s) == multiset(t) + multiset{c};
      assert multiset(s)[' '] == multiset(t)[' '] + (if c == ' ' then 1 else 0);
      assert multiset(s)['\n'] == multiset(t)['\n'] + (if c == '\n' then 1 else 0);
      assert KeyedCount(s) == KeyedCount(t) + (if CharToKey(c).Some? then 1 else 0);
      SleepMsAppend(Steps(t), CharSteps(c));
      CharSleepMs(c);
    }
  }

  /** A polled event. */
  datatype Event = Quit | KeyDown(key: int) | OtherEvent

  /** The events that end playback or the interactive loop: window close or Escape. */
  predicate IsExit(e: Event) {
    e.Quit? || (e.KeyDown? && e.key == KeyEscape)
  }

  predicate HasExit(batch: seq<Event>) {
    exists k :: 0 <= k < |batch| && IsExit(batch[k])
  }

  /** The batch `pygame.event.get()` returns at poll i; a poll past the given ones finds nothing. */
  function Poll(polls: seq<seq<Event>>, i: nat): seq<Event> {
    if i < |polls| then polls[i] else []
  }

  /**
   * The if/elif dispatch of `play_sequence` for one character, Enter branch
   * included. Its result is CharSteps: the silent rest for a key code
   * without a sound is never produced, because every key code has a sound.
   */
  method PlayChar(c: char) returns (steps: seq<Action>)
    ensures steps == CharSteps(c)
  {
    steps := [];
    if c == ' ' {
      steps := [Sleep(SpacePauseMs)];
    } else if c == '\n' {
      steps := [Sleep(NewlinePauseMs)];
    } else {
      var key := CharToKey(c);
      if key.Some? && key.value != 0 && key.value in Sounds {
        steps := [PlaySound(key.value), Sleep(NoteDurationMs)];
      } else if key == Some(KeyReturn) {
        steps := [Sleep(NoteDurationMs)];
      }
    }
  }

  /**
   * `play_sequence`: before each character, one batch of events is polled;
   * an exit event ends playback with False before that character.
   */
  method PlaySequence(song: string, polls: seq<seq<Event>>)
    returns (finished: bool, played: nat, schedule: seq<Action>)
    ensures played <= |song|
    ensures schedule == Steps(song[..played])
    ensures forall j :: 0 <= j < played ==> !HasExit(Poll(polls, j))
    ensures finished <==> played == |song|
    ensures !finished ==> HasExit(Poll(polls, played))
  {
    schedule := [];
    played := 0;
    while played < |song|
      invariant played <= |song|
      invariant schedule == Steps(song[..played])
      invariant forall j :: 0 <= j < played ==> !HasExit(Poll(polls, j))
    {
      var batch := Poll(polls, played);
      for k := 0 to |batch|
        invariant forall m :: 0 <= m < k ==> !IsExit(batch[m])
      {
        var event := batch[k];
        if event.Quit? {
          return false, played, schedule;
        } else if event.KeyDown? {
          if event.key == KeyEscape {
            return false, played, schedule;
          }
        }
      }
      var steps := PlayChar(song[played]);
      schedule := schedule + steps;
      assert song[..played + 1][..played] == song[..played];
      played := played + 1;
    }
    finished := true;
  }

  /** The sound a key event plays in the interactive loop, if any. */
  function EventPlays(e: Event): seq<int> {
    if e.KeyDown? && e.key != KeyEscape && e.key in Sounds then [e.key] else []
  }

  /** Sounds one batch plays: every event is handled, also those after an exit event. */
  function BatchPlays(batch: seq<Event>): (r: seq<int>)
    ensures forall k :: 0 <= k < |r| ==> r[k] in Sounds
  {
    if batch == [] then [] else BatchPlays(batch[..|batch| - 1]) + EventPlays(batch[|batch| - 1])
  }

  /** Sounds a run of batches plays, in order. */
  function AllPlays(batches: seq<seq<Event>>): seq<int> {
    if batches == [] then [] else AllPlays(batches[..|batches| - 1]) + BatchPlays(batches[|batches| - 1])
  }

  /**
   * The body of the `while running` loop: handles every event of one batch
   * in order. An exit event only clears the flag; later events of the same
   * batch still play.
   */
  method HandleBatch(batch: seq<Event>) returns (plays: seq<int>, running: bool)
    ensures plays == BatchPlays(batch)
    ensures running <==> !HasExit(batch)
  {
    plays, running := [], true;
    for k := 0 to |batch|
      invariant plays == BatchPlays(batch[..k])
      invariant running <==> !HasExit(batch[..k])
    {
      var event := batch[k];
      if event.Quit? {
        running := false;
      } else if event.KeyDown? {
        if event.key == KeyEscape {
          running := false;
        } else if event.key in Sounds {
          plays := plays + [event.key];
        }
      }
      assert batch[..k + 1][..k] == batch[..k];
    }
    assert batch[..|batch|] == batch;
  }

  /**
   * The `while running` loop over the given batches; the loop ends at the
   * first check of the flag after a batch with an exit event. `consumed`
   * counts the batches polled.
   */
  method InteractiveLoop(batches: seq<seq<Event>>) returns (plays: seq<int>, consumed: nat, running: bool)
    ensures consumed <= |batches|
    ensures plays == AllPlays(batches[..consumed])
    ensures forall j :: 0 <= j < consumed - 1 ==> !HasExit(batches[j])
    ensures running <==> consumed == 0 || !HasExit(batches[consumed - 1])
    ensures running ==> consumed == |batches|
  {
    plays, consumed, running := [], 0, true;
    while running && consumed < |batches|
      invariant consumed <= |batches|
      invariant plays == AllPlays(batches[..consumed])
      invariant forall j :: 0 <= j < consumed - 1 ==> !HasExit(batches[j])
      invariant running <==> consumed == 0 || !HasExit(batches[consumed - 1])
    {
      var batchPlays;
      batchPlays, running := HandleBatch(batches[consumed]);
      plays := plays + batchPlays;
      assert batches[..consumed + 1][..consumed] == batches[..consumed];
      consumed := consumed + 1;
    }
  }

  lemma {:induction false} BatchPlaysAppend(b1: seq<Event>, b2: seq<Event>)
    ensures BatchPlays(b1 + b2) == BatchPlays(b1) + BatchPlays(b2)
  {
    if b2 != [] {
      assert (b1 + b2)[..|b1 + b2| - 1] == b1 + b2[..|b2| - 1];
      BatchPlaysAppend(b1, b2[..|b2| - 1]);
    } else {
      assert b1 + b2 == b1;
    }
  }

  /**
   * An exit event does not break out of the batch: the events after it
   * are still handled, and the batch counts as one that ends the loop.
   */
  lemma ExitDoesNotBreak(b1: seq<Event>, e: Event, b2: seq<Event>)
    requires IsExit(e)
    ensures BatchPlays(b1 + [e] + b2) == BatchPlays(b1) + BatchPlays(b2)
    ensures HasExit(b1 + [e] + b2)
  {
    BatchPlaysAppend(b1 + [e], b2);
    assert (b1 + [e])[..|b1|] == b1;
    assert BatchPlays(b1 + [e]) == BatchPlays(b1);
    assert (b1 + [e] + b2)[|b1|] == e;
  }

  lemma HasExitAppend(b1: seq<Event>, b2: seq<Event>)
    ensures HasExit(b1 + b2) <==> HasExit(b1) || HasExit(b2)
  {
    var both := b1 + b2;
    if HasExit(both) {
      var k :| 0 <= k < |both| && IsExit(both[k]);
      if k < |b1| {
        assert IsExit(b1[k]);
      } else {
        assert IsExit(b2[k - |b1|]);
      }
    }
    if HasExit(b1) {
      var k :| 0 <= k < |b1| && IsExit(b1[k]);
      assert both[k] == b1[k];
    }
    if HasExit(b2) {
      var k :| 0 <= k < |b2| && IsExit(b2[k]);
      assert both[|b1| + k] == b2[k];
    }
  }

  /** A key press that is neither Escape nor a key with a sound changes nothing. */
  lemma UnknownKeyIgnored(b1: seq<Event>, key: int, b2: seq<Event>)
    requires key != KeyEscape && key !in Sounds
    ensures BatchPlays(b1 + [KeyDown(key)] + b2) == BatchPlays(b1 + b2)
    ensures HasExit(b1 + [KeyDown(key)] + b2) <==> HasExit(b1 + b2)
  {
    var e := KeyDown(key);
    BatchPlaysAppend(b1 + [e], b2);
    BatchPlaysAppend(b1, b2);
    assert (b1 + [e])[..|b1|] == b1;
    assert BatchPlays(b1 + [e]) == BatchPlays(b1);
    HasExitAppend(b1 + [e], b2);
    HasExitAppend(b1, [e]);
    HasExitAppend(b1, b2);
    assert !HasExit([e]);
  }
}
