/**
 * The output file name chosen in keyboard_piano.py's `main`: the typed name
 * is stripped, an empty name becomes the default, and ".wav" is appended
 * unless the name already ends with it (case-sensitively).
 */
module OutputName {

  const DefaultName: string := "song_output.wav"
  const Extension: string := ".wav"

  /** The characters Python's `str.isspace()` accepts, which `str.strip()` removes. */
  predicate IsSpace(c: char) {
    '\t' <= c <= '\r' || '\U{1C}' <= c <= ' ' || c == '\U{85}' || c == '\U{A0}'
    || c == '\U{1680}' || '\U{2000}' <= c <= '\U{200A}' || c == '\U{2028}' || c == '\U{2029}'
    || c == '\U{202F}' || c == '\U{205F}' || c == '\U{3000}'
  }

  predicate EndsWith(s: string, suffix: string) {
    |suffix| <= |s| && s[|s| - |suffix|..] == suffix
  }

  /** Drops leading whitespace. */
  function TrimStart(s: string): (r: string)
    ensures |r| <= |s| && r == s[|s| - |r|..]
    ensures r == [] || !IsSpace(r[0])
    ensures forall k :: 0 <= k < |s| - |r| ==> IsSpace(s[k])
  {
    if s != [] && IsSpace(s[0]) then
      var r := TrimStart(s[1..]);
      assert s[1..][|s| - 1 - |r|..] == s[|s| - |r|..];
      assert forall k :: 1 <= k < |s| - |r| ==> s[k] == s[1..][k - 1];
      r
    else s
  }

  /** Drops trailing whitespace. */
  function TrimEnd(s: string): (r: string)
    ensures |r| <= |s| && r == s[..|r|]
    ensures r == [] || !IsSpace(r[|r| - 1])
    ensures forall k :: |r| <= k < |s| ==> IsSpace(s[k])
  {
    if s != [] && IsSpace(s[|s| - 1]) then
      var r := TrimEnd(s[..|s| - 1]);
      assert s[..|s| - 1][..|r|] == s[..|r|];
      assert forall k :: |r| <= k < |s| - 1 ==> s[k] == s[..|s| - 1][k];
      r
    else s
  }

  /** `r` occurs in `s` at `i` with nothing but whitespace before and after it. */
  predicate PaddedAt(s: string, r: string, i: int) {
    0 <= i <= |s| - |r| && r <= s[i..]
    && (forall k :: 0 <= k < i ==> IsSpace(s[k]))
    && (forall k :: i + |r| <= k < |s| ==> IsSpace(s[k]))
  }

  /** `str.strip()`. */
  function Strip(s: string): (r: string)
    ensures r == [] || (!IsSpace(r[0]) && !IsSpace(r[|r| - 1]))
    ensures |r| <= |s|
    ensures exists i :: PaddedAt(s, r, i)
  {
    var i := |s| - |TrimStart(s)|;
    TrimBothEnds(s);
    assert PaddedAt(s, TrimEnd(TrimStart(s)), i);
    TrimEnd(TrimStart(s))
  }

  /** Trimming both ends keeps a piece of the input surrounded by whitespace only. */
  lemma TrimBothEnds(s: string)
    ensures PaddedAt(s, TrimEnd(TrimStart(s)), |s| - |TrimStart(s)|)
  {
    var left := TrimStart(s);
    var r := TrimEnd(left);
    var i := |s| - |left|;
    assert s[i..] == left;
    forall k | i + |r| <= k < |s|
      ensures IsSpace(s[k])
    {
      assert s[k] == left[k - i];
    }
    assert r <= s[i..];
  }

  /** A string without whitespace at either end is its own strip. */
  lemma StripUnchanged(s: string)
    requires s == [] || (!IsSpace(s[0]) && !IsSpace(s[|s| - 1]))
    ensures Strip(s) == s
  {
  }

  /** The file name `main` passes on to the renderer, from the typed line. */
  function NormalizeFilename(typed: string): (r: string)
    ensures EndsWith(r, Extension)
    ensures Strip(typed) == [] ==> r == DefaultName
    ensures Strip(typed) != [] ==> Strip(typed) <= r && |r| <= |Strip(typed)| + |Extension|
    ensures Strip(typed) != [] ==> (r == Strip(typed) <==> EndsWith(Strip(typed), Extension))
  {
    var stripped := Strip(typed);
    var name := if stripped == [] then DefaultName else stripped;
    DefaultHasExtension();
    if EndsWith(name, Extension) then name
    else
      assert (name + Extension)[|name|..] == Extension;
      name + Extension
  }

  /** Normalising an already normalised name changes nothing. */
  lemma NormalizeIdempotent(typed: string)
    ensures NormalizeFilename(NormalizeFilename(typed)) == NormalizeFilename(typed)
  {
    var r := NormalizeFilename(typed);
    var name := Strip(typed);
    assert r[|r| - 1] == 'v';
    assert r[0] == (if name == [] then 's' else name[0]);
    StripUnchanged(r);
  }

  /** A stripped name that already ends in ".wav" is kept as it is. */
  lemma NormalizeKeepsWavName(name: string)
    requires EndsWith(name, Extension) && !IsSpace(name[0])
    ensures NormalizeFilename(name) == name
  {
    assert name[|name| - 1] == 'v';
    StripUnchanged(name);
  }

  /** The default name already carries the extension. */
  lemma DefaultHasExtension()
    ensures EndsWith(DefaultName, Extension)
  {
    assert DefaultName[|DefaultName| - |Extension|..] == Extension;
  }

  /** A line of whitespace only, the empty line included, strips to nothing. */
  lemma {:induction false} StripBlank(typed: string)
    requires forall k :: 0 <= k < |typed| ==> IsSpace(typed[k])
    ensures Strip(typed) == []
  {
  }

  /** An empty or blank line gives the default name. */
  lemma NormalizeEmpty(typed: string)
    requires forall k :: 0 <= k < |typed| ==> IsSpace(typed[k])
    ensures NormalizeFilename(typed) == "song_output.wav"
  {
    StripBlank(typed);
    DefaultHasExtension();
  }

  /** A non-blank name without the extension gets it appended after stripping. */
  lemma NormalizeAppends(typed: string, name: string)
    requires Strip(typed) == name && name != [] && !EndsWith(name, Extension)
    ensures NormalizeFilename(typed) == name + Extension
  {
  }

  /** The extension test is case-sensitive. */
  lemma NormalizeCaseSensitive()
    ensures NormalizeFilename("x.WAV") == "x.WAV.wav"
  {
    var name := "x.WAV";
    assert Strip(name) == name by {
      assert !IsSpace(name[0]) && !IsSpace(name[4]);
      StripUnchanged(name);
    }
    assert !EndsWith(name, Extension) by {
      assert name[|name| - |Extension|..][1] == 'W' != Extension[1];
    }
    NormalizeAppends(name, name);
  }
}
