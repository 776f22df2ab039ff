/**
 The on-disk name of a downloaded track: `music/<video id><5 random letters>.mp3`.
 The random suffix is built from five draws out of `string.ascii_letters`; the
 draws themselves are inputs here, since randomness is outside the model.
 */
module TrackPath {

  import opened Wrappers

  /** Python's `string.ascii_letters`. */
  const AsciiLetters: string := "abcdefghijklmnopqrstuvwxyzABCDEFGHIJKLMNOPQRSTUVWXYZ"

  /** Directory prefix and extension of every downloaded track. */
  const MusicDir: string := "music/"
  const Extension: string := ".mp3"

  /** Length of the random suffix. */
  const SuffixLength: nat := 5

  /** A suffix the source can generate: exactly five characters of `ascii_letters`. */
  predicate IsSuffix(a: string) {
    |a| == SuffixLength && forall i :: 0 <= i < |a| ==> a[i] in AsciiLetters
  }

  /**
   The loop building `atext`: iteration `i` appends `ascii_letters[picks[i]]`,
   where `picks[i]` is the index `random.choice` happened to draw.
   */
  method RandomSuffix(picks: seq<nat>) returns (atext: string)
    requires |picks| == SuffixLength
    requires forall i :: 0 <= i < |picks| ==> picks[i] < |AsciiLetters|
    ensures IsSuffix(atext)
    ensures forall i :: 0 <= i < SuffixLength ==> atext[i] == AsciiLetters[picks[i]]
  {
    atext := "";
    for i := 0 to SuffixLength
      invariant |atext| == i
      invariant forall j :: 0 <= j < i ==> atext[j] == AsciiLetters[picks[j]]
    {
      atext := atext + [AsciiLetters[picks[i]]];
    }
  }

  /** The file path the download is saved under. */
  function MakePath(videoId: string, suffix: string): (p: string)
    ensures |p| == |MusicDir| + |videoId| + |suffix| + |Extension|
    ensures p[..|MusicDir|] == MusicDir && p[|p| - |Extension|..] == Extension
    ensures p != []
  {
    MusicDir + videoId + suffix + Extension
  }

  /**
   Splits a track path back into its video id and suffix; `None` for any
   string that is not of the shape `MakePath` produces with a valid suffix.
   */
  function ParsePath(p: string): (r: Option<(string, string)>)
    ensures r.Some? ==> IsSuffix(r.value.1)
  {
    var fixed := |MusicDir| + SuffixLength + |Extension|;
    if |p| < fixed then None
    else
      var suffixStart := |p| - |Extension| - SuffixLength;
      var suffix := p[suffixStart..|p| - |Extension|];
      if p[..|MusicDir|] == MusicDir && p[|p| - |Extension|..] == Extension && IsSuffix(suffix)
      then Some((p[|MusicDir|..suffixStart], suffix))
      else None
  }

  /** Parsing recovers the video id and suffix a path was made from. */
  lemma ParseMakePath(videoId: string, suffix: string)
    requires IsSuffix(suffix)
    ensures ParsePath(MakePath(videoId, suffix)) == Some((videoId, suffix))
  {
    var p := MakePath(videoId, suffix);
    var suffixStart := |p| - |Extension| - SuffixLength;
    assert p[suffixStart..|p| - |Extension|] == suffix;
    assert p[|MusicDir|..suffixStart] == videoId;
  }

  /** Every path that parses is exactly the path made from its parts. */
  lemma MakeParsePath(p: string)
    requires ParsePath(p).Some?
    ensures MakePath(ParsePath(p).value.0, ParsePath(p).value.1) == p
  {
    var suffixStart := |p| - |Extension| - SuffixLength;
    assert p == p[..|MusicDir|] + p[|MusicDir|..suffixStart] + p[suffixStart..|p| - |Extension|] + p[|p| - |Extension|..];
  }

  /** Two downloads share a file exactly when both the video id and the suffix agree. */
  lemma MakePathInjective(id1: string, s1: string, id2: string, s2: string)
    requires IsSuffix(s1) && IsSuffix(s2)
    ensures MakePath(id1, s1) == MakePath(id2, s2) <==> id1 == id2 && s1 == s2
  {
    if MakePath(id1, s1) == MakePath(id2, s2) {
      ParseMakePath(id1, s1);
      ParseMakePath(id2, s2);
    }
  }
}
