/**
 * The parts of `pathlib` the scripts use on POSIX paths: `name`, `suffix`,
 * `stem`, and the audio-suffix filter shared by the four scripts.
 */
module Paths {
  import opened Wrappers
  import opened Text

  /** `{".wav", ".mp3", ".flac"}`, spelled out in src/batch_pipeline.py,
      src/test_many.py (as `AUDIO_EXTS`) and src/sample_subset.py. */
  const AudioExts: set<string> := {".wav", ".mp3", ".flac"}

  /** `PurePosixPath(path).name`: the text after the last `/`. */
  function Name(path: string): string {
    match FindLast(path, '/')
    case None => path
    case Some(i) => path[i + 1..]
  }

  /** The name is the final component: it ends the path and holds no `/`. */
  lemma NameIsLastComponent(path: string)
    ensures '/' !in Name(path)
    ensures EndsWith(path, Name(path))
    ensures '/' in path ==> path[|path| - |Name(path)| - 1] == '/'
  {
  }

  /** `PurePath.suffix`: from the last dot on, when that dot is neither the
      first nor the last character of the name; otherwise empty. */
  function Suffix(name: string): string {
    match FindLast(name, '.')
    case Some(i) => if 0 < i < |name| - 1 then name[i..] else ""
    case None => ""
  }

  /** `PurePath.stem`: the name without its suffix. */
  function Stem(name: string): string {
    match FindLast(name, '.')
    case Some(i) => if 0 < i < |name| - 1 then name[..i] else name
    case None => name
  }

  lemma StemSuffixSplit(name: string)
    ensures Stem(name) + Suffix(name) == name
    ensures Suffix(name) == "" || (Suffix(name)[0] == '.' && '.' !in Suffix(name)[1..] && |Suffix(name)| >= 2)
    ensures Suffix(name) != "" ==> Stem(name) != ""
  {
    match FindLast(name, '.')
    case Some(i) =>
      if 0 < i < |name| - 1 {
        assert name[..i] + name[i..] == name;
        var rest := name[i + 1..];
        assert forall j :: 0 <= j < |rest| ==> rest[j] == name[i + 1 + j];
      }
    case None =>
  }

  /** `p.suffix.lower() in {".wav", ".mp3", ".flac"}`. */
  predicate IsAudio(path: string) {
    LowerAscii(Suffix(Name(path))) in AudioExts
  }

  /** An accepted file has a non-empty stem followed by one of the three
      extensions in any letter case; a bare `.wav` (a hidden file) is not one. */
  lemma AudioNameShape(path: string)
    requires IsAudio(path)
    ensures Stem(Name(path)) != ""
    ensures Name(path) == Stem(Name(path)) + Suffix(Name(path))
    ensures |Suffix(Name(path))| in {4, 5}
  {
    StemSuffixSplit(Name(path));
  }

  /** `[p for p in entries if p.suffix.lower() in AUDIO_EXTS]`. */
  function AudioOnly(entries: seq<string>): (r: seq<string>)
    ensures forall p :: p in r <==> p in entries && IsAudio(p)
    ensures forall p :: multiset(r)[p] == if IsAudio(p) then multiset(entries)[p] else 0
    ensures |r| <= |entries|
  {
    if entries == [] then []
    else
      assert entries == [entries[0]] + entries[1..];
      (if IsAudio(entries[0]) then [entries[0]] else []) + AudioOnly(entries[1..])
  }

  /** The filter keeps the listing's order: filtering a concatenation is
      concatenating the filtered parts. */
  lemma {:induction false} AudioOnlyAppend(a: seq<string>, b: seq<string>)
    ensures AudioOnly(a + b) == AudioOnly(a) + AudioOnly(b)
    decreases |a|
  {
    if a == [] {
      assert a + b == b;
    } else {
      var x, t := a[0], a[1..];
      assert a == [x] + t;
      assert a + b == [x] + (t + b);
      var h := if IsAudio(x) then [x] else [];
      calc {
        AudioOnly(a + b);
        { AudioOnlyCons(x, t + b); }
        h + AudioOnly(t + b);
        { AudioOnlyAppend(t, b); }
        h + (AudioOnly(t) + AudioOnly(b));
        { ConcatAssoc(h, AudioOnly(t), AudioOnly(b)); }
        (h + AudioOnly(t)) + AudioOnly(b);
        { AudioOnlyCons(x, t); }
        AudioOnly(a) + AudioOnly(b);
      }
    }
  }

  lemma ConcatAssoc(x: seq<string>, y: seq<string>, z: seq<string>)
    ensures x + (y + z) == (x + y) + z
  {
  }

  /** Filtering one entry in front of a listing. */
  lemma AudioOnlyCons(x: string, s: seq<string>)
    ensures AudioOnly([x] + s) == (if IsAudio(x) then [x] else []) + AudioOnly(s)
  {
    assert ([x] + s)[0] == x && ([x] + s)[1..] == s;
  }

  /** One entry is kept exactly when it is an audio file. */
  lemma AudioOnlySingle(p: string)
    ensures AudioOnly([p]) == if IsAudio(p) then [p] else []
  {
    assert [p][1..] == [];
  }

  lemma UpperCaseAccepted()
    ensures IsAudio("a.WAV")
  {
    assert FindLast("a.WAV", '/') == None;
    assert FindLast("a.WAV", '.') == Some(1);
    assert LowerAscii(".WAV") == ".wav";
  }

  lemma NestedPathAccepted()
    ensures IsAudio("x.y/a.mp3")
  {
    assert FindLast("x.y/a.mp3", '/') == Some(3);
    assert FindLast("a.mp3", '.') == Some(1);
    assert LowerAscii(".mp3") == ".mp3";
  }

  lemma HiddenFileRejected()
    ensures !IsAudio(".wav")
  {
    assert FindLast(".wav", '/') == None;
    assert FindLast(".wav", '.') == Some(0);
  }

  lemma DoubleSuffixRejected()
    ensures !IsAudio("a.wav.x")
  {
    assert FindLast("a.wav.x", '/') == None;
    assert FindLast("a.wav.x", '.') == Some(5);
    assert LowerAscii(".x") == ".x";
  }
}
