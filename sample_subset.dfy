/**
 * src/sample_subset.py: draw a seeded random sample of the audio files found
 * under the raw dataset directory and copy each into the flat subset
 * directory under its own file name.
 *
 * The draw is a parameter: the positions `random.sample` picked. The subset
 * directory is a map from file name to the source path whose content the
 * file holds.
 */
module SampleSubset {
  import opened Paths
  import opened Arith

  /** `k = min(100, max(50, len(candidates)//50))`. */
  function SubsetSize(n: nat): (k: nat)
    ensures 50 <= k <= 100
  {
    Min(100, Max(50, n / 50))
  }

  /** Fifty files until 2550 candidates, one in fifty up to 5000, then a
      hundred. */
  lemma SubsetSizeCases(n: nat)
    ensures n < 2550 ==> SubsetSize(n) == 50
    ensures 2550 <= n < 5000 ==> SubsetSize(n) == n / 50
    ensures 5000 <= n ==> SubsetSize(n) == 100
  {
  }

  /** More candidates never give a smaller sample. */
  lemma SubsetSizeMonotone(m: nat, n: nat)
    requires m <= n
    ensures SubsetSize(m) <= SubsetSize(n)
  {
    assert m / 50 <= n / 50;
  }

  /** The sample fits in the population exactly when there are at least
      fifty candidates. */
  lemma SampleFitsIff(n: nat)
    ensures SubsetSize(n) <= n <==> 50 <= n
  {
    SubsetSizeCases(n);
  }

  /** The positions `random.sample(candidates, k)` drew: `k` distinct
      positions of the population. */
  predicate IsDraw(picks: seq<nat>, n: nat, k: nat) {
    && |picks| == k
    && (forall i :: 0 <= i < |picks| ==> picks[i] < n)
    && (forall i, j :: 0 <= i < j < |picks| ==> picks[i] != picks[j])
  }

  function Drawn(candidates: seq<string>, picks: seq<nat>): (r: seq<string>)
    requires forall i :: 0 <= i < |picks| ==> picks[i] < |candidates|
    ensures |r| == |picks|
    ensures forall i :: 0 <= i < |r| ==> r[i] == candidates[picks[i]]
  {
    seq(|picks|, i requires 0 <= i < |picks| => candidates[picks[i]])
  }

  /** The subset directory after copying `sources` in order: each lands under
      its own file name, the later of two with one name replacing the other. */
  function CopyAll(dir: map<string, string>, sources: seq<string>): map<string, string> {
    if sources == [] then dir
    else
      var src := sources[|sources| - 1];
      CopyAll(dir, sources[..|sources| - 1])[Name(src) := src]
  }

  /** The copy loop. */
  method CopyFiles(dir: map<string, string>, sources: seq<string>) returns (subset: map<string, string>)
    ensures subset == CopyAll(dir, sources)
  {
    subset := dir;
    for i := 0 to |sources|
      invariant subset == CopyAll(dir, sources[..i])
    {
      assert sources[..i + 1][..i] == sources[..i];
      subset := subset[Name(sources[i]) := sources[i]];
    }
    assert sources[..|sources|] == sources;
  }

  datatype SampleRun =
    | NoCandidates(message: string)
    | SampleTooLarge(message: string)
    | Copied(count: nat, subset: map<string, string>)

  /** The script: collect the candidates, size and draw the sample, copy it,
      and report `len(subset)`, the number of files drawn. */
  method RunSampleSubset(entries: seq<string>, picks: seq<nat>, dir: map<string, string>) returns (run: SampleRun)
    requires var n := |AudioOnly(entries)|; SubsetSize(n) <= n ==> IsDraw(picks, n, SubsetSize(n))
    ensures var candidates := AudioOnly(entries);
      && (candidates == [] ==> run == NoCandidates("No audio files found under data/raw. Put Kaggle dataset there."))
      && (candidates != [] && |candidates| < SubsetSize(|candidates|) ==>
            run == SampleTooLarge("Sample larger than population or is negative"))
      && (SubsetSize(|candidates|) <= |candidates| ==>
            run == Copied(SubsetSize(|candidates|), CopyAll(dir, Drawn(candidates, picks))))
  {
    var candidates := AudioOnly(entries);
    if candidates == [] {
      return NoCandidates("No audio files found under data/raw. Put Kaggle dataset there.");
    }
    var k := SubsetSize(|candidates|);
    if |candidates| < k {
      return SampleTooLarge("Sample larger than population or is negative");
    }
    var sample := Drawn(candidates, picks);
    var subset := CopyFiles(dir, sample);
    return Copied(|sample|, subset);
  }

  /** A dataset of one to forty-nine recordings is never sampled: the size is
      still fifty and the draw refuses it. */
  lemma SmallDatasetRejected(entries: seq<string>)
    requires 0 < |AudioOnly(entries)| < 50
    ensures SubsetSize(|AudioOnly(entries)|) > |AudioOnly(entries)|
  {
    SampleFitsIff(|AudioOnly(entries)|);
  }

  /** The size the comment on the formula describes: 50 to 100, shrunk to the
      population when that is smaller. */
  function IntendedSubsetSize(n: nat): (k: nat)
    ensures k <= n
  {
    Min(n, SubsetSize(n))
  }

  /** The intended size always fits, takes everything below fifty, and
      agrees with the written formula from fifty on. */
  lemma IntendedSizeFits(n: nat)
    ensures IntendedSubsetSize(n) <= n
    ensures n < 50 ==> IntendedSubsetSize(n) == n
    ensures 50 <= n ==> IntendedSubsetSize(n) == SubsetSize(n)
  {
    SampleFitsIff(n);
  }

  /** The script with the intended size: a non-empty dataset is always
      sampled and copied. */
  method RunIntendedSampleSubset(entries: seq<string>, picks: seq<nat>, dir: map<string, string>) returns (run: SampleRun)
    requires var n := |AudioOnly(entries)|; IsDraw(picks, n, IntendedSubsetSize(n))
    ensures var candidates := AudioOnly(entries);
      && (candidates == [] ==> run == NoCandidates("No audio files found under data/raw. Put Kaggle dataset there."))
      && (candidates != [] ==>
            run == Copied(IntendedSubsetSize(|candidates|), CopyAll(dir, Drawn(candidates, picks))))
  {
    var candidates := AudioOnly(entries);
    if candidates == [] {
      return NoCandidates("No audio files found under data/raw. Put Kaggle dataset there.");
    }
    var sample := Drawn(candidates, picks);
    var subset := CopyFiles(dir, sample);
    return Copied(|sample|, subset);
  }

  /** The names the copied files land under. */
  function Names(sources: seq<string>): set<string> {
    if sources == [] then {}
    else Names(sources[..|sources| - 1]) + {Name(sources[|sources| - 1])}
  }

  /** The subset directory holds what it held plus one file per name copied. */
  lemma {:induction false} CopyAllKeys(dir: map<string, string>, sources: seq<string>)
    ensures CopyAll(dir, sources).Keys == dir.Keys + Names(sources)
  {
    if sources != [] {
      CopyAllKeys(dir, sources[..|sources| - 1]);
    }
  }

  /** When two drawn files share a name, the later copy is what remains. */
  lemma {:induction false} LastCopyWins(dir: map<string, string>, sources: seq<string>, i: nat)
    requires i < |sources|
    requires forall j :: i < j < |sources| ==> Name(sources[j]) != Name(sources[i])
    ensures Name(sources[i]) in CopyAll(dir, sources) && CopyAll(dir, sources)[Name(sources[i])] == sources[i]
  {
    var init := sources[..|sources| - 1];
    if i < |init| {
      assert init[i] == sources[i];
      forall j | i < j < |init| ensures Name(init[j]) != Name(init[i]) {
        assert init[j] == sources[j];
      }
      LastCopyWins(dir, init, i);
    }
  }

  /** At most one file per drawn recording is added. */
  lemma {:induction false} NamesBound(sources: seq<string>)
    ensures |Names(sources)| <= |sources|
  {
    if sources != [] {
      NamesBound(sources[..|sources| - 1]);
    }
  }

  /** Two drawn recordings with one file name leave fewer files than the
      `Copied {len(subset)} files` report counts. */
  lemma {:induction false} CollisionLosesFile(sources: seq<string>, i: nat, j: nat)
    requires i < j < |sources| && Name(sources[i]) == Name(sources[j])
    ensures |Names(sources)| < |sources|
  {
    var init := sources[..|sources| - 1];
    if j == |init| {
      NameListed(init, i);
      assert init[i] == sources[i];
      NamesBound(init);
      assert Names(sources) == Names(init);
    } else {
      assert init[i] == sources[i] && init[j] == sources[j];
      CollisionLosesFile(init, i, j);
    }
  }

  lemma {:induction false} NameListed(sources: seq<string>, i: nat)
    requires i < |sources|
    ensures Name(sources[i]) in Names(sources)
  {
    var init := sources[..|sources| - 1];
    if i < |init| {
      assert init[i] == sources[i];
      NameListed(init, i);
    }
  }
}
