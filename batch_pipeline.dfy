/**
 * `main` of src/batch_pipeline.py: transcribe and structure every audio file
 * of the subset directory in name order, append one JSON line per success to
 * the results log, and leave one output file per recording.
 *
 * The speech and language services are parameters (`Records.Services`).
 * The results log is the sequence of records it holds, the output
 * directory a map from file name to what the file contains.
 */
module BatchPipeline {
  import opened Wrappers
  import opened Ordering
  import opened Json
  import opened Paths
  import opened Records
  import opened Transcription
  import opened Structurize

  /** The audio files of a directory listing, in the order they are processed. */
  function AudioFiles(listing: seq<string>): (r: seq<string>)
    ensures Sorted(r)
    ensures multiset(r) == multiset(AudioOnly(listing))
  {
    Sort(AudioOnly(listing))
  }

  /** The processing order is the only sorted arrangement of the audio files:
      whatever order the directory lists them in, they are taken the same way. */
  lemma AudioFilesUnique(listing: seq<string>, order: seq<string>)
    requires Sorted(order)
    requires multiset(order) == multiset(AudioOnly(listing))
    ensures order == AudioFiles(listing)
  {
    SortedPermutationUnique(order, AudioFiles(listing));
  }

  /** Audio files listed as `b.wav`, `c.mp3`, `a.wav` are processed as
      `a.wav`, `b.wav`, `c.mp3`. */
  lemma ProcessingOrderExample(listing: seq<string>)
    requires AudioOnly(listing) == ["b.wav", "c.mp3", "a.wav"]
    ensures AudioFiles(listing) == ["a.wav", "b.wav", "c.mp3"]
  {
    SortExample();
  }

  lemma SortExample()
    ensures Sort(["b.wav", "c.mp3", "a.wav"]) == ["a.wav", "b.wav", "c.mp3"]
  {
    ExampleSorted();
    ExampleSameFiles();
    SortedPermutationUnique(["a.wav", "b.wav", "c.mp3"], Sort(["b.wav", "c.mp3", "a.wav"]));
  }

  lemma ExampleSorted()
    ensures Sorted(["a.wav", "b.wav", "c.mp3"])
  {
    ExampleOrder();
  }

  lemma ExampleOrder()
    ensures LexLe("a.wav", "b.wav") && LexLe("b.wav", "c.mp3") && LexLe("a.wav", "c.mp3")
  {
  }

  lemma ExampleSameFiles()
    ensures multiset(["a.wav", "b.wav", "c.mp3"]) == multiset(["b.wav", "c.mp3", "a.wav"])
  {
  }

  /** What became of one recording, with the stem its output file is named
      after. */
  datatype Outcome = Succeeded(stem: string, record: Record) | Failed(stem: string, message: string)

  /** One pass of the loop body, from what the two stages produced: both
      share one `try`, so a failure in either ends the recording with the
      exception's text, and only a success builds a record. */
  function Combine(path: string, heard: Result<string, string>, extracted: Result<Extraction, ExtractError>): (o: Outcome)
    ensures o.stem == Stem(Name(path))
    ensures o.Succeeded? <==> heard.Ok? && extracted.Ok?
    ensures o.Succeeded? ==>
      o.record == Record(Name(path), heard.value, extracted.value.bullets, extracted.value.structured)
    ensures heard.Err? ==> o.message == heard.error
    ensures heard.Ok? && extracted.Err? ==> o.message == ErrorMessage(extracted.error)
  {
    match heard
    case Err(m) => Failed(Stem(Name(path)), m)
    case Ok(transcript) =>
      match extracted
      case Err(e) => Failed(Stem(Name(path)), ErrorMessage(e))
      case Ok(x) => Succeeded(Stem(Name(path)), Record(Name(path), transcript, x.bullets, x.structured))
  }

  /** What became of the recording at `path`. */
  function Process(path: string, svc: Services): Outcome {
    Combine(path, TranscribeFile(svc.recognize(path)), Extract(svc.reply(path)))
  }

  /** The outcome of every recording under the given services. */
  function Outcomes(svc: Services): string -> Outcome {
    path => Process(path, svc)
  }

  /** `<stem>.json` after a success, `<stem>.error.txt` after a failure. */
  function OutputName(o: Outcome): string {
    o.stem + if o.Succeeded? then ".json" else ".error.txt"
  }

  function OutputOf(o: Outcome): Artifact {
    match o
    case Succeeded(_, r) => Snapshot(r)
    case Failed(_, m) => ErrorText(m)
  }

  /** The counters, the results log and the output directory. */
  datatype Progress = Progress(nOk: nat, nFail: nat, log: seq<Record>, out: map<string, Artifact>)

  /** The effect of one recording: a success appends its record to the log
      and writes its snapshot, a failure writes its error report. */
  function Advance(p: Progress, o: Outcome): Progress {
    match o
    case Succeeded(_, r) => Progress(p.nOk + 1, p.nFail, p.log + [r], p.out[OutputName(o) := Snapshot(r)])
    case Failed(_, m) => Progress(p.nOk, p.nFail + 1, p.log, p.out[OutputName(o) := ErrorText(m)])
  }

  /** The state after processing `files` in order from `p`, when recording
      `path` ends as `outcome(path)`. */
  function After(p: Progress, files: seq<string>, outcome: string -> Outcome): Progress {
    if files == [] then p
    else Advance(After(p, files[..|files| - 1], outcome), outcome(files[|files| - 1]))
  }

  lemma Step(p: Progress, files: seq<string>, outcome: string -> Outcome, i: nat)
    requires i < |files|
    ensures After(p, files[..i + 1], outcome) == Advance(After(p, files[..i], outcome), outcome(files[i]))
  {
    assert files[..i + 1][..i] == files[..i];
  }

  datatype BatchRun =
    | ConfigRejected(message: string)
    | NoAudio(message: string)
    | Finished(result: Progress)

  /** Importing the structuring module checks its configuration first; then
      the listing of `audioDir` is filtered, sorted and processed, starting
      from the results log `log` and the output directory `out`. */
  method RunBatch(env: map<string, string>, audioDir: string, listing: seq<string>, svc: Services,
                  log: seq<Record>, out: map<string, Artifact>) returns (run: BatchRun)
    ensures LoadConfig(env).Err? ==> run == ConfigRejected(ConfigMessage(LoadConfig(env).error))
    ensures LoadConfig(env).Ok? && AudioFiles(listing) == [] ==>
      run == NoAudio("No audio in " + audioDir + ". Put your subset there.")
    ensures LoadConfig(env).Ok? && AudioFiles(listing) != [] ==>
      run == Finished(After(Progress(0, 0, log, out), AudioFiles(listing), Outcomes(svc)))
  {
    var config := LoadConfig(env);
    if config.Err? {
      return ConfigRejected(ConfigMessage(config.error));
    }
    var files := AudioFiles(listing);
    if files == [] {
      return NoAudio("No audio in " + audioDir + ". Put your subset there.");
    }
    var nOk, nFail, lines, dir := ProcessAll(files, svc, log, out);
    return Finished(Progress(nOk, nFail, lines, dir));
  }

  /** The `for` loop of `main` over the sorted audio files. */
  method ProcessAll(files: seq<string>, svc: Services, log: seq<Record>, out: map<string, Artifact>)
    returns (nOk: nat, nFail: nat, lines: seq<Record>, dir: map<string, Artifact>)
    ensures Progress(nOk, nFail, lines, dir) == After(Progress(0, 0, log, out), files, Outcomes(svc))
  {
    ghost var start := Progress(0, 0, log, out);
    nOk, nFail := 0, 0;
    lines, dir := log, out;
    for i := 0 to |files|
      invariant Progress(nOk, nFail, lines, dir) == After(start, files[..i], Outcomes(svc))
    {
      var path := files[i];
      Step(start, files, Outcomes(svc), i);
      OutcomeOf(svc, path);
      var transcript := TranscribeFile(svc.recognize(path));
      if transcript.Err? {
        dir := dir[Stem(Name(path)) + ".error.txt" := ErrorText(transcript.error)];
        nFail := nFail + 1;
      } else {
        var structured := SummarizeAndStructurize(svc.reply(path));
        if structured.Err? {
          dir := dir[Stem(Name(path)) + ".error.txt" := ErrorText(ErrorMessage(structured.error))];
          nFail := nFail + 1;
        } else {
          var record := Record(Name(path), transcript.value, structured.value.bullets, structured.value.structured);
          lines := lines + [record];
          dir := dir[Stem(Name(path)) + ".json" := Snapshot(record)];
          nOk := nOk + 1;
        }
      }
    }
    assert files[..|files|] == files;
  }

  lemma OutcomeOf(svc: Services, path: string)
    ensures Outcomes(svc)(path) == Combine(path, TranscribeFile(svc.recognize(path)), Extract(svc.reply(path)))
  {
  }

  /** `Done: {n_ok} ok, {n_fail} failed`: every recording is counted once, as
      a success or as a failure, and the log grows by one line per success. */
  lemma {:induction false} CountsAddUp(p: Progress, files: seq<string>, outcome: string -> Outcome)
    ensures After(p, files, outcome).nOk + After(p, files, outcome).nFail == p.nOk + p.nFail + |files|
    ensures |After(p, files, outcome).log| == |p.log| + After(p, files, outcome).nOk - p.nOk
  {
    if files != [] {
      CountsAddUp(p, files[..|files| - 1], outcome);
    }
  }

  /** The log is opened for appending: what it held stays, and the log after
      part of the batch is a prefix of the log after all of it. */
  lemma {:induction false} LogOnlyGrows(p: Progress, files: seq<string>, outcome: string -> Outcome, n: nat)
    requires n <= |files|
    ensures p.log <= After(p, files[..n], outcome).log <= After(p, files, outcome).log
  {
    if n < |files| {
      var init := files[..|files| - 1];
      LogOnlyGrows(p, init, outcome, n);
      assert init[..n] == files[..n];
      assert init[..|init|] == init;
    } else {
      assert files[..n] == files;
      if files != [] {
        var init := files[..|files| - 1];
        LogOnlyGrows(p, init, outcome, |init|);
        assert init[..|init|] == init;
      }
    }
  }

  /** A successful recording's line comes right after the lines of the
      successes before it: the log is in processing order. */
  lemma LoggedInOrder(p: Progress, files: seq<string>, outcome: string -> Outcome, i: nat)
    requires i < |files| && outcome(files[i]).Succeeded?
    ensures var k := |After(p, files[..i], outcome).log|;
            k < |After(p, files, outcome).log| && After(p, files, outcome).log[k] == outcome(files[i]).record
  {
    LogOnlyGrows(p, files, outcome, i + 1);
    Step(p, files, outcome, i);
  }

  /** Every record the batch logs has its summary and the four note fields
      filled in, and no `summary_bullets` key inside `structured`. */
  lemma {:induction false} LoggedRecordsFilled(p: Progress, files: seq<string>, svc: Services, r: Record)
    requires r in After(p, files, Outcomes(svc)).log && r !in p.log
    ensures !BlankStr(r.summaryBullets)
    ensures SummaryKey !in r.structured
    ensures forall k :: k in Schema.NoteFields ==> k in r.structured && !BlankStr(r.structured[k])
  {
    var path := files[|files| - 1];
    var before := After(p, files[..|files| - 1], Outcomes(svc));
    if r in before.log {
      LoggedRecordsFilled(p, files[..|files| - 1], svc, r);
    } else {
      OutcomeOf(svc, path);
      var c := svc.reply(path);
      ExtractResultShape(c);
      var s := Extract(c).value.structured;
      forall k | k in Schema.NoteFields ensures !BlankStr(s[k]) {
        BlankIsPythonTest(s, k);
      }
    }
  }

  /** Every recording leaves its file, successes and failures alike: a
      failure does not stop the batch. */
  lemma {:induction false} EveryRecordingWrites(p: Progress, files: seq<string>, outcome: string -> Outcome, i: nat)
    requires i < |files|
    ensures OutputName(outcome(files[i])) in After(p, files, outcome).out
  {
    var init := files[..|files| - 1];
    if i < |init| {
      assert init[i] == files[i];
      EveryRecordingWrites(p, init, outcome, i);
    }
  }

  /** Nothing but the recordings' own files is written. */
  lemma {:induction false} OnlyRecordingsWrite(p: Progress, files: seq<string>, outcome: string -> Outcome, name: string)
    requires name in After(p, files, outcome).out && name !in p.out
    ensures exists i :: 0 <= i < |files| && OutputName(outcome(files[i])) == name
  {
    var init := files[..|files| - 1];
    var last := files[|files| - 1];
    if OutputName(outcome(last)) != name {
      OnlyRecordingsWrite(p, init, outcome, name);
      var i :| 0 <= i < |init| && OutputName(outcome(init[i])) == name;
      assert init[i] == files[i];
    }
  }

  /** When two recordings write the same name (`a.wav` and `a.mp3` both
      write `a.json`), the later one's file is what remains. */
  lemma {:induction false} LastWriteWins(p: Progress, files: seq<string>, outcome: string -> Outcome, i: nat)
    requires i < |files|
    requires forall j :: i < j < |files| ==> OutputName(outcome(files[j])) != OutputName(outcome(files[i]))
    ensures var name := OutputName(outcome(files[i]));
            name in After(p, files, outcome).out && After(p, files, outcome).out[name] == OutputOf(outcome(files[i]))
  {
    var init := files[..|files| - 1];
    if i < |init| {
      assert files[i] == init[i];
      forall j | i < j < |init| ensures OutputName(outcome(init[j])) != OutputName(outcome(init[i])) {
        assert init[j] == files[j];
      }
      LastWriteWins(p, init, outcome, i);
    }
  }

  /** A file no recording writes keeps what it held. */
  lemma {:induction false} UnwrittenKept(p: Progress, files: seq<string>, outcome: string -> Outcome, name: string)
    requires name in p.out
    requires forall j :: 0 <= j < |files| ==> OutputName(outcome(files[j])) != name
    ensures name in After(p, files, outcome).out && After(p, files, outcome).out[name] == p.out[name]
  {
    if files != [] {
      var init := files[..|files| - 1];
      forall j | 0 <= j < |init| ensures OutputName(outcome(init[j])) != name {
        assert init[j] == files[j];
      }
      UnwrittenKept(p, init, outcome, name);
    }
  }

  /** A snapshot and an error report never share a name. */
  lemma SnapshotAndErrorNamesDiffer(a: Outcome, b: Outcome)
    requires a.Succeeded? && b.Failed?
    ensures OutputName(a) != OutputName(b)
  {
    var x, y := OutputName(a), OutputName(b);
    assert x[|x| - 1] == 'n' && y[|y| - 1] == 't';
  }
}
