/**
 * src/test_many.py: pick audio files from a directory tree, transcribe each,
 * and, with `--summarize`, structure each transcript and append a JSON line
 * per structured recording. A structuring failure is only reported; the
 * recording still counts as processed.
 */
module TestMany {
  import opened Wrappers
  import opened Arith
  import opened Json
  import opened Paths
  import opened Records
  import opened Transcription
  import opened Structurize
  import Schema

  const SpeechKeyVar := "AZURE_SPEECH_KEY"

  /** How many elements Python's `s[:limit]` keeps: a negative limit counts
      from the end. */
  function SliceLength(n: nat, limit: int): (k: nat)
    ensures k <= n
    ensures 0 <= limit ==> k == Min(limit, n)
    ensures limit < 0 ==> k == Max(0, n + limit)
  {
    if 0 <= limit then Min(limit, n) else Max(0, n + limit)
  }

  /** `pick_files`: the audio files among the entries `rglob` yields under
      `base`, in that order or, with `shuffle`, in the order `shuffled` that
      the seeded shuffle produced; then the first `limit` of them. */
  function PickFiles(base: string, entries: seq<string>, limit: int, shuffle: bool, shuffled: seq<string>): (r: Result<seq<string>, string>)
    requires shuffle ==> multiset(shuffled) == multiset(AudioOnly(entries))
    ensures r.Err? <==> AudioOnly(entries) == []
    ensures r.Err? ==> r.error == "No audio files found under " + base
    ensures r.Ok? ==> |r.value| == SliceLength(|AudioOnly(entries)|, limit)
    ensures r.Ok? && !shuffle ==> r.value <= AudioOnly(entries)
    ensures r.Ok? && shuffle ==> r.value <= shuffled
    ensures r.Ok? ==> multiset(r.value) <= multiset(AudioOnly(entries))
  {
    var files := AudioOnly(entries);
    if files == [] then Err("No audio files found under " + base)
    else Ok(Pick(files, limit, shuffle, shuffled))
  }

  /** The first `limit` of `files`, or of their shuffled order. */
  function Pick(files: seq<string>, limit: int, shuffle: bool, shuffled: seq<string>): (r: seq<string>)
    requires shuffle ==> multiset(shuffled) == multiset(files)
    ensures |r| == SliceLength(|files|, limit)
    ensures !shuffle ==> r <= files
    ensures shuffle ==> r <= shuffled
    ensures multiset(r) <= multiset(files)
  {
    var order := if shuffle then shuffled else files;
    assert |order| == |files| by {
      if shuffle { assert |multiset(order)| == |multiset(files)|; }
    }
    var picked := order[..SliceLength(|files|, limit)];
    assert order == picked + order[|picked|..];
    assert multiset(order) == multiset(picked) + multiset(order[|picked|..]);
    picked
  }

  /** Every picked file is an audio file from the listing, and the same file
      is not picked twice unless it is listed twice. */
  lemma PickedAreAudio(base: string, entries: seq<string>, limit: int, shuffle: bool, shuffled: seq<string>, p: string)
    requires shuffle ==> multiset(shuffled) == multiset(AudioOnly(entries))
    requires PickFiles(base, entries, limit, shuffle, shuffled).Ok?
    ensures multiset(PickFiles(base, entries, limit, shuffle, shuffled).value)[p] <= multiset(entries)[p]
    ensures p in PickFiles(base, entries, limit, shuffle, shuffled).value ==> p in entries && IsAudio(p)
  {
    var picked := PickFiles(base, entries, limit, shuffle, shuffled).value;
    assert multiset(picked)[p] <= multiset(AudioOnly(entries))[p];
    if p in picked {
      assert p in multiset(picked);
    }
  }

  /** What became of one recording: transcribed (with a record when it was
      also structured, and whether the pause after it raised), or failed in
      transcription. */
  datatype Outcome = Transcribed(record: Option<Record>, pauseFailed: bool) | NotTranscribed(message: string)

  /** One pass of the loop body: the inner `try` swallows a structuring
      failure, so only the transcription decides whether the recording is
      ok. The pause `time.sleep(args.sleep)` runs after `ok += 1` inside the
      outer `try`; `pauseRaises` says whether it raises, as it does for a
      negative or NaN `--sleep`, and then the recording is counted as failed
      as well. */
  function Process(path: string, svc: Services, summarize: bool, pauseRaises: bool): (o: Outcome)
    ensures o.Transcribed? <==> svc.recognize(path).RecognizedSpeech?
    ensures o.Transcribed? ==> o.pauseFailed == pauseRaises
    ensures o.NotTranscribed? ==> o.message == TranscribeFile(svc.recognize(path)).error
    ensures o.Transcribed? && o.record.Some? <==>
      svc.recognize(path).RecognizedSpeech? && summarize && Extract(svc.reply(path)).Ok?
    ensures o.Transcribed? && o.record.Some? ==>
      o.record.value == Record(Name(path), svc.recognize(path).text,
                               Extract(svc.reply(path)).value.bullets, Extract(svc.reply(path)).value.structured)
  {
    match TranscribeFile(svc.recognize(path))
    case Err(m) => NotTranscribed(m)
    case Ok(transcript) =>
      if !summarize then Transcribed(None, pauseRaises)
      else
        match Extract(svc.reply(path))
        case Err(_) => Transcribed(None, pauseRaises)
        case Ok(x) => Transcribed(Some(Record(Name(path), transcript, x.bullets, x.structured)), pauseRaises)
  }

  function Outcomes(svc: Services, summarize: bool, pauseRaises: bool): string -> Outcome {
    path => Process(path, svc, summarize, pauseRaises)
  }

  /** The two counters and the JSONL output. */
  datatype Progress = Progress(ok: nat, fail: nat, log: seq<Record>)

  function Advance(p: Progress, o: Outcome): Progress {
    match o
    case NotTranscribed(_) => Progress(p.ok, p.fail + 1, p.log)
    case Transcribed(rec, pauseFailed) =>
      Progress(p.ok + 1, if pauseFailed then p.fail + 1 else p.fail,
               if rec.Some? then p.log + [rec.value] else p.log)
  }

  /** The state after processing `files` in order from `p`. */
  function After(p: Progress, files: seq<string>, outcome: string -> Outcome): Progress {
    if files == [] then p
    else Advance(After(p, files[..|files| - 1], outcome), outcome(files[|files| - 1]))
  }

  lemma Step(p: Progress, files: seq<string>, outcome: string -> Outcome, i: nat)
    requires i < |files|
    ensures After(p, files[..i + 1], outcome) == Advance(After(p, files[..i], outcome), outcome(files[i]))
  {
    assert files[..i + 1][..i] == files[..i];
  }

  datatype TestRun = Exited(message: string) | Finished(result: Progress)

  /** `main`: pick the files, require a speech key (a missing or empty
      `AZURE_SPEECH_KEY` is fatal; its value is not stripped), import the
      structuring module only with `summarize` (which checks its
      configuration), then process the files, appending to `log`;
      `pauseRaises` says whether `time.sleep(args.sleep)` raises. */
  method RunTestMany(env: map<string, string>, base: string, entries: seq<string>, limit: int,
                     shuffle: bool, shuffled: seq<string>, summarize: bool, pauseRaises: bool,
                     svc: Services, log: seq<Record>)
    returns (run: TestRun)
    requires shuffle ==> multiset(shuffled) == multiset(AudioOnly(entries))
    ensures var picked := PickFiles(base, entries, limit, shuffle, shuffled);
      && (picked.Err? ==> run == Exited(picked.error))
      && (picked.Ok? && GetEnv(env, SpeechKeyVar, "") == "" ==> run == Exited("Missing AZURE_SPEECH_KEY in .env"))
      && (picked.Ok? && GetEnv(env, SpeechKeyVar, "") != "" && summarize && LoadConfig(env).Err? ==>
            run == Exited(ConfigMessage(LoadConfig(env).error)))
      && (picked.Ok? && GetEnv(env, SpeechKeyVar, "") != "" && (!summarize || LoadConfig(env).Ok?) ==>
            run == Finished(After(Progress(0, 0, log), picked.value, Outcomes(svc, summarize, pauseRaises))))
  {
    var picked := PickFiles(base, entries, limit, shuffle, shuffled);
    if picked.Err? {
      return Exited(picked.error);
    }
    if GetEnv(env, SpeechKeyVar, "") == "" {
      return Exited("Missing AZURE_SPEECH_KEY in .env");
    }
    if summarize {
      var config := LoadConfig(env);
      if config.Err? {
        return Exited(ConfigMessage(config.error));
      }
    }
    var ok, fail, lines := ProcessAll(picked.value, svc, summarize, pauseRaises, log);
    return Finished(Progress(ok, fail, lines));
  }

  /** The `for` loop of `main`. */
  method ProcessAll(files: seq<string>, svc: Services, summarize: bool, pauseRaises: bool, log: seq<Record>)
    returns (ok: nat, fail: nat, lines: seq<Record>)
    ensures Progress(ok, fail, lines) == After(Progress(0, 0, log), files, Outcomes(svc, summarize, pauseRaises))
  {
    ghost var start := Progress(0, 0, log);
    ok, fail, lines := 0, 0, log;
    for i := 0 to |files|
      invariant Progress(ok, fail, lines) == After(start, files[..i], Outcomes(svc, summarize, pauseRaises))
    {
      var path := files[i];
      Step(start, files, Outcomes(svc, summarize, pauseRaises), i);
      OutcomeOf(svc, summarize, pauseRaises, path);
      var transcript := TranscribeFile(svc.recognize(path));
      if transcript.Err? {
        fail := fail + 1;
      } else {
        if summarize {
          var structured := SummarizeAndStructurize(svc.reply(path));
          if structured.Ok? {
            lines := lines + [Record(Name(path), transcript.value, structured.value.bullets, structured.value.structured)];
          }
        }
        ok := ok + 1;
        if pauseRaises {
          fail := fail + 1;
        }
      }
    }
    assert files[..|files|] == files;
  }

  lemma OutcomeOf(svc: Services, summarize: bool, pauseRaises: bool, path: string)
    ensures Outcomes(svc, summarize, pauseRaises)(path) == Process(path, svc, summarize, pauseRaises)
  {
  }

  /** `Done. {ok} ok, {fail} failed.`: every picked file is counted once,
      and a file whose pause raised is counted a second time, as failed; the
      log grows by at most one line per ok file. */
  lemma {:induction false} CountsAddUp(p: Progress, files: seq<string>, svc: Services, summarize: bool, pauseRaises: bool)
    ensures var a := After(p, files, Outcomes(svc, summarize, pauseRaises));
            && p.ok <= a.ok
            && a.ok + a.fail == p.ok + p.fail + |files| + (if pauseRaises then a.ok - p.ok else 0)
            && |p.log| <= |a.log| <= |p.log| + a.ok - p.ok
  {
    if files != [] {
      CountsAddUp(p, files[..|files| - 1], svc, summarize, pauseRaises);
      OutcomeOf(svc, summarize, pauseRaises, files[|files| - 1]);
    }
  }

  /** With a `--sleep` that `time.sleep` rejects, every picked file ends up
      counted as failed, the transcribed ones after being counted ok. */
  lemma {:induction false} RaisingPauseFailsAll(p: Progress, files: seq<string>, svc: Services, summarize: bool)
    ensures After(p, files, Outcomes(svc, summarize, true)).fail == p.fail + |files|
  {
    if files != [] {
      RaisingPauseFailsAll(p, files[..|files| - 1], svc, summarize);
      OutcomeOf(svc, summarize, true, files[|files| - 1]);
    }
  }

  /** `open(args.out, "a")`: the log keeps what it held, and every state
      reached on the way holds a prefix of the final log. */
  lemma {:induction false} LogOnlyGrows(p: Progress, files: seq<string>, outcome: string -> Outcome)
    ensures p.log <= After(p, files, outcome).log
  {
    if files != [] {
      LogOnlyGrows(p, files[..|files| - 1], outcome);
    }
  }

  /** A structured file's line is appended right after the lines of the
      files before it. */
  lemma LoggedInOrder(p: Progress, files: seq<string>, outcome: string -> Outcome, i: nat)
    requires i < |files| && outcome(files[i]).Transcribed? && outcome(files[i]).record.Some?
    ensures After(p, files[..i + 1], outcome).log == After(p, files[..i], outcome).log + [outcome(files[i]).record.value]
  {
    Step(p, files, outcome, i);
  }

  /** The counts depend on the speech results alone: neither the structuring
      replies nor `--summarize` change how many recordings are ok. */
  lemma {:induction false} CountsIgnoreStructuring(p: Progress, files: seq<string>, recognize: string -> Recognition,
                                                    reply1: string -> Completion, reply2: string -> Completion,
                                                    summarize1: bool, summarize2: bool, pauseRaises: bool)
    ensures var a := After(p, files, Outcomes(Services(recognize, reply1), summarize1, pauseRaises));
            var b := After(p, files, Outcomes(Services(recognize, reply2), summarize2, pauseRaises));
            a.ok == b.ok && a.fail == b.fail
  {
    if files != [] {
      var path := files[|files| - 1];
      CountsIgnoreStructuring(p, files[..|files| - 1], recognize, reply1, reply2, summarize1, summarize2, pauseRaises);
      OutcomeOf(Services(recognize, reply1), summarize1, pauseRaises, path);
      OutcomeOf(Services(recognize, reply2), summarize2, pauseRaises, path);
    }
  }

  /** Every line written holds a filled-in summary and four filled-in note
      fields, and no `summary_bullets` key inside `structured`. */
  lemma {:induction false} LoggedRecordsFilled(p: Progress, files: seq<string>, svc: Services, summarize: bool,
                                               pauseRaises: bool, r: Record)
    requires r in After(p, files, Outcomes(svc, summarize, pauseRaises)).log && r !in p.log
    ensures !BlankStr(r.summaryBullets)
    ensures SummaryKey !in r.structured
    ensures forall k :: k in Schema.NoteFields ==> k in r.structured && !BlankStr(r.structured[k])
  {
    var path := files[|files| - 1];
    var before := After(p, files[..|files| - 1], Outcomes(svc, summarize, pauseRaises));
    if r in before.log {
      LoggedRecordsFilled(p, files[..|files| - 1], svc, summarize, pauseRaises, r);
    } else {
      OutcomeOf(svc, summarize, pauseRaises, path);
      var c := svc.reply(path);
      ExtractResultShape(c);
      var s := Extract(c).value.structured;
      forall k | k in Schema.NoteFields ensures !BlankStr(s[k]) {
        BlankIsPythonTest(s, k);
      }
    }
  }

  /** Without `--summarize` nothing is written. */
  lemma {:induction false} NoSummarizeNoLog(p: Progress, files: seq<string>, svc: Services, pauseRaises: bool)
    ensures After(p, files, Outcomes(svc, false, pauseRaises)).log == p.log
  {
    if files != [] {
      NoSummarizeNoLog(p, files[..|files| - 1], svc, pauseRaises);
      OutcomeOf(svc, false, pauseRaises, files[|files| - 1]);
    }
  }
}
