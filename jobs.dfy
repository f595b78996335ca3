/**
 * The status record of one job and the order in which process_audio_file
 * writes it and calls out to external steps. The worker is described as a
 * script: every field update of the record is a Set of the whole record,
 * every step that may raise (a folder creation, Demucs, a copy, BasicPitch,
 * the merge, removing the upload) is a Call. Executing the script against
 * the set of steps that raise gives what happens: the records written, in
 * order, and the steps attempted, with any raise turning the record into an
 * error record, as the worker's except-branch does.
 */
module Jobs {
  import opened Wrappers
  import opened Paths
  import opened StemPaths

  datatype Status = Processing | Completed | Error

  /** The steps of the worker that may raise an exception. */
  datatype Step =
    | MakeDirs                 // os.makedirs of the stems and midi folders
    | Separate                 // separate_stems (Demucs)
    | CopyStem(stem: string)   // shutil.copy2 of one stem into the stems folder
    | Transcribe(stem: string) // transcribe_to_midi (BasicPitch and the move)
    | Merge                    // merge_midis
    | RemoveUpload             // os.remove of the upload after the merge
    | CleanupUpload            // os.remove of the upload in the except-branch

  /** A fixed message, or 'Error: ' followed by the text of the exception the step raised. */
  datatype Message = Text(text: string) | ErrorText(cause: Step)

  datatype JobResults = JobResults(stems: seq<(string, Path)>, midiFiles: seq<(string, Path)>,
                                   combinedMidi: Path, trackName: string)

  /** processing_status[job_id] (the timestamps are not modelled). */
  datatype JobRecord = JobRecord(status: Status, progress: int, message: Message, results: Option<JobResults>)

  /** The arguments of process_audio_file. */
  datatype JobInput = JobInput(jobId: string, inputFilePath: Path, originalFilename: string)

  datatype Action = Set(rec: JobRecord) | Call(step: Step)

  datatype Event = Write(rec: JobRecord) | Invoke(step: Step)

  const StartMessage := "Starting audio separation..."
  const SeparatingMessage := "Separating audio into stems..."
  const ConvertingMessage := "Converting stems to MIDI..."
  const MergingMessage := "Merging MIDI files..."
  const DoneMessage := "Processing completed successfully!"

  function ConvertingStemMessage(stem: string): string
  {
    "Converting " + stem + " to MIDI..."
  }

  /** /app/data/results, as segments after the root. */
  const ResultsFolder: Path := ["", "app", "data", "results"]

  function TrackNameOf(job: JobInput): string { Root(job.originalFilename) }

  function StemsDir(job: JobInput): Path { ResultsFolder + [job.jobId, "stems"] }

  function MidiDir(job: JobInput): Path { ResultsFolder + [job.jobId, "midi"] }

  /** stem_outputs: the copies of the four stems. */
  function StemOutputs(job: JobInput): seq<(string, Path)>
  {
    StemCopies(StemsDir(job), TrackNameOf(job))
  }

  function InProgress(progress: int, message: string): JobRecord
  {
    JobRecord(Processing, progress, Text(message), None)
  }

  /** The except-branch's record: status error, progress 0, no results, a message naming what raised. */
  function ErrorRecord(cause: Step): (r: JobRecord)
    ensures r.status == Error && r.progress == 0 && r.results.None?
    ensures r.message == ErrorText(cause)
  {
    JobRecord(Error, 0, ErrorText(cause), None)
  }

  /** The last record of a run that raised nothing. */
  function CompletedRecord(job: JobInput): JobRecord
  {
    var results := JobResults(StemOutputs(job), MidiTargets(StemOutputs(job), MidiDir(job)),
                              MidiDir(job) + ["combined.mid"], TrackNameOf(job));
    JobRecord(Completed, 100, Text(DoneMessage), Some(results))
  }

  /**
   * The completed record: progress 100, the success message, every stem
   * paired with its copy in the job's stems folder and its MIDI file in the
   * job's midi folder, in stem order, and the combined file beside them.
   */
  lemma CompletedRecordContents(job: JobInput, i: nat)
    requires i < |Stems|
    ensures var r := CompletedRecord(job);
            && r.status == Completed && r.progress == 100 && r.message == Text(DoneMessage)
            && r.results.Some? && |r.results.value.stems| == |Stems| && |r.results.value.midiFiles| == |Stems|
            && r.results.value.stems[i] == (Stems[i], StemCopyPath(StemsDir(job), TrackNameOf(job), Stems[i]))
            && r.results.value.midiFiles[i] == (Stems[i], MidiPath(MidiDir(job), Stems[i]))
            && r.results.value.combinedMidi == MidiDir(job) + ["combined.mid"]
  {
  }

  /** The progress after the i-th transcription: 50 plus the floor of (i + 1) quarters of 30. */
  function StemProgress(i: nat): (r: int)
    ensures i < |Stems| ==> 50 < r <= 80
    ensures i + 1 == |Stems| ==> r == 80
  {
    50 + (i + 1) * 30 / |Stems|
  }

  /** The message in place when the i-th transcription finishes. */
  function MessageBefore(i: nat): string
    requires i < |Stems|
  {
    if i == 0 then ConvertingMessage else ConvertingStemMessage(Stems[i - 1])
  }

  /** The two updates after the i-th transcription take the record from ConvertingRecord(i) to ConvertingRecord(i + 1). */
  lemma ConvertingUpdates(i: nat)
    requires i < |Stems|
    ensures ConvertingRecord(i).(progress := StemProgress(i)) == InProgress(StemProgress(i), MessageBefore(i))
    ensures InProgress(StemProgress(i), MessageBefore(i)).(message := Text(ConvertingStemMessage(Stems[i])))
            == ConvertingRecord(i + 1)
  {
    assert i + 1 - 1 == i;
  }

  /** Everything up to the separation. */
  const SetupScript: seq<Action> := [
    Set(InProgress(0, StartMessage)), Call(MakeDirs),
    Set(InProgress(0, SeparatingMessage)), Set(InProgress(20, SeparatingMessage)), Call(Separate)]

  /** The copy loop from the i-th stem on. */
  function CopyFrom(i: nat): seq<Action>
    decreases |Stems| - i
  {
    if i >= |Stems| then [] else [Call(CopyStem(Stems[i]))] + CopyFrom(i + 1)
  }

  const ConvertScript: seq<Action> := [Set(InProgress(20, ConvertingMessage)), Set(InProgress(50, ConvertingMessage))]

  /** The record while transcribing, once the first i stems are done. */
  function ConvertingRecord(i: nat): JobRecord
    requires i <= |Stems|
  {
    if i == 0 then InProgress(50, ConvertingMessage)
    else InProgress(StemProgress(i - 1), ConvertingStemMessage(Stems[i - 1]))
  }

  /** One round of the transcription loop: transcribe, then progress, then message. */
  function TranscribeStep(i: nat): seq<Action>
    requires i < |Stems|
  {
    [Call(Transcribe(Stems[i])),
     Set(InProgress(StemProgress(i), MessageBefore(i))),
     Set(InProgress(StemProgress(i), ConvertingStemMessage(Stems[i])))]
  }

  /** The transcription loop from the i-th stem on. */
  function TranscribeFrom(i: nat): seq<Action>
    decreases |Stems| - i
  {
    if i >= |Stems| then [] else TranscribeStep(i) + TranscribeFrom(i + 1)
  }

  const MergeScript: seq<Action> := [
    Set(InProgress(80, MergingMessage)), Set(InProgress(90, MergingMessage)), Call(Merge), Call(RemoveUpload)]

  /** Everything before the completed record, which is the same for every job. */
  function WorkScript(): seq<Action>
  {
    SetupScript + CopyFrom(0) + ConvertScript + TranscribeFrom(0) + MergeScript
  }

  /** The whole worker for one job. */
  function Script(job: JobInput): (r: seq<Action>)
    ensures |r| > 0 && r[0] == Set(InProgress(0, StartMessage))
    ensures r[|r| - 1] == Set(CompletedRecord(job))
  {
    WorkScript() + [Set(CompletedRecord(job))]
  }

  lemma CopyFromCons(i: nat, rest: seq<Action>)
    requires i < |Stems|
    ensures CopyFrom(i) + rest == [Call(CopyStem(Stems[i]))] + (CopyFrom(i + 1) + rest)
  {
  }

  lemma TranscribeFromCons(i: nat, rest: seq<Action>)
    requires i < |Stems|
    ensures TranscribeFrom(i) + rest == TranscribeStep(i) + (TranscribeFrom(i + 1) + rest)
  {
    assert TranscribeFrom(i) == TranscribeStep(i) + TranscribeFrom(i + 1);
    Assoc(TranscribeStep(i), TranscribeFrom(i + 1), rest);
  }

  /** One round of the transcription loop, one action at a time. */
  lemma TranscribeStepCons(i: nat, rest: seq<Action>)
    requires i < |Stems|
    ensures TranscribeStep(i) + rest
            == [Call(Transcribe(Stems[i]))] + ([Set(InProgress(StemProgress(i), MessageBefore(i)))]
               + ([Set(InProgress(StemProgress(i), ConvertingStemMessage(Stems[i])))] + rest))
  {
    Cons3(Call(Transcribe(Stems[i])), Set(InProgress(StemProgress(i), MessageBefore(i))),
          Set(InProgress(StemProgress(i), ConvertingStemMessage(Stems[i]))), rest);
  }

  /** The merge actions in front of the completed record, one action at a time. */
  lemma MergeScriptCons(rec: JobRecord)
    ensures MergeScript + [Set(rec)]
              == [Set(InProgress(80, MergingMessage))] + ([Set(InProgress(90, MergingMessage))]
                 + ([Call(Merge)] + ([Call(RemoveUpload)] + [Set(rec)])))
  {
    var tail := [Call(RemoveUpload)] + [Set(rec)];
    assert MergeScript + [Set(rec)] == [Set(InProgress(80, MergingMessage)), Set(InProgress(90, MergingMessage)), Call(Merge)] + tail;
    Cons3(Set(InProgress(80, MergingMessage)), Set(InProgress(90, MergingMessage)), Call(Merge), tail);
  }

  /** A three-action display in front of a script, one action at a time. */
  lemma Cons3(a: Action, b: Action, c: Action, rest: seq<Action>)
    ensures [a, b, c] + rest == [a] + ([b] + ([c] + rest))
  {
    var l, r := [a, b, c] + rest, [a] + ([b] + ([c] + rest));
    assert |l| == |r|;
    forall k | 0 <= k < |l|
      ensures l[k] == r[k]
    {
      if k >= 3 {
        assert l[k] == rest[k - 3];
        assert r[k] == ([b] + ([c] + rest))[k - 1] == ([c] + rest)[k - 2];
      }
    }
  }

  /** The script as its pieces, nested to the right. */
  lemma ScriptPieces(job: JobInput)
    ensures Script(job) == SetupScript + (CopyFrom(0) + (ConvertScript + (TranscribeFrom(0) + (MergeScript + [Set(CompletedRecord(job))]))))
  {
    Reassociate(SetupScript, CopyFrom(0), ConvertScript, TranscribeFrom(0), MergeScript, [Set(CompletedRecord(job))]);
  }

  lemma Reassociate<T>(a: seq<T>, b: seq<T>, c: seq<T>, d: seq<T>, e: seq<T>, f: seq<T>)
    ensures ((((a + b) + c) + d) + e) + f == a + (b + (c + (d + (e + f))))
    ensures ((a + b) + c) + d == a + (b + (c + d))
  {
  }

  /** The except-branch: the error record, then removing the upload. */
  function ErrorTail(cause: Step): seq<Event>
  {
    [Write(ErrorRecord(cause)), Invoke(CleanupUpload)]
  }

  /** Run a script when exactly the steps in `failing` raise. */
  function Execute(script: seq<Action>, failing: set<Step>): (r: seq<Event>)
    ensures |r| <= |script| + 2
    ensures script != [] ==> |r| > 0 && r[0] == EventOf(script[0])
  {
    if script == [] then []
    else match script[0]
      case Set(r) => [Write(r)] + Execute(script[1..], failing)
      case Call(s) => [Invoke(s)] + if s in failing then ErrorTail(s) else Execute(script[1..], failing)
  }

  function EventOf(a: Action): Event
  {
    match a
    case Set(r) => Write(r)
    case Call(s) => Invoke(s)
  }

  /** What a script does when nothing raises. */
  function Trace(script: seq<Action>): (r: seq<Event>)
    ensures |r| == |script|
    ensures forall i :: 0 <= i < |script| ==> r[i] == EventOf(script[i])
  {
    seq(|script|, i requires 0 <= i < |script| => EventOf(script[i]))
  }

  /** The index of the first call that raises, or the script's length when none does. */
  function FirstFailing(script: seq<Action>, failing: set<Step>): (k: nat)
    ensures k <= |script|
    ensures forall i :: 0 <= i < k && script[i].Call? ==> script[i].step !in failing
    ensures k < |script| ==> script[k].Call? && script[k].step in failing
  {
    if script == [] then 0
    else if script[0].Call? && script[0].step in failing then 0
    else 1 + FirstFailing(script[1..], failing)
  }

  predicate Completes(script: seq<Action>, failing: set<Step>)
  {
    FirstFailing(script, failing) == |script|
  }

  /**
   * A script runs as if nothing raised up to its first failing call; that
   * call is attempted, the error record is written and the upload removed,
   * and nothing after it happens.
   */
  lemma {:induction false} ExecuteShape(script: seq<Action>, failing: set<Step>)
    ensures var k := FirstFailing(script, failing);
            Execute(script, failing) ==
              if k == |script| then Trace(script)
              else Trace(script[..k]) + [Invoke(script[k].step)] + ErrorTail(script[k].step)
  {
    var k := FirstFailing(script, failing);
    if k == |script| {
      ExecuteTrace(script, failing);
    } else {
      var before, after := script[..k], script[k..];
      assert script == before + after;
      CompletesIff(before, failing);
      ExecuteAppend(before, after, failing);
      ExecuteTrace(before, failing);
      assert after == [script[k]] + after[1..];
      ExecuteCons(script[k], after[1..], failing);
    }
  }

  /** A script that completes runs as if nothing raised. */
  lemma {:induction false} ExecuteTrace(script: seq<Action>, failing: set<Step>)
    requires Completes(script, failing)
    ensures Execute(script, failing) == Trace(script)
  {
    if script != [] {
      var a, rest := script[0], script[1..];
      assert script == [a] + rest;
      ExecuteCons(a, rest, failing);
      ExecuteTrace(rest, failing);
      TraceAppend([a], rest);
    }
  }

  /** The processing progress values of a run, in order. */
  function Progresses(events: seq<Event>): seq<int>
  {
    if events == [] then []
    else
      var e := events[0];
      (if e.Write? && e.rec.status == Processing then [e.rec.progress] else []) + Progresses(events[1..])
  }

  lemma {:induction false} ProgressesAppend(a: seq<Event>, b: seq<Event>)
    ensures Progresses(a + b) == Progresses(a) + Progresses(b)
  {
    if a == [] {
      assert a + b == b;
    } else {
      assert (a + b)[1..] == a[1..] + b;
      ProgressesAppend(a[1..], b);
    }
  }

  lemma TraceAppend(a: seq<Action>, b: seq<Action>)
    ensures Trace(a + b) == Trace(a) + Trace(b)
  {
  }

  lemma ProgressesOfTrace(script: seq<Action>, k: nat)
    requires k <= |script|
    ensures Trace(script) == Trace(script[..k]) + Trace(script[k..])
    ensures Progresses(Trace(script)) == Progresses(Trace(script[..k])) + Progresses(Trace(script[k..]))
  {
    assert script == script[..k] + script[k..];
    TraceAppend(script[..k], script[k..]);
    ProgressesAppend(Trace(script[..k]), Trace(script[k..]));
  }

  /** The first call of a concatenation that raises. */
  lemma {:induction false} FirstFailingAppend(a: seq<Action>, b: seq<Action>, failing: set<Step>)
    ensures FirstFailing(a + b, failing) == if Completes(a, failing) then |a| + FirstFailing(b, failing) else FirstFailing(a, failing)
  {
    if a == [] {
      assert a + b == b;
    } else {
      assert (a + b)[1..] == a[1..] + b;
      FirstFailingAppend(a[1..], b, failing);
    }
  }

  /** A script completes exactly when none of its calls raises. */
  lemma CompletesIff(script: seq<Action>, failing: set<Step>)
    ensures Completes(script, failing) <==> forall i :: 0 <= i < |script| && script[i].Call? ==> script[i].step !in failing
  {
  }

  /** The last record written by a run, if any. */
  function LastWrite(events: seq<Event>): Option<JobRecord>
  {
    if events == [] then None
    else if events[|events| - 1].Write? then Some(events[|events| - 1].rec)
    else LastWrite(events[..|events| - 1])
  }

  /** The last record written by a concatenation comes from its second part when that part writes one. */
  lemma {:induction false} LastWriteAppend(a: seq<Event>, b: seq<Event>)
    ensures LastWrite(a + b) == if LastWrite(b).Some? then LastWrite(b) else LastWrite(a)
    decreases |b|
  {
    if b == [] {
      assert a + b == a;
    } else {
      assert (a + b)[..|a + b| - 1] == a + b[..|b| - 1];
      LastWriteAppend(a, b[..|b| - 1]);
    }
  }

  /** One step of a run, for a script given as its first action and the rest. */
  lemma ExecuteCons(a: Action, rest: seq<Action>, failing: set<Step>)
    ensures Execute([a] + rest, failing) ==
              if a.Call? && a.step in failing then [Invoke(a.step)] + ErrorTail(a.step)
              else [EventOf(a)] + Execute(rest, failing)
    ensures Completes([a] + rest, failing) <==> !(a.Call? && a.step in failing) && Completes(rest, failing)
  {
    assert ([a] + rest)[1..] == rest;
  }

  /** Running a concatenation runs the second part only when the first one completes. */
  lemma {:induction false} ExecuteAppend(a: seq<Action>, b: seq<Action>, failing: set<Step>)
    ensures Execute(a + b, failing) == Execute(a, failing) + if Completes(a, failing) then Execute(b, failing) else []
  {
    if a == [] {
      assert a + b == b;
    } else {
      assert (a + b)[1..] == a[1..] + b;
      ExecuteAppend(a[1..], b, failing);
    }
  }

  /** A concatenation completes when both parts do. */
  lemma CompletesAppend(a: seq<Action>, b: seq<Action>, failing: set<Step>)
    ensures Completes(a + b, failing) <==> Completes(a, failing) && Completes(b, failing)
  {
    FirstFailingAppend(a, b, failing);
  }

  /** Apart from the clean-up in the except-branch, a run only attempts steps its script calls. */
  lemma {:induction false} InvokedAreCalled(script: seq<Action>, failing: set<Step>, x: Step)
    requires Invoke(x) in Execute(script, failing)
    ensures x == CleanupUpload || Call(x) in script
  {
    if script != [] {
      var events := Execute(script, failing);
      if script[0].Call? && script[0].step in failing {
        assert Invoke(x) in [Invoke(script[0].step)] + ErrorTail(script[0].step);
      } else if Invoke(x) != events[0] {
        assert Invoke(x) in Execute(script[1..], failing);
        InvokedAreCalled(script[1..], failing, x);
      }
    }
  }

  function HeadProgress(e: Event): seq<int>
  {
    if e.Write? && e.rec.status == Processing then [e.rec.progress] else []
  }

  lemma ProgressesCons(e: Event, rest: seq<Event>)
    ensures Progresses([e] + rest) == HeadProgress(e) + Progresses(rest)
  {
    assert ([e] + rest)[1..] == rest;
  }

  lemma ProgressesAt(events: seq<Event>, k: nat)
    requires k < |events|
    ensures Progresses(events[k..]) == HeadProgress(events[k]) + Progresses(events[k + 1..])
  {
    assert events[k..][1..] == events[k + 1..];
  }

  /** The progress values the worker goes through when nothing raises. */
  const FullSchedule: seq<int> := [0, 0, 20, 20, 50, 57, 57, 65, 65, 72, 72, 80, 80, 80, 90]

  /** The progress values a processing record can carry. */
  const Checkpoints: set<int> := {0, 20, 50, 57, 65, 72, 80, 90}

  lemma SetupProgresses()
    ensures Progresses(Trace(SetupScript)) == [0, 0, 20]
  {
    var e0, e1 := Write(InProgress(0, StartMessage)), Invoke(MakeDirs);
    var e2, e3, e4 := Write(InProgress(0, SeparatingMessage)), Write(InProgress(20, SeparatingMessage)), Invoke(Separate);
    assert Trace(SetupScript) == [e0] + ([e1] + ([e2] + ([e3] + ([e4] + []))));
    ProgressesCons(e4, []);
    ProgressesCons(e3, [e4] + []);
    ProgressesCons(e2, [e3] + ([e4] + []));
    ProgressesCons(e1, [e2] + ([e3] + ([e4] + [])));
    ProgressesCons(e0, [e1] + ([e2] + ([e3] + ([e4] + []))));
  }

  lemma ConvertProgresses()
    ensures Progresses(Trace(ConvertScript)) == [20, 50]
  {
    var e0, e1 := Write(InProgress(20, ConvertingMessage)), Write(InProgress(50, ConvertingMessage));
    assert Trace(ConvertScript) == [e0] + ([e1] + []);
    ProgressesCons(e1, []);
    ProgressesCons(e0, [e1] + []);
  }

  lemma CopyProgresses(i: nat)
    ensures Progresses(Trace(CopyFrom(i))) == []
    decreases |Stems| - i
  {
    if i < |Stems| {
      CopyProgresses(i + 1);
      var t := Trace(CopyFrom(i));
      ProgressesAt(t, 0);
      assert t[1..] == Trace(CopyFrom(i + 1));
    }
  }

  lemma FinishProgresses(rec: JobRecord)
    requires rec.status == Completed
    ensures Progresses(Trace(MergeScript + [Set(rec)])) == [80, 90]
  {
    var e0, e1 := Write(InProgress(80, MergingMessage)), Write(InProgress(90, MergingMessage));
    var e2, e3, e4 := Invoke(Merge), Invoke(RemoveUpload), Write(rec);
    assert Trace(MergeScript + [Set(rec)]) == [e0] + ([e1] + ([e2] + ([e3] + ([e4] + []))));
    ProgressesCons(e4, []);
    ProgressesCons(e3, [e4] + []);
    ProgressesCons(e2, [e3] + ([e4] + []));
    ProgressesCons(e1, [e2] + ([e3] + ([e4] + [])));
    ProgressesCons(e0, [e1] + ([e2] + ([e3] + ([e4] + []))));
  }

  function TranscribeSchedule(i: nat): seq<int>
    decreases |Stems| - i
  {
    if i >= |Stems| then [] else [StemProgress(i), StemProgress(i)] + TranscribeSchedule(i + 1)
  }

  lemma {:induction false} TranscribeProgresses(i: nat)
    ensures Progresses(Trace(TranscribeFrom(i))) == TranscribeSchedule(i)
    decreases |Stems| - i
  {
    if i < |Stems| {
      TranscribeProgresses(i + 1);
      TraceAppend(TranscribeStep(i), TranscribeFrom(i + 1));
      ProgressesAppend(Trace(TranscribeStep(i)), Trace(TranscribeFrom(i + 1)));
      StepProgresses(i);
    }
  }

  /** One round of the transcription loop writes two processing records at StemProgress(i). */
  lemma StepProgresses(i: nat)
    requires i < |Stems|
    ensures Progresses(Trace(TranscribeStep(i))) == [StemProgress(i), StemProgress(i)]
  {
    var e0 := Invoke(Transcribe(Stems[i]));
    var e1 := Write(InProgress(StemProgress(i), MessageBefore(i)));
    var e2 := Write(InProgress(StemProgress(i), ConvertingStemMessage(Stems[i])));
    assert Trace(TranscribeStep(i)) == [e0] + ([e1] + ([e2] + []));
    ProgressesCons(e2, []);
    ProgressesCons(e1, [e2] + []);
    ProgressesCons(e0, [e1] + ([e2] + []));
  }

  /** The progress values of five scripts run one after the other. */
  lemma ProgressesOfPieces(a: seq<Action>, b: seq<Action>, c: seq<Action>, d: seq<Action>, e: seq<Action>)
    ensures Progresses(Trace(a + (b + (c + (d + e)))))
            == Progresses(Trace(a)) + (Progresses(Trace(b)) + (Progresses(Trace(c)) + (Progresses(Trace(d)) + Progresses(Trace(e)))))
  {
    TraceAppend(d, e);
    ProgressesAppend(Trace(d), Trace(e));
    TraceAppend(c, d + e);
    ProgressesAppend(Trace(c), Trace(d + e));
    TraceAppend(b, c + (d + e));
    ProgressesAppend(Trace(b), Trace(c + (d + e)));
    TraceAppend(a, b + (c + (d + e)));
    ProgressesAppend(Trace(a), Trace(b + (c + (d + e))));
  }

  lemma TranscribeScheduleValues()
    ensures TranscribeSchedule(0) == [57, 57, 65, 65, 72, 72, 80, 80]
  {
    assert TranscribeSchedule(4) == [];
    assert TranscribeSchedule(3) == [80, 80];
    assert TranscribeSchedule(2) == [72, 72, 80, 80];
    assert TranscribeSchedule(1) == [65, 65, 72, 72, 80, 80];
  }

  lemma ScheduleOfPieces()
    ensures [0, 0, 20] + ([] + ([20, 50] + ([57, 57, 65, 65, 72, 72, 80, 80] + [80, 90]))) == FullSchedule
  {
  }

  /** When nothing raises, the processing records go through FullSchedule. */
  lemma ScriptSchedule(job: JobInput)
    ensures Progresses(Trace(Script(job))) == FullSchedule
  {
    ScriptPieces(job);
    ProgressesOfPieces(SetupScript, CopyFrom(0), ConvertScript, TranscribeFrom(0), MergeScript + [Set(CompletedRecord(job))]);
    SetupProgresses();
    CopyProgresses(0);
    ConvertProgresses();
    TranscribeProgresses(0);
    TranscribeScheduleValues();
    FinishProgresses(CompletedRecord(job));
    ScheduleOfPieces();
  }

  predicate IsPrefix(a: seq<int>, b: seq<int>)
  {
    |a| <= |b| && b[..|a|] == a
  }

  /**
   * Whatever raises, the progress values of the processing records written
   * are an initial part of FullSchedule.
   */
  lemma RunSchedule(job: JobInput, failing: set<Step>)
    ensures IsPrefix(Progresses(Execute(Script(job), failing)), FullSchedule)
  {
    ScriptSchedule(job);
    ExecutePrefix(Script(job), failing);
  }

  /** A run that raises writes an initial part of the progress values the full run writes. */
  lemma ExecutePrefix(script: seq<Action>, failing: set<Step>)
    ensures IsPrefix(Progresses(Execute(script, failing)), Progresses(Trace(script)))
  {
    ExecuteShape(script, failing);
    var k := FirstFailing(script, failing);
    if k < |script| {
      var step := script[k].step;
      ProgressesAppend(Trace(script[..k]), [Invoke(step)]);
      ProgressesAppend(Trace(script[..k]) + [Invoke(step)], ErrorTail(step));
      ProgressesAt(ErrorTail(step), 0);
      ProgressesAt(ErrorTail(step), 1);
      assert ErrorTail(step)[2..] == [];
      ProgressesOfTrace(script, k);
    }
  }

  /** FullSchedule never goes down and only holds checkpoint values. */
  lemma FullScheduleOrdered()
    ensures forall i, j :: 0 <= i < j < |FullSchedule| ==> FullSchedule[i] <= FullSchedule[j]
    ensures forall i :: 0 <= i < |FullSchedule| ==> FullSchedule[i] in Checkpoints
  {
  }

  /**
   * While a job is processing, its progress only takes checkpoint values
   * and never goes down, whichever steps raise.
   */
  lemma ProgressNonDecreasing(job: JobInput, failing: set<Step>)
    ensures var ps := Progresses(Execute(Script(job), failing));
            && (forall i, j :: 0 <= i < j < |ps| ==> ps[i] <= ps[j])
            && (forall i :: 0 <= i < |ps| ==> ps[i] in Checkpoints)
  {
    RunSchedule(job, failing);
    FullScheduleOrdered();
    var ps := Progresses(Execute(Script(job), failing));
    forall i, j | 0 <= i < j < |ps| ensures ps[i] <= ps[j] {
      assert ps[i] == FullSchedule[i] && ps[j] == FullSchedule[j];
    }
    forall i | 0 <= i < |ps| ensures ps[i] in Checkpoints {
      assert ps[i] == FullSchedule[i];
    }
  }

  /** The steps a script calls, in order. */
  function Calls(script: seq<Action>): seq<Step>
  {
    if script == [] then [] else HeadCall(script[0]) + Calls(script[1..])
  }

  function HeadCall(a: Action): seq<Step>
  {
    if a.Call? then [a.step] else []
  }

  lemma CallsCons(a: Action, rest: seq<Action>)
    ensures Calls([a] + rest) == HeadCall(a) + Calls(rest)
  {
    assert ([a] + rest)[1..] == rest;
  }

  lemma {:induction false} CallsAppend(a: seq<Action>, b: seq<Action>)
    ensures Calls(a + b) == Calls(a) + Calls(b)
  {
    if a == [] {
      assert a + b == b;
    } else {
      assert (a + b)[1..] == a[1..] + b;
      CallsAppend(a[1..], b);
    }
  }

  /** The copies from the i-th stem on, and the transcriptions. */
  function CopySteps(i: nat): seq<Step>
    decreases |Stems| - i
  {
    if i >= |Stems| then [] else [CopyStem(Stems[i])] + CopySteps(i + 1)
  }

  function TranscribeSteps(i: nat): seq<Step>
    decreases |Stems| - i
  {
    if i >= |Stems| then [] else [Transcribe(Stems[i])] + TranscribeSteps(i + 1)
  }

  lemma {:induction false} CopyCalls(i: nat)
    ensures Calls(CopyFrom(i)) == CopySteps(i)
    decreases |Stems| - i
  {
    if i < |Stems| {
      CopyCalls(i + 1);
      CallsCons(Call(CopyStem(Stems[i])), CopyFrom(i + 1));
    }
  }

  lemma {:induction false} TranscribeCalls(i: nat)
    ensures Calls(TranscribeFrom(i)) == TranscribeSteps(i)
    decreases |Stems| - i
  {
    if i < |Stems| {
      TranscribeCalls(i + 1);
      CallsAppend(TranscribeStep(i), TranscribeFrom(i + 1));
      StepCalls(i);
    }
  }

  /** One round of the transcription loop calls BasicPitch once. */
  lemma StepCalls(i: nat)
    requires i < |Stems|
    ensures Calls(TranscribeStep(i)) == [Transcribe(Stems[i])]
  {
    var a, b, c := Call(Transcribe(Stems[i])), Set(InProgress(StemProgress(i), MessageBefore(i))),
                   Set(InProgress(StemProgress(i), ConvertingStemMessage(Stems[i])));
    assert TranscribeStep(i) == [a] + ([b] + ([c] + []));
    CallsCons(c, []);
    CallsCons(b, [c] + []);
    CallsCons(a, [b] + ([c] + []));
  }

  lemma SetupCalls()
    ensures Calls(SetupScript) == [MakeDirs, Separate]
  {
    var a0, a1, a2, a3, a4 := Set(InProgress(0, StartMessage)), Call(MakeDirs),
                              Set(InProgress(0, SeparatingMessage)), Set(InProgress(20, SeparatingMessage)), Call(Separate);
    assert SetupScript == [a0] + ([a1] + ([a2] + ([a3] + ([a4] + []))));
    CallsCons(a4, []);
    CallsCons(a3, [a4] + []);
    CallsCons(a2, [a3] + ([a4] + []));
    CallsCons(a1, [a2] + ([a3] + ([a4] + [])));
    CallsCons(a0, [a1] + ([a2] + ([a3] + ([a4] + []))));
  }

  lemma ConvertCalls()
    ensures Calls(ConvertScript) == []
  {
    var a0, a1 := Set(InProgress(20, ConvertingMessage)), Set(InProgress(50, ConvertingMessage));
    assert ConvertScript == [a0] + ([a1] + []);
    CallsCons(a1, []);
    CallsCons(a0, [a1] + []);
  }

  lemma FinishCalls(rec: JobRecord)
    ensures Calls(MergeScript + [Set(rec)]) == [Merge, RemoveUpload]
  {
    MergeScriptCons(rec);
    var a0, a1, a2, a3, a4 := Set(InProgress(80, MergingMessage)), Set(InProgress(90, MergingMessage)),
                              Call(Merge), Call(RemoveUpload), Set(rec);
    assert [a4] == [a4] + [];
    CallsCons(a4, []);
    CallsCons(a3, [a4]);
    CallsCons(a2, [a3] + [a4]);
    CallsCons(a1, [a2] + ([a3] + [a4]));
    CallsCons(a0, [a1] + ([a2] + ([a3] + [a4])));
  }

  lemma StemStepValues()
    ensures CopySteps(0) == [CopyStem("drums"), CopyStem("bass"), CopyStem("vocals"), CopyStem("other")]
    ensures TranscribeSteps(0) == [Transcribe("drums"), Transcribe("bass"), Transcribe("vocals"), Transcribe("other")]
  {
    assert CopySteps(4) == [] && TranscribeSteps(4) == [];
    assert CopySteps(3) == [CopyStem("other")] && TranscribeSteps(3) == [Transcribe("other")];
    assert CopySteps(2) == [CopyStem("vocals"), CopyStem("other")];
    assert TranscribeSteps(2) == [Transcribe("vocals"), Transcribe("other")];
  }

  /** The calls of five scripts run one after the other. */
  lemma CallsOfPieces(a: seq<Action>, b: seq<Action>, c: seq<Action>, d: seq<Action>, e: seq<Action>)
    ensures Calls(a + (b + (c + (d + e)))) == Calls(a) + (Calls(b) + (Calls(c) + (Calls(d) + Calls(e))))
  {
    CallsAppend(d, e);
    CallsAppend(c, d + e);
    CallsAppend(b, c + (d + e));
    CallsAppend(a, b + (c + (d + e)));
  }

  const WorkerSteps: seq<Step> := [MakeDirs, Separate,
                                   CopyStem("drums"), CopyStem("bass"), CopyStem("vocals"), CopyStem("other"),
                                   Transcribe("drums"), Transcribe("bass"), Transcribe("vocals"), Transcribe("other"),
                                   Merge, RemoveUpload]

  lemma StepsOfPieces()
    ensures [MakeDirs, Separate] + (CopySteps(0) + ([] + (TranscribeSteps(0) + [Merge, RemoveUpload]))) == WorkerSteps
  {
    StemStepValues();
  }

  /**
   * The external steps of the worker, in order: the folders, Demucs, the
   * four copies, the four transcriptions, the merge and removing the upload.
   */
  lemma ScriptCalls(job: JobInput)
    ensures Calls(Script(job)) == WorkerSteps
  {
    ScriptPieces(job);
    CallsOfPieces(SetupScript, CopyFrom(0), ConvertScript, TranscribeFrom(0), MergeScript + [Set(CompletedRecord(job))]);
    SetupCalls();
    CopyCalls(0);
    ConvertCalls();
    TranscribeCalls(0);
    FinishCalls(CompletedRecord(job));
    StepsOfPieces();
  }

  /** The record a job ends with. */
  function Outcome(job: JobInput, failing: set<Step>): (r: JobRecord)
    ensures r.status == Completed <==> Completes(Script(job), failing)
    ensures r.status != Processing
    ensures r.status == Error ==> r.message.ErrorText? && r.message.cause in failing && Call(r.message.cause) in Script(job)
  {
    var script := Script(job);
    var k := FirstFailing(script, failing);
    if k == |script| then CompletedRecord(job) else ErrorRecord(script[k].step)
  }

  /** The last record a run writes is its outcome. */
  lemma RunOutcome(job: JobInput, failing: set<Step>)
    ensures LastWrite(Execute(Script(job), failing)) == Some(Outcome(job, failing))
  {
    var script := Script(job);
    assert script[|script| - 1] == Set(CompletedRecord(job));
    ExecuteLast(script, failing);
  }

  /**
   * A script that ends with a record write: a run that completes ends with
   * that record, and one that raises ends with the error record of the step
   * that raised first.
   */
  lemma ExecuteLast(script: seq<Action>, failing: set<Step>)
    requires |script| > 0 && script[|script| - 1].Set?
    ensures var k := FirstFailing(script, failing);
            LastWrite(Execute(script, failing)) ==
              if k == |script| then Some(script[|script| - 1].rec) else Some(ErrorRecord(script[k].step))
  {
    ExecuteShape(script, failing);
    var k := FirstFailing(script, failing);
    var events := Execute(script, failing);
    if k < |script| {
      assert events[|events| - 1] == Invoke(CleanupUpload);
      assert events[..|events| - 1][|events| - 2] == Write(ErrorRecord(script[k].step));
    }
  }

  lemma SetupCompletes(failing: set<Step>)
    ensures Completes(SetupScript, failing) <==> MakeDirs !in failing && Separate !in failing
  {
    CompletesIff(SetupScript, failing);
    if MakeDirs !in failing && Separate !in failing {
      forall i | 0 <= i < |SetupScript| && SetupScript[i].Call? ensures SetupScript[i].step !in failing {
        assert SetupScript[i] == Call(MakeDirs) || SetupScript[i] == Call(Separate);
      }
    } else {
      assert SetupScript[1] == Call(MakeDirs) && SetupScript[4] == Call(Separate);
    }
  }

  lemma {:induction false} CopyCompletes(i: nat, failing: set<Step>)
    ensures Completes(CopyFrom(i), failing) <==> forall k :: i <= k < |Stems| ==> CopyStem(Stems[k]) !in failing
    ensures forall a :: a in CopyFrom(i) ==> a.Call? && a.step.CopyStem?
    decreases |Stems| - i
  {
    if i < |Stems| {
      CopyCompletes(i + 1, failing);
      CompletesAppend([Call(CopyStem(Stems[i]))], CopyFrom(i + 1), failing);
    }
  }

  lemma {:induction false} TranscribeCompletes(i: nat, failing: set<Step>)
    ensures Completes(TranscribeFrom(i), failing) <==> forall k :: i <= k < |Stems| ==> Transcribe(Stems[k]) !in failing
    ensures forall a :: a in TranscribeFrom(i) && a.Call? ==> a.step.Transcribe?
    decreases |Stems| - i
  {
    if i < |Stems| {
      TranscribeCompletes(i + 1, failing);
      CompletesAppend(TranscribeStep(i), TranscribeFrom(i + 1), failing);
      StepCompletes(i, failing);
    }
  }

  /** One round of the transcription loop completes unless its BasicPitch call raises. */
  lemma StepCompletes(i: nat, failing: set<Step>)
    requires i < |Stems|
    ensures Completes(TranscribeStep(i), failing) <==> Transcribe(Stems[i]) !in failing
    ensures forall a :: a in TranscribeStep(i) && a.Call? ==> a == Call(Transcribe(Stems[i]))
  {
    var t := TranscribeStep(i);
    CompletesIff(t, failing);
    assert t[0] == Call(Transcribe(Stems[i])) && t[1].Set? && t[2].Set?;
  }

  lemma FinishCompletes(job: JobInput, failing: set<Step>)
    ensures Completes(MergeScript + [Set(CompletedRecord(job))], failing) <==> Merge !in failing && RemoveUpload !in failing
  {
    var finish := MergeScript + [Set(CompletedRecord(job))];
    CompletesIff(finish, failing);
    if Merge !in failing && RemoveUpload !in failing {
      forall i | 0 <= i < |finish| && finish[i].Call? ensures finish[i].step !in failing {
        assert finish[i] == Call(Merge) || finish[i] == Call(RemoveUpload);
      }
    } else {
      assert finish[2] == Call(Merge) && finish[3] == Call(RemoveUpload);
    }
  }

  /** The calls before the merge, and what follows them. */
  function BeforeMerge(): seq<Action>
  {
    SetupScript + CopyFrom(0) + ConvertScript + TranscribeFrom(0)
  }

  lemma ScriptSplit(job: JobInput)
    ensures Script(job) == BeforeMerge() + (MergeScript + [Set(CompletedRecord(job))])
  {
    Reassociate(SetupScript, CopyFrom(0), ConvertScript, TranscribeFrom(0), MergeScript, [Set(CompletedRecord(job))]);
  }

  /** The copies and the transcriptions all complete exactly when no stem's copy or transcription raises. */
  lemma StemLoopsComplete(failing: set<Step>)
    ensures Completes(CopyFrom(0), failing) && Completes(TranscribeFrom(0), failing) <==>
              forall s :: s in Stems ==> CopyStem(s) !in failing && Transcribe(s) !in failing
  {
    CopyCompletes(0, failing);
    TranscribeCompletes(0, failing);
    assert (forall s :: s in Stems ==> CopyStem(s) !in failing && Transcribe(s) !in failing) <==>
           (forall k :: 0 <= k < |Stems| ==> CopyStem(Stems[k]) !in failing && Transcribe(Stems[k]) !in failing);
  }

  lemma BeforeMergeCompletes(failing: set<Step>)
    ensures Completes(BeforeMerge(), failing) <==>
              && MakeDirs !in failing && Separate !in failing
              && (forall s :: s in Stems ==> CopyStem(s) !in failing && Transcribe(s) !in failing)
  {
    var a, b, c, d := SetupScript, CopyFrom(0), ConvertScript, TranscribeFrom(0);
    CompletesAppend(a, b, failing);
    CompletesAppend(a + b, c, failing);
    CompletesAppend(a + b + c, d, failing);
    SetupCompletes(failing);
    CompletesIff(c, failing);
    StemLoopsComplete(failing);
  }

  /**
   * A job completes exactly when none of its steps raises: the folders,
   * Demucs, the four copies, the four transcriptions, the merge and the
   * removal of the upload.
   */
  lemma CompletesIffNoStepRaises(job: JobInput, failing: set<Step>)
    ensures Completes(Script(job), failing) <==>
              && MakeDirs !in failing && Separate !in failing
              && (forall s :: s in Stems ==> CopyStem(s) !in failing && Transcribe(s) !in failing)
              && Merge !in failing && RemoveUpload !in failing
  {
    ScriptSplit(job);
    CompletesAppend(BeforeMerge(), MergeScript + [Set(CompletedRecord(job))], failing);
    BeforeMergeCompletes(failing);
    FinishCompletes(job, failing);
  }

  /** A job ends completed with progress 100 and the four stems exactly when no step raises. */
  lemma CompletedIffNoStepRaises(job: JobInput, failing: set<Step>)
    ensures var r := Outcome(job, failing);
            (r.status == Completed <==> Completes(Script(job), failing))
            && (r.status == Completed ==> r.progress == 100 && r.results.Some?
                                          && |r.results.value.stems| == |Stems|
                                          && (forall i :: 0 <= i < |Stems| ==>
                                                (r.results.value.stems[i].0 == Stems[i] && r.results.value.midiFiles[i].0 == Stems[i])))
            && (r.status != Completed ==> r.status == Error && r.progress == 0 && r.results.None?)
  {
  }

  /** The merge is not called before the transcriptions are done. */
  lemma MergeNotBefore()
    ensures Call(Merge) !in BeforeMerge()
  {
    CopyCompletes(0, {});
    TranscribeCompletes(0, {});
    assert Call(Merge) !in SetupScript;
    assert Call(Merge) !in ConvertScript;
  }

  /** A transcription that raises stops the job before the merge is attempted. */
  lemma NoMergeAfterTranscriptionFailure(job: JobInput, failing: set<Step>, stem: string)
    requires stem in Stems && Transcribe(stem) in failing
    ensures Invoke(Merge) !in Execute(Script(job), failing)
    ensures Outcome(job, failing).status == Error
  {
    var finish := MergeScript + [Set(CompletedRecord(job))];
    TranscribeCompletes(0, failing);
    assert !Completes(TranscribeFrom(0), failing);
    CompletesAppend(SetupScript + CopyFrom(0) + ConvertScript, TranscribeFrom(0), failing);
    assert !Completes(BeforeMerge(), failing);
    ScriptSplit(job);
    ExecuteAppend(BeforeMerge(), finish, failing);
    CompletesAppend(BeforeMerge(), finish, failing);
    MergeNotBefore();
    if Invoke(Merge) in Execute(BeforeMerge(), failing) {
      InvokedAreCalled(BeforeMerge(), failing, Merge);
    }
  }
}
