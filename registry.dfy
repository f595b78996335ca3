/**
 * The web application's job table (processing_status) and the background
 * worker process_audio_file that fills one entry of it.
 */
module Registry {
  import opened Wrappers
  import opened Paths
  import opened StemPaths
  import opened Jobs

  lemma CopiesStep(stemsDir: Path, trackName: string, i: nat)
    requires i < |Stems|
    ensures StemCopies(stemsDir, trackName)[..i + 1] ==
            StemCopies(stemsDir, trackName)[..i] + [(Stems[i], stemsDir + [trackName + "_" + Stems[i] + ".wav"])]
  {
  }

  lemma TargetsStep(stems: seq<(string, Path)>, midiDir: Path, i: nat)
    requires i < |stems|
    ensures MidiTargets(stems, midiDir)[..i + 1] ==
            MidiTargets(stems, midiDir)[..i] + [(stems[i].0, midiDir + [stems[i].0 + ".mid"])]
  {
  }

  /** Between two states of the job table, only the entry of jobId was added or replaced. */
  ghost predicate OnlyEntryChanged(before: map<string, JobRecord>, after: map<string, JobRecord>, jobId: string)
  {
    && jobId in after
    && (forall id :: id in after <==> id in before || id == jobId)
    && (forall id :: id in before && id != jobId ==> after[id] == before[id])
  }

  /** The same, said as one update of the table. */
  lemma OnlyEntryChangedIsUpdate(before: map<string, JobRecord>, after: map<string, JobRecord>, jobId: string)
    requires jobId in after
    ensures OnlyEntryChanged(before, after, jobId) <==> after == before[jobId := after[jobId]]
  {
    if OnlyEntryChanged(before, after, jobId) {
      assert after.Keys == before[jobId := after[jobId]].Keys;
    }
  }

  /** The completed record, from the paths the worker computes itself. */
  lemma CompletedRecordOf(job: JobInput, stemsDir: Path, midiDir: Path, trackName: string)
    requires stemsDir == ResultsFolder + [job.jobId] + ["stems"] && midiDir == ResultsFolder + [job.jobId] + ["midi"]
    requires trackName == Root(job.originalFilename)
    ensures var stemOutputs := StemCopies(stemsDir, trackName);
            CompletedRecord(job)
            == JobRecord(Completed, 100, Text(DoneMessage),
                         Some(JobResults(stemOutputs, MidiTargets(stemOutputs, midiDir), midiDir + ["combined.mid"], trackName)))
  {
    assert stemsDir == StemsDir(job) && midiDir == MidiDir(job);
  }

  class JobRegistry {
    /** processing_status: the record of every job by its id. */
    var jobs: map<string, JobRecord>
    /** Every record written and every external step attempted, in order. */
    ghost var log: seq<Event>
    /** What is left of the script of the worker that is running. */
    ghost var pending: seq<Action>

    constructor ()
      ensures jobs == map[] && log == [] && pending == []
    {
      jobs := map[];
      log := [];
      pending := [];
    }

    /** The job's entry is the last record written. */
    ghost predicate Current(jobId: string)
      reads this
    {
      jobId in jobs && LastWrite(log) == Some(jobs[jobId])
    }

    /** Replace the job's entry of the table with rec, the record the worker's script writes next. */
    method Put(jobId: string, rec: JobRecord, ghost failing: set<Step>, ghost next: seq<Action>)
      requires pending == [Set(rec)] + next
      modifies this
      ensures OnlyEntryChanged(old(jobs), jobs, jobId) && jobs[jobId] == rec
      ensures pending == next
      ensures log + Execute(pending, failing) == old(log) + Execute(old(pending), failing)
      ensures Current(jobId)
    {
      ExecuteCons(Set(rec), next, failing);
      Assoc(log, [Write(rec)], Execute(next, failing));
      jobs := jobs[jobId := rec];
      log := log + [Write(rec)];
      pending := next;
    }

    /** Assign the progress field of the job's record, leaving its other fields as they are. */
    method SetProgress(jobId: string, progress: int, ghost failing: set<Step>, ghost next: seq<Action>)
      requires jobId in jobs
      requires pending == [Set(jobs[jobId].(progress := progress))] + next
      modifies this
      ensures OnlyEntryChanged(old(jobs), jobs, jobId) && jobs[jobId] == old(jobs[jobId]).(progress := progress)
      ensures pending == next
      ensures log + Execute(pending, failing) == old(log) + Execute(old(pending), failing)
      ensures Current(jobId)
    {
      Put(jobId, jobs[jobId].(progress := progress), failing, next);
    }

    /** Assign the message field of the job's record, leaving its other fields as they are. */
    method SetMessage(jobId: string, message: string, ghost failing: set<Step>, ghost next: seq<Action>)
      requires jobId in jobs
      requires pending == [Set(jobs[jobId].(message := Text(message)))] + next
      modifies this
      ensures OnlyEntryChanged(old(jobs), jobs, jobId) && jobs[jobId] == old(jobs[jobId]).(message := Text(message))
      ensures pending == next
      ensures log + Execute(pending, failing) == old(log) + Execute(old(pending), failing)
      ensures Current(jobId)
    {
      Put(jobId, jobs[jobId].(message := Text(message)), failing, next);
    }

    /**
     * An external step of the worker, the next one its script calls, for
     * job `jobId`; it raises exactly when it is in `failing`, and then the
     * except-branch runs and nothing more of the script does.
     */
    method Attempt(jobId: string, step: Step, failing: set<Step>, ghost next: seq<Action>) returns (ok: bool)
      requires Current(jobId)
      requires pending == [Call(step)] + next
      modifies this
      ensures ok <==> step !in failing
      ensures pending == if ok then next else []
      ensures log + Execute(pending, failing) == old(log) + Execute(old(pending), failing)
      ensures OnlyEntryChanged(old(jobs), jobs, jobId)
      ensures ok ==> jobs == old(jobs)
      ensures !ok ==> jobs[jobId] == ErrorRecord(step)
      ensures Current(jobId)
    {
      ghost var before := log;
      ExecuteCons(Call(step), next, failing);
      log := log + [Invoke(step)];
      assert log[..|log| - 1] == before;
      ok := step !in failing;
      if ok {
        pending := next;
        Assoc(before, [Invoke(step)], Execute(next, failing));
      } else {
        pending := [];
        Fail(jobId, step);
        Assoc(before, [Invoke(step)], ErrorTail(step));
      }
    }

    /** The except-branch: the error record, then removing the upload. */
    method Fail(jobId: string, cause: Step)
      modifies this
      ensures OnlyEntryChanged(old(jobs), jobs, jobId) && jobs[jobId] == ErrorRecord(cause)
      ensures log == old(log) + ErrorTail(cause)
      ensures pending == old(pending)
      ensures Current(jobId)
    {
      jobs := jobs[jobId := ErrorRecord(cause)];
      log := log + [Write(ErrorRecord(cause))];
      // os.remove(input_file_path) when the upload still exists
      log := log + [Invoke(CleanupUpload)];
      assert log[..|log| - 1][|log| - 2] == Write(ErrorRecord(cause));
    }

    /** The first record, the folders, then Demucs. */
    method RunSetup(jobId: string, inputFilePath: Path, stemsDir: Path, failing: set<Step>, ghost rest: seq<Action>)
      returns (ok: bool, stems: seq<(string, Path)>)
      requires pending == SetupScript + rest
      modifies this
      ensures log + Execute(pending, failing) == old(log) + Execute(old(pending), failing)
      ensures OnlyEntryChanged(old(jobs), jobs, jobId)
      ensures Current(jobId)
      ensures if ok then pending == rest else pending == []
      ensures ok ==> jobs[jobId] == InProgress(20, SeparatingMessage)
      ensures ok ==> stems == SeparateStems(inputFilePath, stemsDir)
    {
      stems := [];
      ghost var n4 := [Call(Separate)] + rest;
      ghost var n3 := [Set(InProgress(20, SeparatingMessage))] + n4;
      ghost var n2 := [Set(InProgress(0, SeparatingMessage))] + n3;
      ghost var n1 := [Call(MakeDirs)] + n2;
      assert pending == [Set(InProgress(0, StartMessage))] + n1;
      Put(jobId, InProgress(0, StartMessage), failing, n1);
      ok := Attempt(jobId, MakeDirs, failing, n2);
      if !ok {
        return;
      }
      SetMessage(jobId, SeparatingMessage, failing, n3);
      SetProgress(jobId, 20, failing, n4);
      ok := Attempt(jobId, Separate, failing, rest);
      if !ok {
        return;
      }
      stems := SeparateStems(inputFilePath, stemsDir);
    }

    /** Copy each separated stem to <stems_dir>/<track>_<stem>.wav. */
    method CopyStems(jobId: string, stems: seq<(string, Path)>, stemsDir: Path, trackName: string, failing: set<Step>,
                     ghost rest: seq<Action>)
      returns (ok: bool, stemOutputs: seq<(string, Path)>)
      requires |stems| == |Stems| && forall i :: 0 <= i < |stems| ==> stems[i].0 == Stems[i]
      requires Current(jobId)
      requires pending == CopyFrom(0) + rest
      modifies this
      ensures log + Execute(pending, failing) == old(log) + Execute(old(pending), failing)
      ensures OnlyEntryChanged(old(jobs), jobs, jobId)
      ensures Current(jobId)
      ensures if ok then pending == rest else pending == []
      ensures ok ==> jobs == old(jobs)
      ensures ok ==> stemOutputs == StemCopies(stemsDir, trackName)
    {
      ok := true;
      stemOutputs := [];
      var i := 0;
      while i < |stems|
        invariant 0 <= i <= |stems|
        invariant stemOutputs == StemCopies(stemsDir, trackName)[..i]
        invariant pending == CopyFrom(i) + rest
        invariant log + Execute(pending, failing) == old(log) + Execute(old(pending), failing)
        invariant jobs == old(jobs)
        invariant Current(jobId)
      {
        var stemName := stems[i].0;
        var outputPath := stemsDir + [trackName + "_" + stemName + ".wav"];
        CopyFromCons(i, rest);
        ok := Attempt(jobId, CopyStem(stemName), failing, CopyFrom(i + 1) + rest);
        if !ok {
          return;
        }
        CopiesStep(stemsDir, trackName, i);
        stemOutputs := stemOutputs + [(stemName, outputPath)];
        i := i + 1;
      }
    }

    /** The two updates before the transcriptions. */
    method StartConversion(jobId: string, failing: set<Step>, ghost rest: seq<Action>)
      requires Current(jobId) && jobs[jobId] == InProgress(20, SeparatingMessage)
      requires pending == ConvertScript + rest
      modifies this
      ensures log + Execute(pending, failing) == old(log) + Execute(old(pending), failing)
      ensures OnlyEntryChanged(old(jobs), jobs, jobId)
      ensures Current(jobId)
      ensures pending == rest
      ensures jobs[jobId] == ConvertingRecord(0)
    {
      ghost var n1 := [Set(InProgress(50, ConvertingMessage))] + rest;
      assert pending == [Set(InProgress(20, ConvertingMessage))] + n1;
      SetMessage(jobId, ConvertingMessage, failing, n1);
      SetProgress(jobId, 50, failing, rest);
    }

    /** One round of the transcription loop: BasicPitch on one stem copy, then the progress and the message. */
    method TranscribeOne(jobId: string, i: nat, count: nat, stemName: string, midiDir: Path, failing: set<Step>,
                         ghost rest: seq<Action>)
      returns (ok: bool, midiPath: Path)
      requires i < |Stems| && count == |Stems| && stemName == Stems[i]
      requires Current(jobId) && jobs[jobId] == ConvertingRecord(i)
      requires pending == TranscribeStep(i) + rest
      modifies this
      ensures log + Execute(pending, failing) == old(log) + Execute(old(pending), failing)
      ensures OnlyEntryChanged(old(jobs), jobs, jobId)
      ensures Current(jobId)
      ensures if ok then pending == rest else pending == []
      ensures ok ==> jobs[jobId] == ConvertingRecord(i + 1)
      ensures midiPath == MidiPath(midiDir, stemName)
    {
      ghost var n2 := [Set(InProgress(StemProgress(i), ConvertingStemMessage(Stems[i])))] + rest;
      ghost var n1 := [Set(InProgress(StemProgress(i), MessageBefore(i)))] + n2;
      TranscribeStepCons(i, rest);
      ConvertingUpdates(i);
      midiPath := midiDir + [stemName + ".mid"];
      ok := Attempt(jobId, Transcribe(stemName), failing, n1);
      if !ok {
        return;
      }
      var progress := 50 + (i + 1) * 30 / count;
      assert progress == StemProgress(i);
      SetProgress(jobId, progress, failing, n2);
      SetMessage(jobId, ConvertingStemMessage(stemName), failing, rest);
    }

    /** Transcribe each stem copy to <midi_dir>/<stem>.mid, updating the progress after each. */
    method TranscribeStems(jobId: string, stemOutputs: seq<(string, Path)>, midiDir: Path, failing: set<Step>,
                           ghost rest: seq<Action>)
      returns (ok: bool, midiFiles: seq<(string, Path)>)
      requires |stemOutputs| == |Stems| && forall i :: 0 <= i < |stemOutputs| ==> stemOutputs[i].0 == Stems[i]
      requires Current(jobId) && jobs[jobId] == ConvertingRecord(0)
      requires pending == TranscribeFrom(0) + rest
      modifies this
      ensures log + Execute(pending, failing) == old(log) + Execute(old(pending), failing)
      ensures OnlyEntryChanged(old(jobs), jobs, jobId)
      ensures Current(jobId)
      ensures if ok then pending == rest else pending == []
      ensures ok ==> midiFiles == MidiTargets(stemOutputs, midiDir)
      ensures ok ==> jobs[jobId] == ConvertingRecord(|Stems|)
    {
      ok := true;
      midiFiles := [];
      var i := 0;
      while i < |stemOutputs|
        invariant 0 <= i <= |stemOutputs|
        invariant midiFiles == MidiTargets(stemOutputs, midiDir)[..i]
        invariant pending == TranscribeFrom(i) + rest
        invariant log + Execute(pending, failing) == old(log) + Execute(old(pending), failing)
        invariant OnlyEntryChanged(old(jobs), jobs, jobId)
        invariant jobs[jobId] == ConvertingRecord(i)
        invariant Current(jobId)
      {
        var stemName := stemOutputs[i].0;
        TranscribeFromCons(i, rest);
        var midiPath;
        ok, midiPath := TranscribeOne(jobId, i, |stemOutputs|, stemName, midiDir, failing, TranscribeFrom(i + 1) + rest);
        if !ok {
          return;
        }
        TargetsStep(stemOutputs, midiDir, i);
        midiFiles := midiFiles + [(stemName, midiPath)];
        i := i + 1;
      }
    }

    /** The merge, removing the upload and the completed record. */
    method Finish(jobId: string, results: JobResults, failing: set<Step>, ghost job: JobInput)
      returns (ok: bool)
      requires JobRecord(Completed, 100, Text(DoneMessage), Some(results)) == CompletedRecord(job)
      requires Current(jobId) && jobs[jobId] == ConvertingRecord(|Stems|)
      requires pending == MergeScript + [Set(CompletedRecord(job))]
      modifies this
      ensures log + Execute(pending, failing) == old(log) + Execute(old(pending), failing)
      ensures OnlyEntryChanged(old(jobs), jobs, jobId)
      ensures Current(jobId)
      ensures pending == []
    {
      ghost var n4: seq<Action> := [Set(CompletedRecord(job))];
      ghost var n3 := [Call(RemoveUpload)] + n4;
      ghost var n2 := [Call(Merge)] + n3;
      ghost var n1 := [Set(InProgress(90, MergingMessage))] + n2;
      MergeScriptCons(CompletedRecord(job));
      SetMessage(jobId, MergingMessage, failing, n1);
      SetProgress(jobId, 90, failing, n2);
      ok := Attempt(jobId, Merge, failing, n3);
      if !ok {
        return;
      }
      ok := Attempt(jobId, RemoveUpload, failing, n4);
      if !ok {
        return;
      }
      assert n4 == [Set(CompletedRecord(job))] + [];
      Put(jobId, JobRecord(Completed, 100, Text(DoneMessage), Some(results)), failing, []);
    }

    /**
     * process_audio_file: the records it writes and the steps it attempts
     * are those of running the worker's script, and the job's entry ends
     * as the outcome of that run; no other entry changes.
     */
    method ProcessAudioFile(jobId: string, inputFilePath: Path, originalFilename: string, failing: set<Step>)
      modifies this
      ensures log == old(log) + Execute(Script(JobInput(jobId, inputFilePath, originalFilename)), failing)
      ensures OnlyEntryChanged(old(jobs), jobs, jobId) && jobs[jobId] == Outcome(JobInput(jobId, inputFilePath, originalFilename), failing)
    {
      ghost var job := JobInput(jobId, inputFilePath, originalFilename);
      ghost var tail := MergeScript + [Set(CompletedRecord(job))];
      ghost var afterTranscription := TranscribeFrom(0) + tail;
      ghost var afterCopies := ConvertScript + afterTranscription;
      ghost var afterSetup := CopyFrom(0) + afterCopies;
      RunOutcome(job, failing);
      LastWriteAppend(old(log), Execute(Script(job), failing));
      ScriptPieces(job);
      pending := SetupScript + afterSetup;

      var trackName := Root(originalFilename);
      var jobDir := ResultsFolder + [jobId];
      var stemsDir := jobDir + ["stems"];
      var midiDir := jobDir + ["midi"];

      var ok, stems := RunSetup(jobId, inputFilePath, stemsDir, failing, afterSetup);
      if ok {
        var stemOutputs;
        ok, stemOutputs := CopyStems(jobId, stems, stemsDir, trackName, failing, afterCopies);
        if ok {
          StartConversion(jobId, failing, afterTranscription);
          var midiFiles;
          ok, midiFiles := TranscribeStems(jobId, stemOutputs, midiDir, failing, tail);
          if ok {
            var finalOutput := midiDir + ["combined.mid"];
            CompletedRecordOf(job, stemsDir, midiDir, trackName);
            ok := Finish(jobId, JobResults(stemOutputs, midiFiles, finalOutput, trackName), failing, job);
          }
        }
      }
      assert log + [] == log;
    }
  }
}
