/**
 * The three routes that read the job table: the status API, the results
 * page and file downloads. Each is a decision on the table (and, for a
 * download, on which files exist); what they answer for a job follows from
 * the record the worker leaves behind.
 */
module Routes {
  import opened Wrappers
  import opened Paths
  import opened StemPaths
  import opened Jobs

  /** get_status: 404 {'error': 'Job not found'}, or the job's record as JSON with 200. */
  datatype StatusReply = StatusReply(code: int, record: Option<JobRecord>)

  function GetStatus(jobs: map<string, JobRecord>, jobId: string): (r: StatusReply)
    ensures r.code == 404 <==> jobId !in jobs
    ensures r.code == 404 || r.code == 200
    ensures r.code == 200 ==> jobId in jobs && r.record == Some(jobs[jobId])
    ensures r.code == 404 ==> r.record.None?
  {
    if jobId !in jobs then StatusReply(404, None) else StatusReply(200, Some(jobs[jobId]))
  }

  /** What the results page answers. */
  datatype ResultsReply =
    | RedirectToIndex            // flash 'Job not found'
    | RedirectToProcessing       // flash 'Job not completed yet'
    | RenderResults(record: JobRecord)

  function Results(jobs: map<string, JobRecord>, jobId: string): (r: ResultsReply)
    ensures r == RedirectToIndex <==> jobId !in jobs
    ensures r == RedirectToProcessing <==> jobId in jobs && jobs[jobId].status != Completed
    ensures r.RenderResults? <==> jobId in jobs && jobs[jobId].status == Completed
    ensures r.RenderResults? ==> r.record == jobs[jobId]
  {
    if jobId !in jobs then RedirectToIndex
    else if jobs[jobId].status != Completed then RedirectToProcessing
    else RenderResults(jobs[jobId])
  }

  /** What a download answers: an error text with its status code, or the file as an attachment. */
  datatype DownloadReply = Refuse(code: int, text: string) | SendFile(path: Path)

  /** The folder of the job directory a file type is served from; other types are refused. */
  function FolderOf(fileType: string): (r: Option<string>)
    ensures r.Some? <==> fileType == "stem" || fileType == "midi"
  {
    if fileType == "stem" then Some("stems")
    else if fileType == "midi" then Some("midi")
    else None
  }

  /**
   * download_file. `existing` is the set of paths that exist when the request
   * arrives. The checks run in order: the job, its status, the file type,
   * the file.
   */
  function Download(jobs: map<string, JobRecord>, existing: set<Path>, jobId: string, fileType: string, filename: string)
    : (r: DownloadReply)
    ensures jobId !in jobs ==> r == Refuse(404, "Job not found")
    ensures jobId in jobs && jobs[jobId].status != Completed ==> r == Refuse(400, "Job not completed")
    ensures (jobId in jobs && jobs[jobId].status == Completed && FolderOf(fileType).None?)
              ==> r == Refuse(400, "Invalid file type")
    ensures (&& jobId in jobs && jobs[jobId].status == Completed && FolderOf(fileType).Some?
             && ResultsFolder + [jobId, FolderOf(fileType).value, filename] !in existing)
              ==> r == Refuse(404, "File not found")
    ensures r.SendFile? <==>
              && jobId in jobs && jobs[jobId].status == Completed && FolderOf(fileType).Some?
              && ResultsFolder + [jobId, FolderOf(fileType).value, filename] in existing
    ensures r.SendFile? ==> r.path == ResultsFolder + [jobId, FolderOf(fileType).value, filename]
    ensures r.Refuse? ==> (r.code == 404 || r.code == 400)
  {
    if jobId !in jobs then Refuse(404, "Job not found")
    else if jobs[jobId].status != Completed then Refuse(400, "Job not completed")
    else
      match FolderOf(fileType)
      case None => Refuse(400, "Invalid file type")
      case Some(folder) =>
        var jobDir := ResultsFolder + [jobId];
        var filePath := jobDir + [folder, filename];
        assert filePath == ResultsFolder + [jobId, folder, filename];
        if filePath !in existing then Refuse(404, "File not found") else SendFile(filePath)
  }

  /**
   * After the worker has run, the status API returns the outcome of the run,
   * and the results page renders exactly when no step raised.
   */
  lemma RoutesAfterRun(jobs: map<string, JobRecord>, job: JobInput, failing: set<Step>)
    requires job.jobId in jobs && jobs[job.jobId] == Outcome(job, failing)
    ensures GetStatus(jobs, job.jobId) == StatusReply(200, Some(Outcome(job, failing)))
    ensures Results(jobs, job.jobId).RenderResults? <==>
              && MakeDirs !in failing && Separate !in failing
              && (forall s :: s in Stems ==> CopyStem(s) !in failing && Transcribe(s) !in failing)
              && Merge !in failing && RemoveUpload !in failing
  {
    CompletedIffNoStepRaises(job, failing);
    CompletesIffNoStepRaises(job, failing);
  }

  /**
   * A job whose worker raised is never downloadable: every download request
   * for it is refused with 400, and its results page keeps redirecting to
   * the processing page.
   */
  lemma FailedJobRefused(jobs: map<string, JobRecord>, existing: set<Path>, job: JobInput, failing: set<Step>,
                         fileType: string, filename: string)
    requires job.jobId in jobs && jobs[job.jobId] == Outcome(job, failing)
    requires || MakeDirs in failing || Separate in failing
             || (exists s :: s in Stems && (CopyStem(s) in failing || Transcribe(s) in failing))
             || Merge in failing || RemoveUpload in failing
    ensures Download(jobs, existing, job.jobId, fileType, filename) == Refuse(400, "Job not completed")
    ensures Results(jobs, job.jobId) == RedirectToProcessing
  {
    CompletedIffNoStepRaises(job, failing);
    CompletesIffNoStepRaises(job, failing);
  }

  /** The path under the job's folder that a download of `filename` from `folder` reads. */
  lemma DownloadPathOf(jobId: string, folder: string, filename: string)
    ensures ResultsFolder + [jobId, folder] + [filename] == ResultsFolder + [jobId, folder, filename]
  {
  }

  /**
   * Every stem copy a completed job records is what a "stem" download of
   * its file name sends, as long as the file is still there, and is
   * answered 404 "File not found" once it is gone.
   */
  lemma RecordedStemDownloadable(jobs: map<string, JobRecord>, existing: set<Path>, job: JobInput, i: nat)
    requires job.jobId in jobs && jobs[job.jobId] == CompletedRecord(job) && i < |Stems|
    ensures var p := CompletedRecord(job).results.value.stems[i].1;
            Download(jobs, existing, job.jobId, "stem", Basename(p)) == (if p in existing then SendFile(p) else Refuse(404, "File not found"))
  {
    var name := TrackNameOf(job) + "_" + Stems[i] + ".wav";
    var p := StemCopies(StemsDir(job), TrackNameOf(job))[i].1;
    assert p == StemsDir(job) + [name];
    DownloadPathOf(job.jobId, "stems", name);
  }

  /**
   * Every per-stem MIDI file and the combined MIDI file a completed job
   * records are what a "midi" download of their file names sends, as long as
   * they are still there.
   */
  lemma RecordedMidiDownloadable(jobs: map<string, JobRecord>, existing: set<Path>, job: JobInput, i: nat)
    requires job.jobId in jobs && jobs[job.jobId] == CompletedRecord(job) && i < |Stems|
    ensures var p := CompletedRecord(job).results.value.midiFiles[i].1;
            Download(jobs, existing, job.jobId, "midi", Basename(p)) == (if p in existing then SendFile(p) else Refuse(404, "File not found"))
    ensures var p := CompletedRecord(job).results.value.combinedMidi;
            Download(jobs, existing, job.jobId, "midi", Basename(p)) == (if p in existing then SendFile(p) else Refuse(404, "File not found"))
  {
    var stems := StemOutputs(job);
    assert stems[i].0 == Stems[i];
    var p := MidiTargets(stems, MidiDir(job))[i].1;
    assert p == MidiDir(job) + [Stems[i] + ".mid"];
    DownloadPathOf(job.jobId, "midi", Stems[i] + ".mid");
    DownloadPathOf(job.jobId, "midi", "combined.mid");
  }
}
