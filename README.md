# Pipe organ pipeline: the merge engine and the job state machine

This project models the core of a small web application and a command-line script. Together they turn an audio file into a MIDI file for a pipe organ. Demucs splits the audio into four stems: drums, bass, vocals and other. BasicPitch transcribes each stem to MIDI. A merge step then remaps every note onto organ manuals and writes one combined MIDI file.

The model covers:

- **Upload gate** (`uploads.dfy`). `allowed_file` accepts a name when the lower-cased text after its last dot is mp3, wav, m4a or flac. The model also covers the upload route's decision.
- **Organ remap** (`organ_remap.dfy`). This is the stem → (role, program) channel map. Each stem has its own velocity scaling, velocity clamp and pitch clamp, applied to every note.
- **Merge** (`midi_merge.dfy`). `merge_midis` walks the stems in order and skips a stem whose MIDI file is missing. For every source instrument of a present stem it adds one new instrument holding the remapped notes. The loops are imperative methods, each proved against a specification function (`Merged`). The lemmas about that function state the structure of the combined score.
- **Paths** (`paths.dfy`, `stem_paths.dfy`). These model:
  - the Demucs output layout (`separate_stems`);
  - the name BasicPitch writes and the move that follows (`transcribe_to_midi`);
  - the copies of the stems;
  - the command-line `main`'s decision to reuse earlier stems.
- **Worker** (`jobs.dfy`, `registry.dfy`). The worker `process_audio_file` is written as a *script* of actions. `Set(record)` assigns the job's status record. `Call(step)` is an external step that may raise. `Execute(script, failing)` gives what a run does when exactly the steps in `failing` raise: the records written and the steps attempted, in order, with the except-branch after the first raise. `JobRegistry` is a class with the job table `jobs` (`processing_status`). Its methods follow the worker's code step by step. A ghost `log` of events and a ghost `pending` rest of the script prove that `ProcessAudioFile` does exactly what `Execute(Script(job), failing)` says. Lemmas about that function then give:
  - the outcome;
  - the progress schedule;
  - the order of the steps.
- **Routes** (`routes.dfy`). These are the decisions of `get_status`, `results` and `download_file` on the job table. They are linked to the record the worker leaves behind.

Paths are sequences of segments: `os.path.join` appends a segment, `basename` is the last segment and `dirname` is the rest. `ResultsFolder` is `/app/data/results`, written as `["", "app", "data", "results"]`. String case mapping is ASCII only.

`pipeline.py` holds its own copies of `merge_midis` (pipeline.py:52-113), `separate_stems` (pipeline.py:9-29) and `transcribe_to_midi` (pipeline.py:31-50). They are identical to those of `app.py` (app.py:79-140, app.py:37-57, app.py:59-77), so the same members model both. The table cites the `app.py` lines.

Some behaviour of the code is easy to misread:

- **One output instrument per source instrument.** Every source instrument becomes its own destination instrument. The notes of one stem are not pooled into a single track.
- **No queued state.** A job starts directly in `processing` with progress 0.
- **Message and progress are set separately.** They are two assignments, so every checkpoint writes two records: the message first, then the progress. In the transcription loop the order is reversed.
- **Error message.** The message of an error record is `Error: ` followed by the text of the exception. For a failed Demucs or BasicPitch run that text quotes the command line, which holds the audio file's path. The model records which step raised (`ErrorText(step)`).
- **No error when every MIDI file is missing.** The merge then writes an empty score without raising.
- **Unknown stems.** A stem outside the channel map gets the "other" velocity rule and the role "Unknown" with program 0.

## Model

| member | source | states |
|---|---|---|
| Uploads.AllowedFile | app.py:34-35 | accepted exactly when some dot has no dot after it and the lower-cased text after that dot is mp3, wav, m4a or flac |
| Uploads.NoLastDot | app.py:35 | a name without '.' has no position that could start an extension |
| Uploads.LastDotDecides | app.py:35 | the dot `rsplit('.', 1)` splits at is the only dot with no dot after it, so its extension alone decides |
| Uploads.UpperCaseExtensionAccepted | app.py:35 | "x.MP3" is accepted: the extension is lower-cased before the lookup |
| Uploads.BareExtensionRejected | app.py:35 | "mp3" (no dot) is rejected |
| Uploads.InnerExtensionRejected | app.py:35 | "x.mp3.txt" is rejected: only the text after the last dot counts |
| Uploads.UploadDecision | app.py:229-260 | a job starts exactly when there is a file part, its name is non-empty and it passes allowed_file; a missing part or empty name gives "No file selected" |
| Text.LastIndexOf | app.py:35 | None exactly when the character does not occur; otherwise an index holding it with no occurrence after it |
| Text.LastIndexUnique | app.py:35 | an occurrence with none after it is the one LastIndexOf finds |
| Text.Lower | app.py:35 | same length, every character mapped by the ASCII lower-case map |
| Text.Title | app.py:106 | str.title keeps the length and every uncased character; a cased character is upper-cased when it is first or follows an uncased character, and lower-cased when it follows a cased one |
| Text.MixedCaseTitle | app.py:106 | "dRUMS" is title-cased to "Drums" |
| Text.TitleOfLowerWord | app.py:106 | str.title of a lower-case word upper-cases its first letter and keeps the rest |
| Paths.Root | app.py:50 | os.path.splitext(name)[0]: a prefix of the name; when shorter, it ends right before the last dot and some character before that dot is not a dot; when the whole name, no dot without a dot after it has a non-dot before it |
| Paths.LeadingDotKept | app.py:50 | a name whose only dot leads it has no extension: the root of ".mp3" is ".mp3" |
| Paths.RootOfAppendedExtension | app.py:74 | the root of base + "." + ext (ext without dots, base not all dots) is base |
| OrganRemap.ConfigFor | app.py:99 | mapped stems get their channel-map entry; any other stem gets role "Unknown" and program 0 |
| OrganRemap.Clamp | app.py:121-133 | max(lo, min(x, hi)) lies in [lo, hi], is x when x is in range, lo below it and hi above it |
| OrganRemap.TruncDiv | app.py:121 | int() of a quotient truncates toward zero: for a ≥ 0 the quotient q is ≥ 0 with q·b ≤ a < q·b + b; for a < 0, q ≤ 0 with q·b − b < a ≤ q·b |
| OrganRemap.ScaleVelocity | app.py:121-133 | int(velocity · tenths / 10): the largest r with 10·r ≤ velocity · tenths for a non-negative product, the smallest r with velocity · tenths ≤ 10·r for a negative one; a factor of at most one never raises a non-negative velocity and keeps it non-negative |
| OrganRemap.RemapNote | app.py:110-133 | start and end copied; the velocity is the stem's scaled velocity (7, 8, 9 or 8 tenths) clamped to its range and the pitch is clamped to the stem's pitch range: drums velocity in [30,60] and pitch in [36,60]; bass [50,80] and [36,72]; vocals [60,90] and [60,96]; every other stem velocity in [40,85] with the pitch unchanged; an in-range pitch is kept |
| OrganRemap.PitchClampIdempotent | app.py:122-130 | remapping an already remapped note leaves its pitch as it is |
| OrganRemap.RemapExamples | app.py:119-133 | worked values: drums (100, 80) → (60, 60), bass (40, 90) → (50, 72), vocals (70, 50) → (63, 60), other (100, 20) → (80, 20), unknown (127, 5) → (85, 5) |
| OrganRemap.NewInstrument | app.py:103-107 | program from the channel map, is_drum exactly for "drums", no notes yet |
| OrganRemap.RemapInstrument | app.py:101-137 | one destination instrument per source instrument: same number of notes, note k the remap of source note k, program/name/is_drum from the stem |
| OrganRemap.LowerStemName | app.py:106 | the instrument name is role + " - " + the stem name with its first letter upper-cased |
| OrganRemap.DrumsInstrumentName | app.py:86-107 | the drums stem's instruments are named "Pedal - Drums" |
| OrganRemap.UnmappedInstrumentName | app.py:99-107 | an unmapped stem "piano" gives "Unknown - Piano" |
| MidiMerge.Contribution | app.py:98-137 | a stem file adds one instrument per source instrument (none when missing), the j-th being the remap of source instrument j |
| MidiMerge.Present | app.py:93-96 | the stems whose MIDI file exists: every entry is a present stem of the input, and every present stem of the input is kept |
| MidiMerge.PresentAppend | app.py:93-96 | filtering keeps the input order: the present stems of a + b are those of a followed by those of b |
| MidiMerge.MergeMidis | app.py:93-137 | the merge loop's combined instruments equal Merged(midi_files) |
| MidiMerge.AddStem | app.py:101-137 | the loop over one stem's instruments appends exactly that stem's contribution |
| MidiMerge.CopyNotes | app.py:103-135 | the note loop builds exactly RemapInstrument of the source instrument |
| MidiMerge.MergedSnoc | app.py:93-137 | one more stem appends its contribution at the end |
| MidiMerge.MergedAppend | app.py:93-137 | merging two runs of stems concatenates their instruments |
| MidiMerge.Merged | app.py:93-137 | the combined score, stem after stem: one remapped destination instrument per source instrument of every present stem, so its length is the instrument count of the present stems |
| MidiMerge.MissingFileSkipped | app.py:94-96 | inserting a stem whose file is missing anywhere changes nothing |
| MidiMerge.OnlyPresentStemsCount | app.py:94-96 | merging only the present stems gives the same score |
| MidiMerge.MergedPosition | app.py:93-137 | instrument j of stem i sits at (instruments of the stems before i) + j and is the remap of that source instrument: input order kept |
| MidiMerge.MergedAround | app.py:93-137 | the combined score is the stems before i, then stem i's contribution, then the stems after |
| MidiMerge.MergedOrigin | app.py:93-137 | every combined instrument is the remap of some source instrument of some present stem |
| MidiMerge.MergedDrumFlag | app.py:105 | a combined instrument is a drum track exactly when it came from the "drums" stem |
| StemPaths.SeparateStems | app.py:37-57 | exactly the four stems drums, bass, vocals, other in that order |
| StemPaths.SeparatedStemLayout | app.py:49-57 | each stem file is in <out_dir>/htdemucs/<input name without extension> and is named <stem>.wav, whose root is the stem name |
| StemPaths.GeneratedMidi | app.py:74-75 | BasicPitch's file sits in the target's folder and is named <audio root>_basic_pitch.mid |
| StemPaths.TranscribeMove | app.py:73-77 | a move happens exactly when <audio root>_basic_pitch.mid exists next to the target and is not the target; it moves exactly that file to the target, within one folder |
| StemPaths.GeneratedFromCopy | app.py:74-77 | BasicPitch's file for <base>.wav is <base>_basic_pitch.mid in the MIDI folder, distinct from <stem>.mid when the stem is no longer than base |
| StemPaths.CopiedStemTranscription | app.py:181-184 | for the worker's stem copies, BasicPitch writes <track>_<stem>_basic_pitch.mid, which is never the target, so it is always moved |
| StemPaths.SeparatedStemTranscription | pipeline.py:167-172 | for Demucs's own output, BasicPitch writes <stem>_basic_pitch.mid, again not the target |
| StemPaths.StemCopyPath | app.py:172 | a stem copy is <stems_dir>/<track>_<stem>.wav |
| StemPaths.MidiPath | app.py:182 | a MIDI target is <midi_dir>/<stem>.mid |
| StemPaths.StemCopies | app.py:170-174 | one copy per stem, in stem order, each in the stems folder and named <track>_<stem>.wav |
| StemPaths.MainStems | pipeline.py:136-153 | main transcribes one file per stem, in stem order |
| StemPaths.MainReusesOnlyCompleteStems | pipeline.py:136-153 | main reuses the earlier copies exactly when all four <track>_<stem>.wav exist, and otherwise transcribes Demucs's output for the input in stems/<track> |
| StemPaths.MidiTargets | app.py:180-184 | midi_files: one <midi_dir>/<stem>.mid per stem, in the same order |
| StemPaths.PlanMain | pipeline.py:128-172 | the stems main transcribes are MainStems and the midi_files its loop fills are their MIDI targets |
| Jobs.ErrorRecord | app.py:216-221 | the except-branch's record: status error, progress 0, no results, the message naming what raised |
| Jobs.CompletedRecordContents | app.py:202-213 | status completed, progress 100, the success message, each stem paired with <stems_dir>/<track>_<stem>.wav and <midi_dir>/<stem>.mid in stem order, and <midi_dir>/combined.mid |
| Jobs.StemProgress | app.py:187 | the progress after each of the four transcriptions is above 50 and at most 80, and 80 after the last |
| Jobs.ConvertingUpdates | app.py:187-189 | the progress and message updates after stem i take the record from ConvertingRecord(i) to ConvertingRecord(i + 1) |
| Jobs.FirstFailing | app.py:146-215 | the first call that raises: no call before it raises, and it is a call that raises unless it is the end of the script |
| Jobs.Script | app.py:146-213 | the worker for one job as a list of record writes and external calls: the set-up (starting record, the folders, the separating record at progress 0 then 20, Demucs), a copy per stem, the converting record at progress 20 then 50, one transcription round per stem, the merge part (merging record at 80 then 90, the merge, removing the upload) and the completed record; it starts with the starting record and ends with the completed record |
| Jobs.Execute | app.py:146-224 | a run of a script performs its actions in order until the first external call that raises, then writes the error record and removes the upload (the except branch); it starts with the script's first action and has at most two events more than the script |
| Jobs.ExecuteShape | app.py:146-224 | a run acts as if nothing raised up to the first failing step; that step is attempted, the error record written, the upload removed, and nothing after it runs |
| Jobs.ExecuteTrace | app.py:146-213 | a script none of whose steps raises runs every action in order |
| Jobs.ExecuteAppend | app.py:146-224 | the second part of a script runs only when the first completes |
| Jobs.CompletesIff | app.py:146-224 | a script completes exactly when none of its calls raises |
| Jobs.CompletesAppend | app.py:146-224 | a concatenation completes exactly when both parts do |
| Jobs.InvokedAreCalled | app.py:146-224 | apart from the clean-up in the except-branch, a run attempts only steps its script calls |
| Jobs.LastWriteAppend | app.py:146-224 | the last record of a concatenated run comes from the second part when that part writes one |
| Jobs.ScriptSchedule | app.py:147-213 | when nothing raises the processing records carry progress 0, 0, 20, 20, 50, 57, 57, 65, 65, 72, 72, 80, 80, 80, 90 |
| Jobs.TranscribeProgresses | app.py:180-189 | the transcription loop writes each stem's progress 50 + (i + 1) * 30 // 4 twice |
| Jobs.ExecutePrefix | app.py:146-224 | a run that raises writes an initial part of the progress values the run without a raise writes |
| Jobs.RunSchedule | app.py:146-224 | whatever raises, the progress values written are an initial part of that schedule |
| Jobs.FullScheduleOrdered | app.py:147-193 | the schedule never goes down and only holds 0, 20, 50, 57, 65, 72, 80, 90 |
| Jobs.ProgressNonDecreasing | app.py:147-193 | while processing, progress only takes those checkpoint values and never decreases, whichever steps raise |
| Jobs.ScriptCalls | app.py:146-213 | the worker's external steps in order: the folders, Demucs, the copies of drums, bass, vocals, other, their transcriptions in the same order, the merge, removing the upload |
| Jobs.CopyCalls | app.py:171-174 | the copy loop copies each stem from the i-th on, in order |
| Jobs.TranscribeCalls | app.py:181-189 | the transcription loop transcribes each stem from the i-th on, in order |
| Jobs.StepCalls | app.py:183 | one round of the loop calls BasicPitch once, for its own stem |
| Jobs.Outcome | app.py:146-224 | a job never ends processing; it ends completed exactly when its script completes, and an error names a step that raised and that the worker calls |
| Jobs.ExecuteLast | app.py:202-221 | a run of a script ending with a record write ends with that record when nothing raises, and with the error record of the first step that raised otherwise |
| Jobs.RunOutcome | app.py:202-221 | the last record a run writes is its outcome |
| Jobs.SetupCompletes | app.py:160-167 | the set-up completes exactly when neither the folders nor Demucs raise |
| Jobs.CopyCompletes | app.py:171-174 | the copy loop completes exactly when no remaining stem's copy raises; it only copies |
| Jobs.TranscribeCompletes | app.py:181-189 | the transcription loop completes exactly when no remaining stem's transcription raises |
| Jobs.StepCompletes | app.py:183 | one round of the loop completes exactly when its BasicPitch call does not raise |
| Jobs.FinishCompletes | app.py:192-213 | the end of the worker completes exactly when neither the merge nor removing the upload raises |
| Jobs.CompletesIffNoStepRaises | app.py:146-224 | a job completes exactly when none of its steps raises: folders, Demucs, the four copies, the four transcriptions, the merge, the removal of the upload |
| Jobs.CompletedIffNoStepRaises | app.py:202-221 | the outcome is completed with progress 100 and all four stems and MIDI files exactly when the run completes; otherwise it is an error with progress 0 and no results |
| Jobs.MergeNotBefore | app.py:176-196 | the merge is not called before the transcriptions are done |
| Jobs.NoMergeAfterTranscriptionFailure | app.py:183 | when a transcription raises, the merge is never attempted and the job ends in error |
| Registry.OnlyEntryChangedIsUpdate | app.py:147 | "only the job's own entry changed" is the same as one update of the table at that id |
| Registry.CompletedRecordOf | app.py:155-213 | the completed record built from the worker's own paths is CompletedRecord(job) |
| Registry.JobRegistry.constructor | app.py:32 | the job table starts empty |
| Registry.JobRegistry.Put | app.py:147-152 | the job's entry becomes the record, no other entry changes, and the record is the next action of the script |
| Registry.JobRegistry.SetProgress | app.py:165 | only the progress field of the job's record changes |
| Registry.JobRegistry.SetMessage | app.py:164 | only the message field of the job's record changes |
| Registry.JobRegistry.Attempt | app.py:215-224 | a step succeeds exactly when it is not in the failing set; a failure writes the error record naming the step and ends the script |
| Registry.JobRegistry.Fail | app.py:215-224 | the except-branch writes the error record and removes the upload |
| Registry.JobRegistry.RunSetup | app.py:147-167 | the first record, the folders, the separating message and progress 20, then Demucs; on success the stems are SeparateStems |
| Registry.JobRegistry.CopyStems | app.py:169-174 | on success stem_outputs is StemCopies and the table is unchanged |
| Registry.JobRegistry.StartConversion | app.py:177-178 | the record becomes "Converting stems to MIDI..." at progress 50 |
| Registry.JobRegistry.TranscribeOne | app.py:181-189 | one round: BasicPitch, then progress 50 + (i + 1) * 30 // 4, then the stem's message; the MIDI target is <midi_dir>/<stem>.mid |
| Registry.JobRegistry.TranscribeStems | app.py:180-189 | on success midi_files is MidiTargets of the copies and the record is that after the last stem |
| Registry.JobRegistry.Finish | app.py:191-213 | merging message, progress 90, the merge, removing the upload, then the completed record |
| Registry.JobRegistry.ProcessAudioFile | app.py:142-224 | the worker does exactly what Execute(Script(job), failing) says, only the job's entry changes, and it ends as Outcome(job, failing) |
| Routes.GetStatus | app.py:267-272 | 404 exactly for an unknown job; otherwise 200 with the job's record |
| Routes.Results | app.py:274-285 | unknown job → redirect to the index; a job that is not completed → redirect to the processing page; otherwise the results are rendered with the record |
| Routes.FolderOf | app.py:297-302 | only "stem" and "midi" name a folder |
| Routes.Download | app.py:287-308 | the checks in order: 404 "Job not found", 400 "Job not completed", 400 "Invalid file type", 404 "File not found"; a file is sent exactly when all pass, and it is <results>/<job>/<stems or midi>/<filename> |
| Routes.RoutesAfterRun | app.py:267-285 | after the worker, the status API returns the outcome, and the results page renders exactly when no step raised |
| Routes.FailedJobRefused | app.py:287-293 | for a job where some step raised, every download gives 400 "Job not completed" and the results page redirects to processing |
| Routes.RecordedStemDownloadable | app.py:295-308 | every stem copy a completed job records is sent by a "stem" download of its name while it exists, and gives 404 once gone |
| Routes.RecordedMidiDownloadable | app.py:295-308 | the same for every per-stem MIDI file and combined.mid with a "midi" download |

## Left out

- Demucs, BasicPitch, `shutil.copy2`, `shutil.move`, `os.makedirs` and `os.remove` are not modelled as operations. They are external programs and file I/O. Each appears as a step that succeeds or raises, chosen by the `failing` set. A file's existence is a set of existing paths.
- Parsing and writing MIDI files with pretty_midi is left out. A MIDI file is its list of instruments, and a missing file is `None`.
- Flask routing, templates, `flash`, `send_file`, `secure_filename`, `uuid` and the request size limit are left out. The routes are modelled as their decisions.
- The background thread and concurrent access to `processing_status` are left out. One worker is modelled at a time.
- Timestamps (`datetime.now()`) are left out.
- The two `os.makedirs` calls (app.py:160-161) are one step, `MakeDirs`. A raise in either one is a raise of that step, and the model cannot say that the stems folder was created before the MIDI folder failed.
- Python's exception text is left out. An error record names the step that raised (`ErrorText(step)`) instead of `str(e)`.
- OrganRemap.ScaleVelocity: the velocity factor is the exact rational 7/10, 8/10 or 9/10, not the float 0.7, 0.8 or 0.9. The float 0.7 is slightly below 7/10, so Python's `int(v * 0.7)` can come out one lower when v is a multiple of 10. The rational rule is taken as the intended one.
- Note start and end times are floats. They are only copied, and `real` stands in for them.
- Registry.JobRegistry.Fail: the clean-up in the except-branch is always recorded as attempted. The source first checks that the upload still exists, and that check is not modelled.
- Case mapping (`lower`, `title`) is ASCII only. Unicode case rules are not modelled.
- Download paths are not normalised. A file name such as `..` is joined as a segment, as `os.path.join` does.
- The command-line `main`'s argument handling and printing are left out, and so is the missing-input exit. Its final loop calls `merge_midis` inside the loop that prints the MIDI files, so the merge runs once per stem. Every run writes the same file, and that repetition is not modelled.
