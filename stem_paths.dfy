/**
 * Where the separated stems and the transcribed MIDI files live:
 * separate_stems (the Demucs output layout), transcribe_to_midi (the
 * BasicPitch output name and the move to the requested path) and the
 * stems-reuse decision of the command-line pipeline's main.
 */
module StemPaths {
  import opened Wrappers
  import opened Text
  import opened Paths

  /** The four stems, in the order of the dictionaries the source builds. */
  const Stems: seq<string> := ["drums", "bass", "vocals", "other"]

  /** A stem name carries no dot and some character that is not a dot. */
  lemma StemNamesPlain(i: nat)
    requires i < |Stems|
    ensures '.' !in Stems[i] && HasNonDotBefore(Stems[i], |Stems[i]|)
  {
    assert Stems[i][0] != '.';
  }

  /** separate_stems: <out_dir>/htdemucs/<input name without extension>/<stem>.wav, per stem. */
  function SeparateStems(inputPath: Path, outDir: Path): (r: seq<(string, Path)>)
    ensures |r| == |Stems|
    ensures forall i :: 0 <= i < |r| ==> r[i].0 == Stems[i]
  {
    var trackDir := outDir + ["htdemucs", Root(Basename(inputPath))];
    seq(|Stems|, i requires 0 <= i < |Stems| => (Stems[i], trackDir + [Stems[i] + ".wav"]))
  }

  /**
   * Each separated stem file sits in the track's folder under htdemucs and
   * its own name without extension is the stem name.
   */
  lemma SeparatedStemLayout(inputPath: Path, outDir: Path, i: nat)
    requires i < |Stems|
    ensures var p := SeparateStems(inputPath, outDir)[i].1;
            Dirname(p) == outDir + ["htdemucs", Root(Basename(inputPath))]
            && Basename(p) == Stems[i] + ".wav"
            && Root(Basename(p)) == Stems[i]
  {
    var p := SeparateStems(inputPath, outDir)[i].1;
    assert Basename(p) == Stems[i] + "." + "wav";
    StemNamesPlain(i);
    RootOfAppendedExtension(Stems[i], "wav");
  }

  /** The file BasicPitch writes for an audio file: <audio name without extension>_basic_pitch.mid next to the target. */
  function GeneratedMidi(audioPath: Path, midiPath: Path): (r: Path)
    ensures Dirname(r) == Dirname(midiPath)
    ensures Basename(r) == Root(Basename(audioPath)) + "_basic_pitch.mid"
  {
    Dirname(midiPath) + [Root(Basename(audioPath)) + "_basic_pitch.mid"]
  }

  /**
   * transcribe_to_midi after BasicPitch has run: the move it performs, if
   * any. `existing` is the set of paths that exist at that moment.
   */
  function TranscribeMove(audioPath: Path, midiPath: Path, existing: set<Path>): (r: Option<(Path, Path)>)
    ensures r.Some? <==> GeneratedMidi(audioPath, midiPath) in existing && GeneratedMidi(audioPath, midiPath) != midiPath
    ensures r.Some? ==> r.value == (GeneratedMidi(audioPath, midiPath), midiPath)
    ensures r.Some? ==> Dirname(r.value.0) == Dirname(r.value.1)
  {
    var generated := GeneratedMidi(audioPath, midiPath);
    if generated in existing && generated != midiPath then Some((generated, midiPath)) else None
  }

  /** The copy of a stem in the job's stems folder: <stems_dir>/<track>_<stem>.wav. */
  function StemCopyPath(stemsDir: Path, trackName: string, stem: string): (r: Path)
    ensures Dirname(r) == stemsDir
    ensures Basename(r) == trackName + "_" + stem + ".wav"
  {
    stemsDir + [trackName + "_" + stem + ".wav"]
  }

  /** The per-stem MIDI target: <midi_dir>/<stem>.mid. */
  function MidiPath(midiDir: Path, stem: string): (r: Path)
    ensures Dirname(r) == midiDir
    ensures Basename(r) == stem + ".mid"
  {
    midiDir + [stem + ".mid"]
  }

  /**
   * For the web worker's layout (stem copy in, <stem>.mid out) BasicPitch's
   * file is <track>_<stem>_basic_pitch.mid in the MIDI folder, which is never
   * the target, so it is moved whenever it exists.
   */
  lemma CopiedStemTranscription(stemsDir: Path, midiDir: Path, trackName: string, i: nat)
    requires i < |Stems|
    ensures var audio, target := StemCopyPath(stemsDir, trackName, Stems[i]), MidiPath(midiDir, Stems[i]);
            GeneratedMidi(audio, target) == midiDir + [trackName + "_" + Stems[i] + "_basic_pitch.mid"]
            && GeneratedMidi(audio, target) != target
  {
    var stem := Stems[i];
    var base := trackName + "_" + stem;
    assert base[|trackName|] == '_';
    assert HasNonDotBefore(base, |base|);
    assert trackName + "_" + stem + ".wav" == base + ".wav";
    GeneratedFromCopy(stemsDir, midiDir, base, stem);
  }

  /** BasicPitch's name for <base>.wav is <base>_basic_pitch.mid, never <stem>.mid when the stem is no longer than the base. */
  lemma GeneratedFromCopy(stemsDir: Path, midiDir: Path, base: string, stem: string)
    requires HasNonDotBefore(base, |base|) && |stem| <= |base|
    ensures GeneratedMidi(stemsDir + [base + ".wav"], midiDir + [stem + ".mid"]) == midiDir + [base + "_basic_pitch.mid"]
    ensures midiDir + [base + "_basic_pitch.mid"] != midiDir + [stem + ".mid"]
  {
    var audio, target := stemsDir + [base + ".wav"], midiDir + [stem + ".mid"];
    assert base + ".wav" == base + "." + "wav";
    RootOfAppendedExtension(base, "wav");
    assert Basename(audio) == base + ".wav";
    assert Dirname(target) == midiDir;
    var generated := midiDir + [base + "_basic_pitch.mid"];
    assert generated[|midiDir|] == base + "_basic_pitch.mid";
    assert target[|midiDir|] == stem + ".mid";
    assert |base + "_basic_pitch.mid"| != |stem + ".mid"|;
  }

  /**
   * For Demucs's own output (<stem>.wav), BasicPitch's file is
   * <stem>_basic_pitch.mid, again different from <stem>.mid.
   */
  lemma SeparatedStemTranscription(inputPath: Path, outDir: Path, midiDir: Path, i: nat)
    requires i < |Stems|
    ensures var audio, target := SeparateStems(inputPath, outDir)[i].1, MidiPath(midiDir, Stems[i]);
            GeneratedMidi(audio, target) == midiDir + [Stems[i] + "_basic_pitch.mid"]
            && GeneratedMidi(audio, target) != target
  {
    SeparatedStemLayout(inputPath, outDir, i);
    var target := MidiPath(midiDir, Stems[i]);
    assert Dirname(target) == midiDir;
    assert Basename(target) == Stems[i] + ".mid";
  }

  /** The copies of the four stems, <stems_dir>/<track>_<stem>.wav (stem_outputs in the worker, existing_stems in main). */
  function StemCopies(stemsDir: Path, trackName: string): (r: seq<(string, Path)>)
    ensures |r| == |Stems|
    ensures forall i :: 0 <= i < |r| ==> r[i].0 == Stems[i]
    ensures forall i :: 0 <= i < |r| ==>
              Dirname(r[i].1) == stemsDir && Basename(r[i].1) == trackName + "_" + Stems[i] + ".wav"
  {
    seq(|Stems|, i requires 0 <= i < |Stems| => (Stems[i], StemCopyPath(stemsDir, trackName, Stems[i])))
  }

  /** Every path of the list exists. */
  predicate AllExist(stems: seq<(string, Path)>, existing: set<Path>)
  {
    forall i :: 0 <= i < |stems| ==> stems[i].1 in existing
  }

  /** The folders main works in: stems/<track> and midi_files/<track>. */
  function TrackName(inputFile: Path): string
  {
    Root(Basename(inputFile))
  }

  /** The stems main transcribes: the earlier copies when all four exist, otherwise Demucs's output. */
  function MainStems(inputFile: Path, existing: set<Path>): (r: seq<(string, Path)>)
    ensures |r| == |Stems|
    ensures forall i :: 0 <= i < |r| ==> r[i].0 == Stems[i]
  {
    var track := TrackName(inputFile);
    var stemsDir := ["stems", track];
    var reuse := StemCopies(stemsDir, track);
    if AllExist(reuse, existing) then reuse else SeparateStems(inputFile, stemsDir)
  }

  /**
   * main reuses the stems exactly when all four <track>_<stem>.wav files
   * exist; either way it transcribes one file per stem, in stem order.
   */
  lemma MainReusesOnlyCompleteStems(inputFile: Path, existing: set<Path>)
    ensures var track := TrackName(inputFile);
            var stemsDir := ["stems", track];
            && (MainStems(inputFile, existing) == StemCopies(stemsDir, track)
                <==> forall s :: s in Stems ==> StemCopyPath(stemsDir, track, s) in existing)
            && (!AllExist(StemCopies(stemsDir, track), existing)
                ==> MainStems(inputFile, existing) == SeparateStems(inputFile, stemsDir))
  {
    var track := TrackName(inputFile);
    var stemsDir := ["stems", track];
    var reuse := StemCopies(stemsDir, track);
    assert AllExist(reuse, existing) <==> forall s :: s in Stems ==> StemCopyPath(stemsDir, track, s) in existing by {
      if forall s :: s in Stems ==> StemCopyPath(stemsDir, track, s) in existing {
        forall i | 0 <= i < |reuse| ensures reuse[i].1 in existing {
          assert Stems[i] in Stems;
        }
      }
      if AllExist(reuse, existing) {
        forall s | s in Stems ensures StemCopyPath(stemsDir, track, s) in existing {
          var i :| 0 <= i < |Stems| && Stems[i] == s;
          assert reuse[i].1 in existing;
        }
      }
    }
    if !AllExist(reuse, existing) {
      assert |SeparateStems(inputFile, stemsDir)[0].1| != |reuse[0].1|;
    }
  }

  /** midi_files: the per-stem MIDI targets for a list of stems, in the same order. */
  function MidiTargets(stems: seq<(string, Path)>, midiDir: Path): (r: seq<(string, Path)>)
    ensures |r| == |stems|
    ensures forall i :: 0 <= i < |r| ==> r[i] == (stems[i].0, MidiPath(midiDir, stems[i].0))
  {
    seq(|stems|, i requires 0 <= i < |stems| => (stems[i].0, MidiPath(midiDir, stems[i].0)))
  }

  /**
   * The paths main works with: which stems it transcribes and the midi_files
   * dictionary its transcription loop fills. `existing` holds the paths that
   * exist when main starts.
   */
  method PlanMain(inputFile: Path, existing: set<Path>) returns (stems: seq<(string, Path)>, midiFiles: seq<(string, Path)>)
    ensures stems == MainStems(inputFile, existing)
    ensures midiFiles == MidiTargets(stems, ["midi_files", TrackName(inputFile)])
  {
    var trackName := TrackName(inputFile);
    var stemsDir := ["stems", trackName];
    var midiDir := ["midi_files", trackName];
    var existingStems := StemCopies(stemsDir, trackName);
    var stemsExist := AllExist(existingStems, existing);
    if stemsExist {
      stems := existingStems;
    } else {
      stems := SeparateStems(inputFile, stemsDir);
    }
    midiFiles := [];
    var i := 0;
    while i < |stems|
      invariant 0 <= i <= |stems|
      invariant midiFiles == MidiTargets(stems[..i], midiDir)
    {
      midiFiles := midiFiles + [(stems[i].0, MidiPath(midiDir, stems[i].0))];
      i := i + 1;
    }
    assert stems[..i] == stems;
  }
}
