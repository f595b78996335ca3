/**
 * merge_midis: walk the stems in the order of the midi_files mapping, skip a
 * stem whose MIDI file does not exist, and add one remapped destination
 * instrument per source instrument of every present stem.
 */
module MidiMerge {
  import opened Wrappers
  import opened OrganRemap

  /** One entry of midi_files: the stem name and its parsed MIDI file, None when the file does not exist. */
  datatype StemFile = StemFile(stem: string, score: Option<Score>)

  /** The number of source instruments a stem file brings. */
  function SourceCount(f: StemFile): nat
  {
    match f.score
    case None => 0
    case Some(sc) => |sc|
  }

  /** The instruments one stem file adds to the combined score. */
  function Contribution(f: StemFile): (r: Score)
    ensures |r| == SourceCount(f)
    ensures f.score.Some? ==> forall j :: 0 <= j < |r| ==> r[j] == RemapInstrument(f.stem, f.score.value[j])
  {
    match f.score
    case None => []
    case Some(sc) => seq(|sc|, j requires 0 <= j < |sc| => RemapInstrument(f.stem, sc[j]))
  }

  /**
   * The instruments of the combined score, stem after stem: one destination
   * instrument per source instrument of every present stem.
   */
  function Merged(files: seq<StemFile>): (r: Score)
    ensures |r| == InstrumentCount(files)
  {
    if files == [] then [] else Merged(files[..|files| - 1]) + Contribution(files[|files| - 1])
  }

  /** The number of source instruments over all present stems. */
  function InstrumentCount(files: seq<StemFile>): nat
  {
    if files == [] then 0 else InstrumentCount(files[..|files| - 1]) + SourceCount(files[|files| - 1])
  }

  /** The stem files that exist, in their order. */
  function Present(files: seq<StemFile>): (r: seq<StemFile>)
    ensures forall k :: 0 <= k < |r| ==> r[k].score.Some? && r[k] in files
    ensures forall k :: 0 <= k < |files| && files[k].score.Some? ==> files[k] in r
  {
    if files == [] then []
    else
      var init, last := files[..|files| - 1], files[|files| - 1];
      assert forall k :: 0 <= k < |init| ==> init[k] == files[k];
      Present(init) + (if last.score.Some? then [last] else [])
  }

  /** Filtering two runs of stems one after the other keeps each run's present stems, in order. */
  lemma {:induction false} PresentAppend(a: seq<StemFile>, b: seq<StemFile>)
    ensures Present(a + b) == Present(a) + Present(b)
  {
    if b == [] {
      assert a + b == a;
    } else {
      var b', last := b[..|b| - 1], b[|b| - 1];
      assert (a + b)[..|a + b| - 1] == a + b';
      assert (a + b)[|a + b| - 1] == last;
      PresentAppend(a, b');
      var tail := if last.score.Some? then [last] else [];
      Assoc(Present(a), Present(b'), tail);
    }
  }

  /** The merge loop: combined.instruments after every stem has been processed. */
  method MergeMidis(midiFiles: seq<StemFile>) returns (combined: Score)
    ensures combined == Merged(midiFiles)
  {
    combined := [];
    var i := 0;
    while i < |midiFiles|
      invariant 0 <= i <= |midiFiles|
      invariant combined == Merged(midiFiles[..i])
    {
      assert midiFiles[..i + 1][..i] == midiFiles[..i];
      match midiFiles[i].score {
        case None =>
          // the MIDI file is missing: a warning is printed and the stem is skipped
        case Some(pm) =>
          combined := AddStem(combined, midiFiles[i].stem, pm);
      }
      i := i + 1;
    }
    assert midiFiles[..i] == midiFiles;
  }

  /** The loop over the instruments of one present stem file. */
  method AddStem(combined: Score, stemName: string, pm: Score) returns (r: Score)
    ensures r == combined + Contribution(StemFile(stemName, Some(pm)))
  {
    r := combined;
    var j := 0;
    while j < |pm|
      invariant 0 <= j <= |pm|
      invariant r == combined + Contribution(StemFile(stemName, Some(pm[..j])))
    {
      var newInst := CopyNotes(stemName, pm[j]);
      ContributionStep(stemName, pm, j);
      r := r + [newInst];
      j := j + 1;
    }
    assert pm[..j] == pm;
  }

  /** The loop over the notes of one source instrument, into a new destination instrument. */
  method CopyNotes(stemName: string, inst: Instrument) returns (newInst: Instrument)
    ensures newInst == RemapInstrument(stemName, inst)
  {
    newInst := NewInstrument(stemName);
    var k := 0;
    while k < |inst.notes|
      invariant 0 <= k <= |inst.notes|
      invariant newInst == RemapInstrument(stemName, inst.(notes := inst.notes[..k]))
    {
      RemapInstrumentStep(stemName, inst, k);
      newInst := newInst.(notes := newInst.notes + [RemapNote(stemName, inst.notes[k])]);
      k := k + 1;
    }
    assert inst.(notes := inst.notes[..k]) == inst;
  }

  /** Appending one remapped note to the destination instrument. */
  lemma RemapInstrumentStep(stem: string, inst: Instrument, k: nat)
    requires k < |inst.notes|
    ensures var done := RemapInstrument(stem, inst.(notes := inst.notes[..k]));
            RemapInstrument(stem, inst.(notes := inst.notes[..k + 1]))
              == done.(notes := done.notes + [RemapNote(stem, inst.notes[k])])
  {
    var done := RemapInstrument(stem, inst.(notes := inst.notes[..k]));
    var next := RemapInstrument(stem, inst.(notes := inst.notes[..k + 1]));
    assert next.notes == done.notes + [RemapNote(stem, inst.notes[k])];
  }

  /** Appending one destination instrument for the next source instrument. */
  lemma ContributionStep(stem: string, pm: Score, j: nat)
    requires j < |pm|
    ensures Contribution(StemFile(stem, Some(pm[..j + 1])))
              == Contribution(StemFile(stem, Some(pm[..j]))) + [RemapInstrument(stem, pm[j])]
  {
  }

  /** One more stem file adds its contribution at the end. */
  lemma MergedSnoc(files: seq<StemFile>, f: StemFile)
    ensures Merged(files + [f]) == Merged(files) + Contribution(f)
  {
    assert (files + [f])[..|files|] == files;
  }

  /** Merging two runs of stems one after the other concatenates their instruments. */
  lemma {:induction false} MergedAppend(a: seq<StemFile>, b: seq<StemFile>)
    ensures Merged(a + b) == Merged(a) + Merged(b)
  {
    if b == [] {
      assert a + b == a;
    } else {
      var b', last := b[..|b| - 1], b[|b| - 1];
      assert b == b' + [last];
      assert a + b == (a + b') + [last];
      calc {
        Merged(a + b);
        { MergedSnoc(a + b', last); }
        Merged(a + b') + Contribution(last);
        { MergedAppend(a, b'); }
        (Merged(a) + Merged(b')) + Contribution(last);
        { Assoc(Merged(a), Merged(b'), Contribution(last)); }
        Merged(a) + (Merged(b') + Contribution(last));
        { MergedSnoc(b', last); }
        Merged(a) + Merged(b);
      }
    }
  }

  /** A stem whose MIDI file is missing contributes nothing and breaks nothing. */
  lemma MissingFileSkipped(a: seq<StemFile>, stem: string, b: seq<StemFile>)
    ensures Merged(a + [StemFile(stem, None)] + b) == Merged(a + b)
  {
    MergedAppend(a + [StemFile(stem, None)], b);
    MergedSnoc(a, StemFile(stem, None));
    MergedAppend(a, b);
  }

  /** Only the stems whose file exists shape the combined score. */
  lemma {:induction false} OnlyPresentStemsCount(files: seq<StemFile>)
    ensures Merged(Present(files)) == Merged(files)
  {
    if files != [] {
      var init, last := files[..|files| - 1], files[|files| - 1];
      OnlyPresentStemsCount(init);
      if last.score.Some? {
        assert Present(files) == Present(init) + [last];
        MergedAppend(Present(init), [last]);
        assert [last][..0] == [];
        assert Merged([last]) == Contribution(last);
      } else {
        assert Present(files) == Present(init);
      }
    }
  }

  /**
   * The j-th instrument of the i-th stem file lands right after the
   * instruments of the stems before it: input order is kept and every
   * source instrument has its own destination instrument.
   */
  lemma MergedPosition(files: seq<StemFile>, i: nat, j: nat)
    requires i < |files| && files[i].score.Some? && j < |files[i].score.value|
    ensures InstrumentCount(files[..i]) + j < |Merged(files)|
    ensures Merged(files)[InstrumentCount(files[..i]) + j] == RemapInstrument(files[i].stem, files[i].score.value[j])
  {
    var f := files[i];
    var pre, c, post := Merged(files[..i]), Contribution(f), Merged(files[i + 1..]);
    MergedAround(files, i);
    assert |pre| == InstrumentCount(files[..i]);
    IndexInMiddle(Merged(files), pre, c, post, InstrumentCount(files[..i]), j, RemapInstrument(f.stem, f.score.value[j]));
  }

  /** The j-th element of the middle run of a three-part concatenation. */
  lemma IndexInMiddle(m: Score, pre: Score, c: Score, post: Score, n: nat, j: nat, x: Instrument)
    requires m == (pre + c) + post && |pre| == n && j < |c| && c[j] == x
    ensures n + j < |m| && m[n + j] == x
  {
  }

  lemma SplitAt<T>(s: seq<T>, i: nat)
    requires i < |s|
    ensures s == (s[..i] + [s[i]]) + s[i + 1..]
  {
  }

  /** The combined score around the contribution of the i-th stem file. */
  lemma MergedAround(files: seq<StemFile>, i: nat)
    requires i < |files|
    ensures Merged(files) == (Merged(files[..i]) + Contribution(files[i])) + Merged(files[i + 1..])
  {
    var before, f, after := files[..i], files[i], files[i + 1..];
    calc {
      Merged(files);
      { SplitAt(files, i); }
      Merged((before + [f]) + after);
      { MergedAppend(before + [f], after); }
      Merged(before + [f]) + Merged(after);
      { MergedSnoc(before, f); }
      (Merged(before) + Contribution(f)) + Merged(after);
    }
  }

  /** Every destination instrument is the remap of a source instrument of a present stem. */
  lemma {:induction false} MergedOrigin(files: seq<StemFile>, k: nat)
    requires k < |Merged(files)|
    ensures exists i, j :: 0 <= i < |files| && files[i].score.Some? && 0 <= j < |files[i].score.value|
                          && Merged(files)[k] == RemapInstrument(files[i].stem, files[i].score.value[j])
  {
    var init, last := files[..|files| - 1], files[|files| - 1];
    if k < |Merged(init)| {
      MergedOrigin(init, k);
      var i, j :| 0 <= i < |init| && init[i].score.Some? && 0 <= j < |init[i].score.value|
                 && Merged(init)[k] == RemapInstrument(init[i].stem, init[i].score.value[j]);
      assert files[i] == init[i];
    } else {
      var j := k - |Merged(init)|;
      assert Merged(files)[k] == RemapInstrument(last.stem, last.score.value[j]);
    }
  }

  /** A destination instrument is a drum track exactly when it came from the "drums" stem. */
  lemma MergedDrumFlag(files: seq<StemFile>, k: nat)
    requires k < |Merged(files)|
    ensures Merged(files)[k].isDrum <==>
            exists i, j :: 0 <= i < |files| && files[i].stem == "drums" && files[i].score.Some? && 0 <= j < |files[i].score.value|
                           && Merged(files)[k] == RemapInstrument(files[i].stem, files[i].score.value[j])
  {
    MergedOrigin(files, k);
  }
}
