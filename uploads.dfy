/**
 * The upload gate of the web front end: which file names are accepted
 * (allowed_file) and what the upload route decides before a job exists.
 */
module Uploads {
  import opened Wrappers
  import opened Text

  const AllowedExtensions: set<string> := {"mp3", "wav", "m4a", "flac"}

  /** The lower-cased extension is one of the allowed ones. */
  predicate ExtensionAllowed(ext: string)
  {
    Lower(ext) in AllowedExtensions
  }

  /** Position i holds a dot and no dot follows it. */
  predicate IsLastDot(filename: string, i: int)
  {
    0 <= i < |filename| && filename[i] == '.' && '.' !in filename[i + 1..]
  }

  /**
   * allowed_file: the name has a dot and the lower-cased text after its LAST
   * dot is an allowed extension.
   */
  function AllowedFile(filename: string): (ok: bool)
    ensures ok <==> exists i :: IsLastDot(filename, i) && ExtensionAllowed(filename[i + 1..])
  {
    match LastIndexOf(filename, '.')
    case None =>
      NoLastDot(filename);
      false
    case Some(d) =>
      LastDotDecides(filename, d);
      ExtensionAllowed(filename[d + 1..])
  }

  /** A name without a dot has no extension at all. */
  lemma NoLastDot(filename: string)
    requires LastIndexOf(filename, '.') == None
    ensures forall i :: !IsLastDot(filename, i)
  {
    forall i | 0 <= i < |filename| ensures filename[i] != '.' {
      assert filename[i] in filename;
    }
  }

  /** The dot that str.rsplit('.', 1) splits at is the only dot with no dot after it. */
  lemma LastDotDecides(filename: string, d: nat)
    requires LastIndexOf(filename, '.') == Some(d)
    ensures (exists i :: IsLastDot(filename, i) && ExtensionAllowed(filename[i + 1..]))
            <==> ExtensionAllowed(filename[d + 1..])
  {
    assert IsLastDot(filename, d);
    forall i | IsLastDot(filename, i) ensures i == d {
      LastIndexUnique(filename, '.', i);
    }
  }

  /** What the upload route answers. */
  datatype UploadReply =
    | NoFileSelected        // flash 'No file selected', redirect back
    | InvalidFileType       // flash 'Invalid file type ...', redirect to the index
    | StartJob              // save the file, start the worker, redirect to the processing page

  /**
   * upload_file: a missing file part or an empty file name is rejected first,
   * then the extension; only an accepted upload creates a job.
   */
  function UploadDecision(hasFilePart: bool, filename: string): (r: UploadReply)
    ensures r == StartJob <==> hasFilePart && filename != "" && AllowedFile(filename)
    ensures r == NoFileSelected <==> !hasFilePart || filename == ""
  {
    if !hasFilePart then NoFileSelected
    else if filename == "" then NoFileSelected
    else if AllowedFile(filename) then StartJob
    else InvalidFileType
  }

  /** An upper-case allowed extension is accepted. */
  lemma UpperCaseExtensionAccepted()
    ensures AllowedFile("x.MP3")
  {
    LastIndexUnique("x.MP3", '.', 1);
    assert "x.MP3"[2..] == "MP3";
    assert Lower("MP3") == "mp3";
  }

  /** A bare extension without a dot is rejected. */
  lemma BareExtensionRejected()
    ensures !AllowedFile("mp3")
  {
    assert '.' !in "mp3";
  }

  /** Only the text after the last dot counts. */
  lemma InnerExtensionRejected()
    ensures !AllowedFile("x.mp3.txt")
  {
    LastIndexUnique("x.mp3.txt", '.', 5);
    assert "x.mp3.txt"[6..] == "txt";
    assert Lower("txt") == "txt";
  }
}
