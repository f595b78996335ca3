/**
 * File-system paths as sequences of segments: os.path.join appends one
 * segment, os.path.basename is the last segment and os.path.dirname is what
 * comes before it. os.path.splitext is modelled on a single segment.
 */
module Paths {
  import opened Wrappers
  import opened Text

  type Path = seq<string>

  function Basename(p: Path): string
  {
    if p == [] then "" else p[|p| - 1]
  }

  function Dirname(p: Path): Path
  {
    if p == [] then [] else p[..|p| - 1]
  }

  /** Some character of the name before index `d` is not a dot. */
  predicate HasNonDotBefore(name: string, d: nat)
    requires d <= |name|
  {
    exists k :: 0 <= k < d && name[k] != '.'
  }

  /**
   * os.path.splitext(name)[0] for a name without separators: the text before
   * the last dot, unless that dot is only preceded by dots (".bashrc",
   * "..x"), in which case the name has no extension.
   */
  function Root(name: string): (r: string)
    ensures |r| <= |name| && r == name[..|r|]
    ensures r != name ==> |r| < |name| && name[|r|] == '.' && '.' !in name[|r| + 1..]
    ensures r != name ==> HasNonDotBefore(name, |r|)
    ensures r == name ==>
              forall d :: 0 <= d < |name| && name[d] == '.' && '.' !in name[d + 1..] ==> !HasNonDotBefore(name, d)
  {
    match LastIndexOf(name, '.')
    case None => name
    case Some(d) =>
      LastDotUnique(name, d);
      if HasNonDotBefore(name, d) then name[..d] else name
  }

  /** A dot with no dot after it is the last dot. */
  lemma LastDotUnique(name: string, d: nat)
    requires d < |name| && name[d] == '.' && '.' !in name[d + 1..]
    ensures forall e :: 0 <= e < |name| && name[e] == '.' && '.' !in name[e + 1..] ==> e == d
  {
  }

  /** A name whose only dot leads it has no extension: ".mp3" keeps its whole name. */
  lemma LeadingDotKept()
    ensures Root(".mp3") == ".mp3"
  {
    var name := ".mp3";
    LastDotUnique(name, 0);
    assert '.' !in name[1..];
  }

  /** The root of a name with an added extension is the name it was built from. */
  lemma {:induction false} RootOfAppendedExtension(base: string, ext: string)
    requires '.' !in ext
    requires HasNonDotBefore(base, |base|)
    ensures Root(base + "." + ext) == base
  {
    var name := base + "." + ext;
    assert name[|base|] == '.';
    assert name[|base| + 1..] == ext;
    LastIndexUnique(name, '.', |base|);
    var k :| 0 <= k < |base| && base[k] != '.';
    assert name[k] == base[k];
    assert HasNonDotBefore(name, |base|);
    assert name[..|base|] == base;
  }
}
