/**
 * Character and string helpers used by the upload check and the instrument
 * names: ASCII lower-casing (str.lower), ASCII title-casing (str.title) and the
 * position of the last occurrence of a character (str.rfind).
 */
module Text {
  import opened Wrappers

  predicate IsUpper(c: char) { 'A' <= c <= 'Z' }

  predicate IsLower(c: char) { 'a' <= c <= 'z' }

  /** A cased character in the sense of str.title, restricted to ASCII letters. */
  predicate IsCased(c: char) { IsUpper(c) || IsLower(c) }

  function LowerChar(c: char): char
  {
    if IsUpper(c) then (c as int + 32) as char else c
  }

  function UpperChar(c: char): char
  {
    if IsLower(c) then (c as int - 32) as char else c
  }

  /** str.lower on ASCII letters; every other character is kept. */
  function Lower(s: string): (r: string)
    ensures |r| == |s|
    ensures forall i :: 0 <= i < |s| ==> r[i] == LowerChar(s[i])
  {
    if s == [] then [] else [LowerChar(s[0])] + Lower(s[1..])
  }

  /**
   * str.title: a cased character is upper-cased when the character before it
   * is uncased (or it is the first one) and lower-cased otherwise.
   */
  function Title(s: string): (r: string)
    ensures |r| == |s|
    ensures forall i :: 0 <= i < |s| && !IsCased(s[i]) ==> r[i] == s[i]
    ensures |s| > 0 && IsCased(s[0]) ==> r[0] == UpperChar(s[0])
    ensures forall i :: 0 < i < |s| && IsCased(s[i]) ==>
              r[i] == (if IsCased(s[i - 1]) then LowerChar(s[i]) else UpperChar(s[i]))
  {
    TitleAfter(s, false)
  }

  /** str.title of the rest of a string, given whether the character before it is cased. */
  function TitleAfter(s: string, prevCased: bool): (r: string)
    ensures |r| == |s|
    ensures forall i :: 0 <= i < |s| && !IsCased(s[i]) ==> r[i] == s[i]
    ensures |s| > 0 && IsCased(s[0]) ==> r[0] == (if prevCased then LowerChar(s[0]) else UpperChar(s[0]))
    ensures forall i :: 0 < i < |s| && IsCased(s[i]) ==>
              r[i] == (if IsCased(s[i - 1]) then LowerChar(s[i]) else UpperChar(s[i]))
  {
    if s == [] then []
    else
      var c := s[0];
      var d := if !IsCased(c) then c else if prevCased then LowerChar(c) else UpperChar(c);
      var rest := TitleAfter(s[1..], IsCased(c));
      assert forall i :: 0 < i < |s| ==> s[1..][i - 1] == s[i];
      [d] + rest
  }

  /** A stem name in mixed case is title-cased letter by letter: "dRUMS" becomes "Drums". */
  lemma MixedCaseTitle()
    ensures Title("dRUMS") == "Drums"
  {
  }

  /** str.rfind for one character: the index of its last occurrence, if any. */
  function LastIndexOf(s: string, c: char): (r: Option<nat>)
    ensures r.None? <==> c !in s
    ensures r.Some? ==> r.value < |s| && s[r.value] == c && c !in s[r.value + 1..]
  {
    if s == [] then None
    else if s[|s| - 1] == c then Some(|s| - 1)
    else
      var r := LastIndexOf(s[..|s| - 1], c);
      assert s == s[..|s| - 1] + [s[|s| - 1]];
      r
  }

  /** The last occurrence of a character is the only one with none after it. */
  lemma LastIndexUnique(s: string, c: char, i: nat)
    requires i < |s| && s[i] == c && c !in s[i + 1..]
    ensures LastIndexOf(s, c) == Some(i)
  {
  }

  /** Lower-case letters that follow a cased character stay as they are. */
  lemma {:induction false} TitleAfterCasedKeepsLower(s: string)
    requires forall i :: 0 <= i < |s| ==> IsLower(s[i])
    ensures TitleAfter(s, true) == s
  {
    if s != [] {
      TitleAfterCasedKeepsLower(s[1..]);
    }
  }

  /** A lower-case word is title-cased by upper-casing its first letter. */
  lemma TitleOfLowerWord(s: string)
    requires |s| > 0 && forall i :: 0 <= i < |s| ==> IsLower(s[i])
    ensures Title(s) == [UpperChar(s[0])] + s[1..]
  {
    TitleAfterCasedKeepsLower(s[1..]);
  }
}
