/**
 * The per-note organ remap of merge_midis: the fixed stem -> organ channel
 * table and the stem-specific velocity scaling, velocity clamp and pitch clamp
 * applied to every note.
 */
module OrganRemap {
  import opened Wrappers
  import opened Text

  /**
   * A note as pretty_midi holds it. Start and end times are floating-point
   * seconds that the remap only copies; `real` stands in for them.
   */
  datatype Note = Note(velocity: int, pitch: int, start: real, end: real)

  datatype Instrument = Instrument(program: int, isDrum: bool, name: string, notes: seq<Note>)

  /** A MIDI file as the list of its instruments. */
  type Score = seq<Instrument>

  /** One entry of the organ channel map. The channel is never read by the merge. */
  datatype ChannelConfig = ChannelConfig(channel: int, name: string, program: int)

  const ChannelMap: map<string, ChannelConfig> := map[
    "drums" := ChannelConfig(0, "Pedal", 0),
    "bass" := ChannelConfig(1, "Pedal", 32),
    "vocals" := ChannelConfig(2, "Swell", 1),
    "other" := ChannelConfig(3, "Great", 1)
  ]

  /** channel_map.get(stem, default): unmapped stems play as "Unknown" on program 0. */
  function ConfigFor(stem: string): (c: ChannelConfig)
    ensures stem in ChannelMap ==> c == ChannelMap[stem]
    ensures stem !in ChannelMap ==> c.name == "Unknown" && c.program == 0
  {
    if stem in ChannelMap then ChannelMap[stem] else ChannelConfig(0, "Unknown", 0)
  }

  /** max(lo, min(x, hi)): a saturating clamp, not a transposition. */
  function Clamp(x: int, lo: int, hi: int): (r: int)
    ensures r >= lo
    ensures lo <= hi ==> r <= hi
    ensures lo <= x <= hi ==> r == x
    ensures lo <= hi && x < lo ==> r == lo
    ensures lo <= hi && x > hi ==> r == hi
  {
    var m := if x < hi then x else hi;
    if lo > m then lo else m
  }

  /**
   * Python's int() on a quotient: truncation toward zero. For a non-negative
   * numerator q is the largest multiple count not above it; for a negative
   * one the smallest not below it.
   */
  function TruncDiv(a: int, b: int): (q: int)
    requires b > 0
    ensures a >= 0 ==> 0 <= q && q * b <= a < q * b + b
    ensures a < 0 ==> q <= 0 && q * b - b < a <= q * b
  {
    if a >= 0 then a / b else -((-a) / b)
  }

  /**
   * int(velocity * tenths / 10). The source multiplies by the float 0.7, 0.8
   * or 0.9; the exact rational product is the intended rule and is what is
   * modelled here (the float 0.7 is slightly below 7/10, so the source can
   * come out one lower when velocity is a multiple of 10).
   */
  function ScaleVelocity(velocity: int, tenths: int): (r: int)
    ensures velocity * tenths >= 0 ==> 10 * r <= velocity * tenths < 10 * r + 10
    ensures velocity * tenths < 0 ==> 10 * r - 10 < velocity * tenths <= 10 * r
    ensures 0 <= velocity && 0 <= tenths <= 10 ==> 0 <= r <= velocity
  {
    var q := TruncDiv(velocity * tenths, 10);
    if 0 <= velocity && 0 <= tenths <= 10 then
      ScaleDown(velocity, tenths);
      q
    else q
  }

  /** A factor of at most ten tenths does not enlarge a non-negative velocity. */
  lemma ScaleDown(velocity: int, tenths: int)
    requires 0 <= velocity && 0 <= tenths <= 10
    ensures 0 <= velocity * tenths <= velocity * 10
  {
  }

  /** The tenths of its velocity each stem's notes keep. */
  function Tenths(stem: string): int
  {
    if stem == "drums" then 7
    else if stem == "bass" then 8
    else if stem == "vocals" then 9
    else 8
  }

  /** The velocity range each stem's notes end up in. */
  function VelocityBounds(stem: string): (int, int)
  {
    if stem == "drums" then (30, 60)
    else if stem == "bass" then (50, 80)
    else if stem == "vocals" then (60, 90)
    else (40, 85)
  }

  /** The pitch range each stem's notes are clamped to; None leaves the pitch alone. */
  function PitchBounds(stem: string): Option<(int, int)>
  {
    if stem == "drums" then Some((36, 60))
    else if stem == "bass" then Some((36, 72))
    else if stem == "vocals" then Some((60, 96))
    else None
  }

  /** The note that merge_midis writes for a note of the given stem. */
  function RemapNote(stem: string, n: Note): (r: Note)
    ensures r.start == n.start && r.end == n.end
    ensures r.velocity == Clamp(ScaleVelocity(n.velocity, Tenths(stem)), VelocityBounds(stem).0, VelocityBounds(stem).1)
    ensures PitchBounds(stem).Some? ==>
              r.pitch == Clamp(n.pitch, PitchBounds(stem).value.0, PitchBounds(stem).value.1)
    ensures VelocityBounds(stem).0 <= r.velocity <= VelocityBounds(stem).1
    ensures PitchBounds(stem).None? ==> r.pitch == n.pitch
    ensures PitchBounds(stem).Some? ==>
              var (lo, hi) := PitchBounds(stem).value;
              lo <= r.pitch <= hi && (lo <= n.pitch <= hi ==> r.pitch == n.pitch)
    ensures stem == "drums" ==> 30 <= r.velocity <= 60 && 36 <= r.pitch <= 60
    ensures stem == "bass" ==> 50 <= r.velocity <= 80 && 36 <= r.pitch <= 72
    ensures stem == "vocals" ==> 60 <= r.velocity <= 90 && 60 <= r.pitch <= 96
    ensures stem !in {"drums", "bass", "vocals"} ==> 40 <= r.velocity <= 85 && r.pitch == n.pitch
  {
    if stem == "drums" then
      n.(velocity := Clamp(ScaleVelocity(n.velocity, 7), 30, 60), pitch := Clamp(n.pitch, 36, 60))
    else if stem == "bass" then
      n.(velocity := Clamp(ScaleVelocity(n.velocity, 8), 50, 80), pitch := Clamp(n.pitch, 36, 72))
    else if stem == "vocals" then
      n.(velocity := Clamp(ScaleVelocity(n.velocity, 9), 60, 90), pitch := Clamp(n.pitch, 60, 96))
    else
      n.(velocity := Clamp(ScaleVelocity(n.velocity, 8), 40, 85))
  }

  /** Clamping a pitch that is already clamped changes nothing. */
  lemma PitchClampIdempotent(stem: string, n: Note)
    ensures RemapNote(stem, RemapNote(stem, n)).pitch == RemapNote(stem, n).pitch
  {
  }

  /** The remap of the notes of the worked examples. */
  lemma RemapExamples(s: real, e: real)
    ensures RemapNote("drums", Note(100, 80, s, e)) == Note(60, 60, s, e)
    ensures RemapNote("bass", Note(40, 90, s, e)) == Note(50, 72, s, e)
    ensures RemapNote("vocals", Note(70, 50, s, e)) == Note(63, 60, s, e)
    ensures RemapNote("other", Note(100, 20, s, e)) == Note(80, 20, s, e)
    ensures RemapNote("piano", Note(127, 5, s, e)) == Note(85, 5, s, e)
  {
  }

  /** The instrument merge_midis creates for one source instrument of a stem. */
  function NewInstrument(stem: string): (r: Instrument)
    ensures r.program == ConfigFor(stem).program
    ensures r.isDrum <==> stem == "drums"
    ensures r.notes == []
  {
    var config := ConfigFor(stem);
    Instrument(config.program, stem == "drums", config.name + " - " + Title(stem), [])
  }

  /** The full destination instrument: the new instrument plus every remapped note, in order. */
  function RemapInstrument(stem: string, inst: Instrument): (r: Instrument)
    ensures r.program == ConfigFor(stem).program && r.name == NewInstrument(stem).name
    ensures r.isDrum <==> stem == "drums"
    ensures |r.notes| == |inst.notes|
    ensures forall k :: 0 <= k < |r.notes| ==> r.notes[k] == RemapNote(stem, inst.notes[k])
  {
    NewInstrument(stem).(notes := seq(|inst.notes|, k requires 0 <= k < |inst.notes| => RemapNote(stem, inst.notes[k])))
  }

  /**
   * The name of a destination instrument: the role from the channel map, a
   * dash and the stem name with its first letter upper-cased.
   */
  lemma LowerStemName(stem: string)
    requires |stem| > 0 && forall i :: 0 <= i < |stem| ==> IsLower(stem[i])
    ensures NewInstrument(stem).name == ConfigFor(stem).name + " - " + ([UpperChar(stem[0])] + stem[1..])
  {
    TitleOfLowerWord(stem);
  }

  /** A mapped stem: its role comes from the channel map. */
  lemma DrumsInstrumentName()
    ensures NewInstrument("drums").name == "Pedal - Drums"
  {
    LowerStemName("drums");
  }

  /** An unmapped stem: its role is "Unknown". */
  lemma UnmappedInstrumentName()
    ensures NewInstrument("piano").name == "Unknown - Piano"
  {
    LowerStemName("piano");
  }
}
