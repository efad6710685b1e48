/**
 * The tuning tables of the tuner (src/util/AudioProcessor.tsx): the named
 * guitar tunings, the note record a tuning is built from, and the
 * construction of a tuning's string table keyed by note name.
 *
 * The frequency of a note name comes from an external music-theory library
 * (`noteToFrequency` at the standard pitch of 440 Hz); here it is a given
 * table from note names to frequencies.
 */
module GuitarStrings {
  import opened Wrappers

  /** One target string: its note name, frequency, expected autocorrelation
    * lag in samples, and its accumulated ranking score. */
  datatype Note = Note(noteName: string, freq: real, offset: int, difference: real)

  const TUNING_PITCH: real := 440.0

  const STANDARD: seq<string> := ["e2", "a2", "d3", "g3", "b3", "e4"]
  const DROP_D: seq<string> := ["d2", "a2", "d3", "g3", "b3", "e4"]
  const SEVEN_STRING_STANDARD: seq<string> := ["f#2", "b2", "e2", "a2", "d3", "g3", "b3", "e4"]

  /** The named tunings, each an ordered list of note names. */
  const TUNINGS: map<string, seq<string>> :=
    map["standard" := STANDARD, "drop_d" := DROP_D, "seven_string_standard" := SEVEN_STRING_STANDARD]

  /** No name occurs twice in the list. */
  predicate Distinct(names: seq<string>) {
    forall i, j :: 0 <= i < j < |names| ==> names[i] != names[j]
  }

  /** Every name of the list has a positive frequency in the pitch table. */
  predicate Priced(names: seq<string>, pitchTable: map<string, real>) {
    forall n :: n in names ==> n in pitchTable && pitchTable[n] > 0.0
  }

  /** `Math.round`: the nearest integer, halves rounded towards +infinity. */
  function Round(x: real): (r: int)
    ensures r as real - 0.5 <= x < r as real + 0.5
  {
    (x + 0.5).Floor
  }

  /** `createNote`: a fresh note whose lag is the rounded number of samples
    * in one period of its frequency, with a zero ranking score. */
  function CreateNote(sampleRate: real, noteName: string, freq: real): (n: Note)
    requires freq > 0.0
    ensures n.noteName == noteName && n.freq == freq && n.difference == 0.0
    ensures n.offset as real - 0.5 <= sampleRate / freq < n.offset as real + 0.5
  {
    Note(noteName, freq, Round(sampleRate / freq), 0.0)
  }

  /** The tuning `createGuitarStrings` works from: the named one when the name
    * is known, `standard` when the name is absent or unknown. */
  function ChooseTuning(tuningName: Option<string>): (chosen: seq<string>)
    ensures tuningName.Some? && tuningName.value in TUNINGS ==> chosen == TUNINGS[tuningName.value]
    ensures tuningName.None? || tuningName.value !in TUNINGS ==> chosen == STANDARD
  {
    var name := if tuningName.Some? then tuningName.value else "standard";
    if name in TUNINGS then TUNINGS[name] else TUNINGS["standard"]
  }

  /** The `reduce` of `createGuitarStrings`: folds the names from the left
    * into an object keyed by note name. */
  function BuildStrings(sampleRate: real, names: seq<string>, pitchTable: map<string, real>): (strings: map<string, Note>)
    requires Priced(names, pitchTable)
    ensures strings.Keys == set n | n in names
    ensures forall n :: n in names ==> strings[n] == CreateNote(sampleRate, n, pitchTable[n])
    decreases |names|
  {
    if names == [] then map[]
    else
      var last := names[|names| - 1];
      BuildStrings(sampleRate, names[..|names| - 1], pitchTable)[last := CreateNote(sampleRate, last, pitchTable[last])]
  }

  /** `createGuitarStrings`: one fresh note per name of the chosen tuning. */
  function CreateGuitarStrings(sampleRate: real, tuningName: Option<string>, pitchTable: map<string, real>): (strings: map<string, Note>)
    requires Priced(ChooseTuning(tuningName), pitchTable)
    ensures strings.Keys == set n | n in ChooseTuning(tuningName)
    ensures forall n :: n in strings ==>
      strings[n].noteName == n && strings[n].freq == pitchTable[n] && strings[n].difference == 0.0 &&
      strings[n].offset == Round(sampleRate / pitchTable[n])
  {
    BuildStrings(sampleRate, ChooseTuning(tuningName), pitchTable)
  }

  /** An unknown tuning name builds the same table as no name at all. */
  lemma UnknownTuningIsStandard(sampleRate: real, tuningName: string, pitchTable: map<string, real>)
    requires tuningName !in TUNINGS
    requires Priced(STANDARD, pitchTable)
    ensures CreateGuitarStrings(sampleRate, Some(tuningName), pitchTable)
         == CreateGuitarStrings(sampleRate, None, pitchTable)
         == CreateGuitarStrings(sampleRate, Some("standard"), pitchTable)
  {
  }

  /** Every tuning is non-empty and lists each note once, so the object
    * built from it has exactly one key per listed name. */
  lemma TuningsAreDistinct()
    ensures forall name :: name in TUNINGS ==> Distinct(TUNINGS[name]) && |TUNINGS[name]| > 0
  {
    assert Distinct(STANDARD);
    assert Distinct(DROP_D);
    assert Distinct(SEVEN_STRING_STANDARD);
  }
}
