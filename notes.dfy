/** The twelve pitch-class names, which app.py, backend/note_detector.py and
    wwwroot/js/app.js each spell out for themselves, and the Turkish display
    names that app.py and wwwroot/js/app.js give them. */
module NoteNames {

  /** Pitch classes in semitone order, C = 0 (the `note_names` lists). */
  const Names: seq<string> := ["C", "C#", "D", "D#", "E", "F", "F#", "G", "G#", "A", "A#", "B"]

  /** `NOTE_NAMES_TR`: English pitch-class name to Turkish solfege name. */
  const TurkishOf: map<string, string> := map[
    "C" := "Do", "C#" := "Do#", "D" := "Re", "D#" := "Re#", "E" := "Mi", "F" := "Fa",
    "F#" := "Fa#", "G" := "Sol", "G#" := "Sol#", "A" := "La", "A#" := "La#", "B" := "Si"]

  /** Turkish name of pitch class `p`, in the same order as `Names`. */
  const TurkishNames: seq<string> := ["Do", "Do#", "Re", "Re#", "Mi", "Fa", "Fa#", "Sol", "Sol#", "La", "La#", "Si"]

  type PitchClass = p: int | 0 <= p < 12

  /** Python's `note_names.index(name)`: the first position of `name`. */
  function IndexOf(name: string): (r: PitchClass)
    requires name in Names
    ensures Names[r] == name
    ensures forall k :: 0 <= k < r ==> Names[k] != name
  {
    if name == "C" then 0 else if name == "C#" then 1 else if name == "D" then 2
    else if name == "D#" then 3 else if name == "E" then 4 else if name == "F" then 5
    else if name == "F#" then 6 else if name == "G" then 7 else if name == "G#" then 8
    else if name == "A" then 9 else if name == "A#" then 10 else 11
  }

  /** The names are distinct, so `index` undoes indexing. */
  lemma IndexOfName(p: PitchClass)
    ensures IndexOf(Names[p]) == p
  {
  }

  /** The dictionary lookup agrees with the positional table, for every pitch class. */
  lemma TurkishTableAgrees(p: PitchClass)
    ensures Names[p] in TurkishOf && TurkishOf[Names[p]] == TurkishNames[p]
  {
  }
}
