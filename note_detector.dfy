/** The per-frame note picker of backend/note_detector.py: the integer part
    of `NoteDetector.frequency_to_note` and the frame loop of `detect_notes`.
    The pitch and magnitude matrices that `librosa.piptrack` produces are
    inputs, stored bin by bin: `m[bin][frame]`. */
module NoteDetector {
  import opened Util
  import opened NoteNames

  /** The label `f"{note_name}{octave}"`, kept as its two parts; the
      formatting is injective, so comparing labels compares these pairs. */
  datatype NoteLabel = NoteLabel(name: string, octave: int)

  /** `frequency_to_note`, given the frequency and the rounded note number
      `round(12 * log2(frequency / 440) + 49)` derived from it. A negative
      frequency makes the source raise (the logarithm is NaN and `round`
      rejects it), so callers pass a frequency that is not negative. */
  function FrequencyToNote(frequency: real, noteNumber: int): (r: Option<NoteLabel>)
    requires frequency >= 0.0
    ensures r.None? <==> frequency == 0.0
    ensures r.Some? ==> r.value.name in Names && r.value.name == Names[noteNumber % 12]
    ensures r.Some? ==> 12 * r.value.octave <= noteNumber - 12 < 12 * r.value.octave + 12
  {
    if frequency == 0.0 then None
    else
      // Python's `%` and `//` with divisor 12 are Dafny's `%` and `/` (both floor).
      var noteName := Names[noteNumber % 12];
      var octave := (noteNumber - 12) / 12;
      Some(NoteLabel(noteName, octave))
  }

  /** The label determines the note number: octave and name give it back as
      `12 * (octave + 1) + index`, so two frames with different note numbers
      never share a label. */
  lemma LabelDeterminesNoteNumber(f1: real, n1: int, f2: real, n2: int)
    requires f1 > 0.0 && f2 > 0.0
    requires FrequencyToNote(f1, n1) == FrequencyToNote(f2, n2)
    ensures n1 == n2
  {
    var l := FrequencyToNote(f1, n1).value;
    assert Names[n1 % 12] == Names[n2 % 12];
    IndexOfName(n1 % 12);
    IndexOfName(n2 % 12);
    assert n1 - 12 == 12 * l.octave + n1 % 12;
    assert n2 - 12 == 12 * l.octave + n2 % 12;
  }

  /** The `+ 49` offset with a name list that starts at C: concert A, whose
      note number is 49, comes out as C#3. */
  lemma ConcertAIsCSharp3()
    ensures FrequencyToNote(440.0, 49) == Some(NoteLabel("C#", 3))
  {
  }

  /** The matrix has `bins` rows of `frames` entries each. */
  predicate IsMatrix(m: seq<seq<real>>, bins: nat, frames: nat)
  {
    |m| == bins && forall b :: 0 <= b < bins ==> |m[b]| == frames
  }

  /** `m[:, i]`: column `i`. */
  function Column(m: seq<seq<real>>, i: nat): (c: seq<real>)
    requires forall b :: 0 <= b < |m| ==> i < |m[b]|
    ensures |c| == |m| && forall b :: 0 <= b < |m| ==> c[b] == m[b][i]
  {
    seq(|m|, b requires 0 <= b < |m| => m[b][i])
  }

  /** numpy's `argmax`: the first index of a largest element. */
  function ArgMax(s: seq<real>): (k: nat)
    requires |s| > 0
    ensures k < |s|
    ensures forall b :: 0 <= b < |s| ==> s[b] <= s[k]
    ensures forall b :: 0 <= b < k ==> s[b] < s[k]
  {
    if |s| == 1 then 0
    else
      var k := ArgMax(s[..|s| - 1]);
      if s[|s| - 1] > s[k] then |s| - 1 else k
  }

  /** What frame `i` contributes: the note at the pitch of its loudest bin,
      or nothing when that pitch is not positive. */
  function FrameNote(pitches: seq<seq<real>>, magnitudes: seq<seq<real>>, toNoteNumber: real -> int, i: nat): Option<NoteLabel>
    requires |magnitudes| > 0 && |pitches| == |magnitudes|
    requires forall b :: 0 <= b < |magnitudes| ==> i < |magnitudes[b]| && i < |pitches[b]|
  {
    var index := ArgMax(Column(magnitudes, i));
    var pitch := pitches[index][i];
    if pitch > 0.0 then FrequencyToNote(pitch, toNoteNumber(pitch)) else None
  }

  /** The notes of frames 0 .. n - 1, in frame order, repeats included. */
  function FrameNotes(pitches: seq<seq<real>>, magnitudes: seq<seq<real>>, toNoteNumber: real -> int, n: nat): seq<NoteLabel>
    requires |magnitudes| > 0 && |pitches| == |magnitudes|
    requires forall b :: 0 <= b < |magnitudes| ==> n <= |magnitudes[b]| && n <= |pitches[b]|
  {
    if n == 0 then []
    else
      var before := FrameNotes(pitches, magnitudes, toNoteNumber, n - 1);
      match FrameNote(pitches, magnitudes, toNoteNumber, n - 1)
      case Some(note) => before + [note]
      case None => before
  }

  /** Keeps the first occurrence of every element, in order. */
  function FirstOccurrences<T(==)>(s: seq<T>): seq<T>
  {
    if s == [] then []
    else
      var d := FirstOccurrences(s[..|s| - 1]);
      if s[|s| - 1] in d then d else d + [s[|s| - 1]]
  }

  /** Deduplication keeps exactly the elements of its input. */
  lemma {:induction false} FirstOccurrencesSameElements<T>(s: seq<T>)
    ensures forall x :: x in FirstOccurrences(s) <==> x in s
  {
    if s != [] {
      FirstOccurrencesSameElements(s[..|s| - 1]);
      assert s == s[..|s| - 1] + [s[|s| - 1]];
    }
  }

  lemma ElementOfFirstOccurrences<T>(s: seq<T>, x: T)
    ensures x in FirstOccurrences(s) <==> x in s
  {
    FirstOccurrencesSameElements(s);
  }

  /** Deduplication leaves no element twice. */
  lemma {:induction false} FirstOccurrencesNoDuplicates<T>(s: seq<T>)
    ensures NoDuplicates(FirstOccurrences(s))
  {
    if s != [] {
      FirstOccurrencesNoDuplicates(s[..|s| - 1]);
    }
  }

  /** Position of the first occurrence of `x` in `s`. */
  function FirstIndex<T(==)>(s: seq<T>, x: T): (k: nat)
    requires x in s
    ensures k < |s| && s[k] == x && forall m :: 0 <= m < k ==> s[m] != x
  {
    if s[0] == x then 0 else 1 + FirstIndex(s[1..], x)
  }

  /** Deduplication lists elements in the order of their first appearance. */
  lemma {:induction false} FirstOccurrencesInOrder<T>(s: seq<T>, a: nat, b: nat)
    requires a < b < |FirstOccurrences(s)|
    ensures FirstOccurrences(s)[a] in s && FirstOccurrences(s)[b] in s
    ensures FirstIndex(s, FirstOccurrences(s)[a]) < FirstIndex(s, FirstOccurrences(s)[b])
  {
    var init := s[..|s| - 1];
    var last := s[|s| - 1];
    var d := FirstOccurrences(init);
    FirstOccurrencesSameElements(s);
    assert s == init + [last];
    assert a < |d| && FirstOccurrences(s)[a] == d[a];
    ElementOfFirstOccurrences(init, d[a]);
    PrefixFirstIndex(init, last, d[a]);
    if b < |d| {
      FirstOccurrencesInOrder(init, a, b);
      ElementOfFirstOccurrences(init, d[b]);
      PrefixFirstIndex(init, last, d[b]);
    } else {
      // FirstOccurrences(s)[b] is `last`, which does not occur in `init`.
      ElementOfFirstOccurrences(init, last);
      assert FirstOccurrences(s)[b] == last && last !in init;
      FirstIndexOfNew(init, last);
    }
  }

  /** Appending does not move the first occurrence of an element already present. */
  lemma PrefixFirstIndex<T>(s: seq<T>, y: T, x: T)
    requires x in s
    ensures FirstIndex(s + [y], x) == FirstIndex(s, x)
  {
    if s[0] != x {
      assert (s + [y])[1..] == s[1..] + [y];
      PrefixFirstIndex(s[1..], y, x);
    }
  }

  /** An element new to `s` first occurs at the end of `s + [y]`. */
  lemma FirstIndexOfNew<T>(s: seq<T>, y: T)
    requires y !in s
    ensures FirstIndex(s + [y], y) == |s|
  {
    if s != [] {
      assert (s + [y])[1..] == s[1..] + [y];
      FirstIndexOfNew(s[1..], y);
    }
  }

  /** One more frame: frame `i` adds its note, if any, at the end. */
  lemma FrameNotesNext(pitches: seq<seq<real>>, magnitudes: seq<seq<real>>, toNoteNumber: real -> int, i: nat)
    requires |magnitudes| > 0 && |pitches| == |magnitudes|
    requires forall b :: 0 <= b < |magnitudes| ==> i < |magnitudes[b]| && i < |pitches[b]|
    ensures var pitch := pitches[ArgMax(Column(magnitudes, i))][i];
      FrameNotes(pitches, magnitudes, toNoteNumber, i + 1) ==
        FrameNotes(pitches, magnitudes, toNoteNumber, i) +
        (if pitch > 0.0 then [FrequencyToNote(pitch, toNoteNumber(pitch)).value] else [])
  {
  }

  /** Deduplicating one more element: it is appended exactly when it is new. */
  lemma FirstOccurrencesNext<T>(s: seq<T>, x: T)
    ensures FirstOccurrences(s + [x]) ==
      if x in FirstOccurrences(s) then FirstOccurrences(s) else FirstOccurrences(s) + [x]
  {
    assert (s + [x])[..|s|] == s;
  }

  /** The loop body of `detect_notes` keeps its list equal to the
      deduplicated notes of the frames seen so far. */
  lemma DetectStep(pitches: seq<seq<real>>, magnitudes: seq<seq<real>>, toNoteNumber: real -> int, i: nat,
                   detected: seq<NoteLabel>, pitch: real)
    requires |magnitudes| > 0 && |pitches| == |magnitudes|
    requires forall b :: 0 <= b < |magnitudes| ==> i < |magnitudes[b]| && i < |pitches[b]|
    requires detected == FirstOccurrences(FrameNotes(pitches, magnitudes, toNoteNumber, i))
    requires pitch == pitches[ArgMax(Column(magnitudes, i))][i]
    ensures pitch > 0.0 ==> FrequencyToNote(pitch, toNoteNumber(pitch)).Some?
    ensures var next :=
        if pitch > 0.0 && FrequencyToNote(pitch, toNoteNumber(pitch)).value !in detected
        then detected + [FrequencyToNote(pitch, toNoteNumber(pitch)).value] else detected;
      next == FirstOccurrences(FrameNotes(pitches, magnitudes, toNoteNumber, i + 1))
  {
    var seen := FrameNotes(pitches, magnitudes, toNoteNumber, i);
    FrameNotesNext(pitches, magnitudes, toNoteNumber, i);
    if pitch > 0.0 {
      FirstOccurrencesNext(seen, FrequencyToNote(pitch, toNoteNumber(pitch)).value);
    } else {
      assert seen + [] == seen;
    }
  }

  /** `detect_notes` after `piptrack`: for every frame, the pitch of the loudest
      bin; a positive pitch contributes its note unless it is already listed. */
  method DetectNotes(pitches: seq<seq<real>>, magnitudes: seq<seq<real>>, toNoteNumber: real -> int)
    returns (detectedNotes: seq<NoteLabel>)
    requires |magnitudes| > 0
    requires IsMatrix(magnitudes, |magnitudes|, |magnitudes[0]|) && IsMatrix(pitches, |magnitudes|, |magnitudes[0]|)
    ensures detectedNotes == FirstOccurrences(FrameNotes(pitches, magnitudes, toNoteNumber, |magnitudes[0]|))
  {
    var frames := |magnitudes[0]|;
    detectedNotes := [];
    for i := 0 to frames
      invariant detectedNotes == FirstOccurrences(FrameNotes(pitches, magnitudes, toNoteNumber, i))
    {
      var index := ArgMax(Column(magnitudes, i));
      var pitch := pitches[index][i];
      DetectStep(pitches, magnitudes, toNoteNumber, i, detectedNotes, pitch);
      if pitch > 0.0 {
        var note := FrequencyToNote(pitch, toNoteNumber(pitch));
        if note.Some? && note.value !in detectedNotes {
          detectedNotes := detectedNotes + [note.value];
        }
      }
    }
  }
}
