/** The chord matcher and the integer part of the frequency-to-note mapping
    of the detection service (app.py). */
module ChordMatcher {
  import opened Util
  import opened NoteNames

  /** The keys of `CHORD_INTERVALS`; `detect_chord` returns the key of the
      winning type as `chord_type`, here the constructor itself. */
  datatype ChordType = Major | Minor | Diminished | Augmented | Sus4 | Sus2 | Dominant7

  /** Chord types in the dictionaries' insertion order, the order `detect_chord` tries them. */
  const ChordTypes: seq<ChordType> := [Major, Minor, Diminished, Augmented, Sus4, Sus2, Dominant7]

  /** `CHORD_INTERVALS`: semitones above the root. */
  function ChordIntervals(t: ChordType): seq<int>
  {
    match t
    case Major => [0, 4, 7]
    case Minor => [0, 3, 7]
    case Diminished => [0, 3, 6]
    case Augmented => [0, 4, 8]
    case Sus4 => [0, 5, 7]
    case Sus2 => [0, 2, 7]
    case Dominant7 => [0, 4, 7, 10]
  }

  /** `CHORD_COMPONENTS`: the role of each interval, position by position. */
  function ChordComponents(t: ChordType): seq<string>
  {
    match t
    case Major => ["kök", "majör 3'lü", "tam 5'li"]
    case Minor => ["kök", "minör 3'lü", "tam 5'li"]
    case Diminished => ["kök", "minör 3'lü", "azaltılmış 5'li"]
    case Augmented => ["kök", "majör 3'lü", "artırılmış 5'li"]
    case Sus4 => ["kök", "4'lü", "tam 5'li"]
    case Sus2 => ["kök", "2'li", "tam 5'li"]
    case Dominant7 => ["kök", "majör 3'lü", "tam 5'li", "minör 7'li"]
  }

  /** The two tables line up, every interval lies in one octave and no
      interval occurs twice in a chord. */
  lemma TablesWellFormed(t: ChordType)
    ensures |ChordComponents(t)| == |ChordIntervals(t)| >= 3
    ensures forall k :: 0 <= k < |ChordIntervals(t)| ==> 0 <= ChordIntervals(t)[k] < 12
    ensures NoDuplicates(ChordIntervals(t))
  {
  }

  /** A successful `detect_chord`: root name, chord type, Turkish note names, roles. */
  datatype ChordMatch = ChordMatch(root: string, chordType: ChordType, notes: seq<string>, roles: seq<string>)

  /** `note_values`: the pitch class of every input name, in input order. */
  function PitchValues(notes: seq<string>): (r: seq<PitchClass>)
    requires forall k :: 0 <= k < |notes| ==> notes[k] in Names
    ensures |r| == |notes|
    ensures forall k :: 0 <= k < |r| ==> Names[r[k]] == notes[k]
  {
    seq(|notes|, k requires 0 <= k < |notes| => IndexOf(notes[k]))
  }

  /** `(((n - root) % 12) + 12) % 12` under Python's non-negative `%`. */
  function Offset(n: int, root: int): (r: int)
  {
    ((n - root) % 12 + 12) % 12
  }

  /** The intervals from offset `lo` upwards that some note lies at above `root`. */
  function IntervalsFrom(values: seq<PitchClass>, root: int, lo: nat): (r: seq<int>)
    requires lo <= 12
    ensures forall k :: 0 <= k < |r| ==> lo <= r[k] < 12
    ensures forall j, k :: 0 <= j < k < |r| ==> r[j] < r[k]
    ensures forall x :: x in r <==> lo <= x && exists n :: n in values && Offset(n, root) == x
    decreases 12 - lo
  {
    if lo == 12 then []
    else
      var rest := IntervalsFrom(values, root, lo + 1);
      if exists n :: n in values && Offset(n, root) == lo then [lo] + rest else rest
  }

  /** `sorted(list(set(intervals)))`: the distinct intervals above `root`, ascending. */
  function IntervalsFor(values: seq<PitchClass>, root: int): (r: seq<int>)
    ensures forall k :: 0 <= k < |r| ==> 0 <= r[k] < 12
    ensures forall j, k :: 0 <= j < k < |r| ==> r[j] < r[k]
    ensures forall x :: x in r <==> exists n :: n in values && Offset(n, root) == x
  {
    IntervalsFrom(values, root, 0)
  }

  /** Number of elements of `xs` that occur in `ys`. */
  function CountIn(xs: seq<int>, ys: seq<int>): nat
  {
    if xs == [] then 0 else (if xs[0] in ys then 1 else 0) + CountIn(xs[1..], ys)
  }

  /** Number of elements of `xs` that do not occur in `ys`. */
  function CountNotIn(xs: seq<int>, ys: seq<int>): nat
  {
    if xs == [] then 0 else (if xs[0] in ys then 0 else 1) + CountNotIn(xs[1..], ys)
  }

  /** Every element of `xs` is counted by exactly one of the two counts, and
      `CountIn` reaches `|xs|` exactly when all of `xs` occurs in `ys`. */
  lemma {:induction false} CountsPartition(xs: seq<int>, ys: seq<int>)
    ensures CountIn(xs, ys) + CountNotIn(xs, ys) == |xs|
    ensures CountIn(xs, ys) == |xs| <==> forall k :: 0 <= k < |xs| ==> xs[k] in ys
  {
    if xs != [] {
      CountsPartition(xs[1..], ys);
      if forall k :: 0 <= k < |xs[1..]| ==> xs[1..][k] in ys {
        if xs[0] in ys {
          forall k | 0 <= k < |xs| ensures xs[k] in ys {
            if k > 0 { assert xs[k] == xs[1..][k - 1]; }
          }
        }
      } else {
        var k :| 0 <= k < |xs[1..]| && xs[1..][k] !in ys;
        assert xs[k + 1] !in ys;
      }
    }
  }

  /** `matches`: how many intervals of chord `t` are present above `root`. */
  function Matches(values: seq<PitchClass>, root: int, t: ChordType): nat
  {
    CountIn(ChordIntervals(t), IntervalsFor(values, root))
  }

  /** `extra_notes`: how many present intervals chord `t` does not contain. */
  function Extra(values: seq<PitchClass>, root: int, t: ChordType): nat
  {
    CountNotIn(IntervalsFor(values, root), ChordIntervals(t))
  }

  /** Twice the source's `matches - 0.5 * extra_notes`; doubling keeps every
      comparison with another score (and with the initial 0) the same. */
  function Score(values: seq<PitchClass>, root: int, t: ChordType): int
  {
    2 * Matches(values, root, t) - Extra(values, root, t)
  }

  /** Candidate (root at input position `i`, `j`-th chord type) can be adopted
      at all: at least three matches and a score above the initial best of 0. */
  predicate Qualifies(values: seq<PitchClass>, i: int, j: int)
  {
    0 <= i < |values| && 0 <= j < |ChordTypes| &&
    Matches(values, values[i], ChordTypes[j]) >= 3 && Score(values, values[i], ChordTypes[j]) > 0
  }

  function PairScore(values: seq<PitchClass>, i: int, j: int): int
    requires 0 <= i < |values| && 0 <= j < |ChordTypes|
  {
    Score(values, values[i], ChordTypes[j])
  }

  /** Candidate (i', j') is tried before (i, j): roots in input order, then chord types. */
  predicate Before(i': int, j': int, i: int, j: int)
  {
    i' < i || (i' == i && j' < j)
  }

  /** (i, j) is the best among the candidates tried before (ei, ej): it has the
      top score, and every earlier candidate scores strictly less. */
  ghost predicate BestUpTo(values: seq<PitchClass>, i: int, j: int, ei: int, ej: int)
  {
    Qualifies(values, i, j) && Before(i, j, ei, ej) &&
    forall i', j' :: Before(i', j', ei, ej) && Qualifies(values, i', j') ==>
      PairScore(values, i', j') <= PairScore(values, i, j) &&
      (Before(i', j', i, j) ==> PairScore(values, i', j') < PairScore(values, i, j))
  }

  /** (i, j) is the candidate `detect_chord` ends up with: the first one, in
      iteration order, that reaches the highest qualifying score. */
  ghost predicate IsWinner(values: seq<PitchClass>, i: int, j: int)
  {
    BestUpTo(values, i, j, |values|, 0)
  }

  /** The winner is unique. */
  lemma WinnerUnique(values: seq<PitchClass>, i: int, j: int, i': int, j': int)
    requires IsWinner(values, i, j) && IsWinner(values, i', j')
    ensures i == i' && j == j'
  {
  }

  /** Turkish names of the notes of chord `t` on `root`, interval by interval. */
  function ChordNoteNames(root: PitchClass, t: ChordType): (r: seq<string>)
  {
    seq(|ChordIntervals(t)|, k requires 0 <= k < |ChordIntervals(t)| =>
      TurkishNames[(root + ChordIntervals(t)[k]) % 12])
  }

  /** Note k of the chord is the `NOTE_NAMES_TR` entry of `(root + interval k) % 12`. */
  lemma ChordNoteNamesAt(root: PitchClass, t: ChordType, k: nat)
    requires k < |ChordIntervals(t)|
    ensures |ChordNoteNames(root, t)| == |ChordIntervals(t)|
    ensures ChordNoteNames(root, t)[k] == TurkishOf[Names[(root + ChordIntervals(t)[k]) % 12]]
  {
    TurkishTableAgrees((root + ChordIntervals(t)[k]) % 12);
  }

  /** Position of `x` in `xs` (Python's `list.index`). */
  function PositionOf(xs: seq<int>, x: int): (k: nat)
    requires x in xs
    ensures k < |xs| && xs[k] == x
    ensures forall m :: 0 <= m < k ==> xs[m] != x
  {
    if xs[0] == x then 0 else 1 + PositionOf(xs[1..], x)
  }

  /** Each interval of a chord is found at its own position, so
      `CHORD_INTERVALS[t].index(interval)` is the loop position. */
  lemma PositionOfInterval(t: ChordType, k: nat)
    requires k < |ChordIntervals(t)|
    ensures PositionOf(ChordIntervals(t), ChordIntervals(t)[k]) == k
  {
    TablesWellFormed(t);
    PositionOfDistinct(ChordIntervals(t), k);
  }

  /** In a list without repeats, `index` of the entry at k is k. */
  lemma PositionOfDistinct(xs: seq<int>, k: nat)
    requires k < |xs| && NoDuplicates(xs)
    ensures PositionOf(xs, xs[k]) == k
  {
  }

  /** The loop over `CHORD_INTERVALS[t]` building `chord_notes` and `note_roles`. */
  method ChordComponentsOf(root: PitchClass, t: ChordType) returns (chordNotes: seq<string>, noteRoles: seq<string>)
    ensures |chordNotes| == |noteRoles| == |ChordIntervals(t)|
    ensures chordNotes == ChordNoteNames(root, t)
    ensures noteRoles == ChordComponents(t)
  {
    TablesWellFormed(t);
    var intervals := ChordIntervals(t);
    var components := ChordComponents(t);
    ghost var names := ChordNoteNames(root, t);
    chordNotes, noteRoles := [], [];
    for k := 0 to |intervals|
      invariant chordNotes == names[..k]
      invariant noteRoles == components[..k]
    {
      var noteIdx := (root + intervals[k]) % 12;
      ChordNoteNamesAt(root, t, k);
      ComponentStep(root, intervals, names, components, k, chordNotes, noteRoles);
      chordNotes := chordNotes + [TurkishOf[Names[noteIdx]]];
      noteRoles := noteRoles + [components[PositionOf(intervals, intervals[k])]];
    }
    assert names[..|intervals|] == names;
    assert components[..|intervals|] == components;
  }

  /** One pass of the component loop extends both lists by the entries of interval k. */
  lemma ComponentStep(root: PitchClass, intervals: seq<int>, names: seq<string>, components: seq<string>,
                      k: nat, chordNotes: seq<string>, noteRoles: seq<string>)
    requires k < |intervals| == |names| == |components|
    requires NoDuplicates(intervals)
    requires names[k] == TurkishOf[Names[(root + intervals[k]) % 12]]
    requires chordNotes == names[..k]
    requires noteRoles == components[..k]
    ensures Names[(root + intervals[k]) % 12] in TurkishOf
    ensures intervals[k] in intervals
    ensures chordNotes + [TurkishOf[Names[(root + intervals[k]) % 12]]] == names[..k + 1]
    ensures noteRoles + [components[PositionOf(intervals, intervals[k])]] == components[..k + 1]
  {
    TurkishTableAgrees((root + intervals[k]) % 12);
    PositionOfDistinct(intervals, k);
    assert names[..k + 1] == names[..k] + [names[k]];
    assert components[..k + 1] == components[..k] + [components[k]];
  }

  /** What the search loop knows after trying every candidate before (i, j):
      with nothing adopted the best score is still 0 and no earlier candidate
      qualified; otherwise (bi, bj) is the best so far and its score is kept. */
  ghost predicate SearchState(values: seq<PitchClass>, found: bool, bestScore: int, bi: int, bj: int, i: int, j: int)
  {
    (!found ==> bestScore == 0 && forall i', j' :: Before(i', j', i, j) ==> !Qualifies(values, i', j')) &&
    (found ==> BestUpTo(values, bi, bj, i, j) && bestScore == PairScore(values, bi, bj))
  }

  /** Trying candidate (i, j) with the test `matches >= 3 and score > best_match_score`
      moves the search state on to (i, j + 1), adopting the candidate when the test holds. */
  lemma SearchStep(values: seq<PitchClass>, found: bool, bestScore: int, bi: int, bj: int, i: int, j: int)
    requires 0 <= i < |values| && 0 <= j < |ChordTypes|
    requires SearchState(values, found, bestScore, bi, bj, i, j)
    ensures var adopt := Matches(values, values[i], ChordTypes[j]) >= 3 && PairScore(values, i, j) > bestScore;
      if adopt then SearchState(values, true, PairScore(values, i, j), i, j, i, j + 1)
      else SearchState(values, found, bestScore, bi, bj, i, j + 1)
  {
    if Matches(values, values[i], ChordTypes[j]) >= 3 && PairScore(values, i, j) > bestScore {
      SearchAdopt(values, found, bestScore, bi, bj, i, j);
    } else {
      SearchKeep(values, found, bestScore, bi, bj, i, j);
    }
  }

  /** A candidate that passes the test becomes the best so far. */
  lemma SearchAdopt(values: seq<PitchClass>, found: bool, bestScore: int, bi: int, bj: int, i: int, j: int)
    requires 0 <= i < |values| && 0 <= j < |ChordTypes|
    requires SearchState(values, found, bestScore, bi, bj, i, j)
    requires Matches(values, values[i], ChordTypes[j]) >= 3 && PairScore(values, i, j) > bestScore
    ensures SearchState(values, true, PairScore(values, i, j), i, j, i, j + 1)
  {
    assert Qualifies(values, i, j);
  }

  /** A candidate that fails the test leaves the best so far as it was. */
  lemma SearchKeep(values: seq<PitchClass>, found: bool, bestScore: int, bi: int, bj: int, i: int, j: int)
    requires 0 <= i < |values| && 0 <= j < |ChordTypes|
    requires SearchState(values, found, bestScore, bi, bj, i, j)
    requires !(Matches(values, values[i], ChordTypes[j]) >= 3 && PairScore(values, i, j) > bestScore)
    ensures SearchState(values, found, bestScore, bi, bj, i, j + 1)
  {
    if found {
      assert BestUpTo(values, bi, bj, i, j);
    }
  }

  /** After the last chord type of root i comes the first chord type of root i + 1. */
  lemma SearchNextRoot(values: seq<PitchClass>, found: bool, bestScore: int, bi: int, bj: int, i: int)
    requires SearchState(values, found, bestScore, bi, bj, i, |ChordTypes|)
    ensures SearchState(values, found, bestScore, bi, bj, i + 1, 0)
  {
    assert forall i', j' :: Before(i', j', i + 1, 0) && 0 <= j' < |ChordTypes| ==> Before(i', j', i, |ChordTypes|);
  }

  /** Once every root has been tried, the search state is the result. */
  lemma SearchDone(values: seq<PitchClass>, found: bool, bestScore: int, bi: int, bj: int)
    requires SearchState(values, found, bestScore, bi, bj, |values|, 0)
    ensures !found <==> forall i, j :: !Qualifies(values, i, j)
    ensures found ==> IsWinner(values, bi, bj)
  {
  }

  /** The inner loop of the search: every chord type on the root at position `i`. */
  method TryChordTypes(values: seq<PitchClass>, i: int, found0: bool, bestRoot0: PitchClass, bestType0: ChordType,
                       bestScore0: int, ghost bi0: int, ghost bj0: int)
    returns (found: bool, bestRoot: PitchClass, bestType: ChordType, bestScore: int, ghost bi: int, ghost bj: int)
    requires 0 <= i < |values|
    requires SearchState(values, found0, bestScore0, bi0, bj0, i, 0)
    requires found0 ==> 0 <= bi0 < |values| && 0 <= bj0 < |ChordTypes| && bestRoot0 == values[bi0] && bestType0 == ChordTypes[bj0]
    ensures SearchState(values, found, bestScore, bi, bj, i + 1, 0)
    ensures found ==> 0 <= bi < |values| && 0 <= bj < |ChordTypes| && bestRoot == values[bi] && bestType == ChordTypes[bj]
  {
    found, bestRoot, bestType, bestScore, bi, bj := found0, bestRoot0, bestType0, bestScore0, bi0, bj0;
    var intervals := IntervalsFor(values, values[i]);
    for j := 0 to |ChordTypes|
      invariant SearchState(values, found, bestScore, bi, bj, i, j)
      invariant found ==> 0 <= bi < |values| && 0 <= bj < |ChordTypes| && bestRoot == values[bi] && bestType == ChordTypes[bj]
    {
      var chordType := ChordTypes[j];
      var matches: int := CountIn(ChordIntervals(chordType), intervals);
      var extraNotes: int := CountNotIn(intervals, ChordIntervals(chordType));
      var score: int := 2 * matches - extraNotes;
      SearchStep(values, found, bestScore, bi, bj, i, j);
      if matches >= 3 && score > bestScore {
        found := true;
        bestRoot, bestType, bestScore := values[i], chordType, score;
        bi, bj := i, j;
      }
    }
    SearchNextRoot(values, found, bestScore, bi, bj, i);
  }

  /** The search over roots and chord types: `found` is false when no
      candidate qualified, otherwise (bi, bj) is the winner. */
  method FindBestMatch(values: seq<PitchClass>) returns (found: bool, bestRoot: PitchClass, bestType: ChordType, ghost bi: int, ghost bj: int)
    ensures !found <==> forall i, j :: !Qualifies(values, i, j)
    ensures found ==> IsWinner(values, bi, bj) && bestRoot == values[bi] && bestType == ChordTypes[bj]
  {
    found := false;
    bestRoot, bestType := 0, Major;
    var bestScore := 0;
    bi, bj := 0, 0;
    for i := 0 to |values|
      invariant SearchState(values, found, bestScore, bi, bj, i, 0)
      invariant found ==> 0 <= bi < |values| && 0 <= bj < |ChordTypes| && bestRoot == values[bi] && bestType == ChordTypes[bj]
    {
      found, bestRoot, bestType, bestScore, bi, bj := TryChordTypes(values, i, found, bestRoot, bestType, bestScore, bi, bj);
    }
    SearchDone(values, found, bestScore, bi, bj);
  }

  /** The loop building `note_values` from the input names. */
  method NoteValues(notes: seq<string>) returns (values: seq<PitchClass>)
    requires forall k :: 0 <= k < |notes| ==> notes[k] in Names
    ensures values == PitchValues(notes)
  {
    values := [];
    for k := 0 to |notes|
      invariant |values| == k
      invariant forall m :: 0 <= m < k ==> values[m] == IndexOf(notes[m])
    {
      values := values + [IndexOf(notes[k])];
    }
  }

  /** `detect_chord`: tries every input note as root, in input order, and every
      chord type in table order; adopts a candidate when it has at least three
      matches and beats the best score so far (initially 0). */
  method DetectChord(notes: seq<string>) returns (r: Option<ChordMatch>)
    requires |notes| >= 3 ==> forall k :: 0 <= k < |notes| ==> notes[k] in Names
    ensures |notes| < 3 ==> r == None
    ensures r.None? <==> |notes| < 3 || forall i, j :: !Qualifies(PitchValues(notes), i, j)
    ensures r.Some? ==> exists i, j ::
      IsWinner(PitchValues(notes), i, j) && r.value.root == notes[i] && r.value.chordType == ChordTypes[j]
    ensures r.Some? ==> r.value.root in notes
    ensures r.Some? ==>
      |r.value.notes| == |r.value.roles| == |ChordIntervals(r.value.chordType)| &&
      r.value.roles == ChordComponents(r.value.chordType) &&
      r.value.notes == ChordNoteNames(IndexOf(r.value.root), r.value.chordType)
  {
    if |notes| < 3 {
      return None;
    }
    var values := NoteValues(notes);
    var found, bestRoot, bestType, bi, bj := FindBestMatch(values);
    if !found {
      return None;
    }
    IndexOfName(bestRoot);
    var chordNotes, noteRoles := ChordComponentsOf(bestRoot, bestType);
    r := Some(ChordMatch(Names[bestRoot], bestType, chordNotes, noteRoles));
    assert r.value.root == notes[bi];
  }

  /** The note name and octave `frequency_to_note` returns. */
  datatype NoteOctave = NoteOctave(name: string, octave: int)

  /** Python's `round` on a float: to the nearest integer, ties to the even one. */
  function RoundHalfEven(x: real): (n: int)
    ensures x - 0.5 <= n as real <= x + 0.5
    ensures (n as real == x - 0.5 || n as real == x + 0.5) ==> n % 2 == 0
  {
    var f := x.Floor;
    var d := x - f as real;
    if d < 0.5 then f
    else if d > 0.5 then f + 1
    else if f % 2 == 0 then f else f + 1
  }

  /** Python's `int(a / b)`: true division, then truncation toward zero. */
  function TruncDiv(a: int, b: int): (q: int)
    requires b > 0
    ensures a >= 0 ==> q * b <= a < q * b + b
    ensures a < 0 ==> q * b - b < a <= q * b
  {
    if a >= 0 then a / b else -((-a) / b)
  }

  /** `frequency_to_note` of app.py, from the frequency and the MIDI number
      `69 + 12 * log2(frequency / 440)` it derives from it. */
  function FrequencyToNote(frequency: real, midiNumber: real): (r: Option<NoteOctave>)
    ensures r.None? <==> frequency <= 0.0 || midiNumber < 21.0 || midiNumber > 108.0
    ensures r.Some? ==>
      var n := RoundHalfEven(midiNumber);
      21 <= n <= 108 && r.value.name == Names[n % 12] &&
      0 <= r.value.octave <= 8 && 12 * (r.value.octave + 1) + n % 12 == n
  {
    if frequency <= 0.0 then None
    else if midiNumber < 21.0 || midiNumber > 108.0 then None
    else
      var rounded := RoundHalfEven(midiNumber);
      var noteIndex := rounded % 12;
      var octave := TruncDiv(rounded - 12, 12);
      OctaveOfMidi(rounded);
      Some(NoteOctave(Names[noteIndex], octave))
  }

  /** On the piano range the truncating division is the octave number, and
      octave and pitch class together give back the MIDI number. */
  lemma OctaveOfMidi(n: int)
    requires 21 <= n <= 108
    ensures 0 <= TruncDiv(n - 12, 12) <= 8
    ensures 12 * (TruncDiv(n - 12, 12) + 1) + n % 12 == n
  {
    assert TruncDiv(n - 12, 12) == (n - 12) / 12;
  }
}
