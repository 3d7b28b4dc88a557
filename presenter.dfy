/** The highlight presenter of wwwroot/js/app.js: the keyboard keys as
    records, `clearKeyHighlights`, `highlightKey`, `getChordNoteColor`,
    `getRoleClass`, and what a delivered result does to the keys. CSS values
    are represented by the colour entry or the opacity string they come from. */
module Presenter {
  import opened Util
  import opened NoteNames
  import opened DetectionClient

  /** The entries of `CHORD_COLORS`; each fixes a background and a text colour. */
  datatype ChordColor = RootColor | ThirdColor | FifthColor | SeventhColor

  /** `getChordNoteColor`: the colour of chord note `index`, root beyond the table. */
  function ChordNoteColor(index: nat): ChordColor
  {
    if index == 0 then RootColor
    else if index == 1 then ThirdColor
    else if index == 2 then FifthColor
    else if index == 3 then SeventhColor
    else RootColor
  }

  /** `getRoleClass`: the CSS class of chord note `index` in the details text, `''` beyond the table. */
  function RoleClass(index: nat): string
  {
    if index < 4 then ["chord-root", "chord-third", "chord-fifth", "chord-seventh"][index] else ""
  }

  /** The role name a colour stands for. */
  function RoleName(c: ChordColor): string
  {
    match c
    case RootColor => "root"
    case ThirdColor => "third"
    case FifthColor => "fifth"
    case SeventhColor => "seventh"
  }

  /** The key colour and the details class agree on the role of the first
      four chord notes, and give them four different roles; from the fifth
      note on the class is empty while the colour falls back to the root's. */
  lemma ColorAndClassAgree(index: nat)
    ensures index < 4 ==> RoleClass(index) == "chord-" + RoleName(ChordNoteColor(index))
    ensures index < 4 ==> forall other: nat :: other < 4 && other != index ==> ChordNoteColor(other) != ChordNoteColor(index)
    ensures index >= 4 ==> RoleClass(index) == "" && ChordNoteColor(index) == RootColor
  {
  }

  /** What the page shows on one key: the `active` class, the key's
      background and opacity, and the inner label's text, visibility and colour. */
  datatype KeyView = KeyView(active: bool, background: Option<ChordColor>, opacity: string,
                             caption: string, labelShown: bool, labelColor: Option<ChordColor>)

  /** A key: `data-note` (e.g. "C#4"), `data-noteTr` (e.g. "Do#4"), black or white, and its view. */
  datatype Key = Key(note: string, noteTr: string, black: bool, view: KeyView)

  /** The view `clearKeyHighlights` leaves on every key. */
  const ClearedView := KeyView(false, None, "", "", false, None)

  /** The keyboard the page builds: octave 4 then octave 5, twelve keys each. */
  function Keyboard(): (keys: seq<Key>)
  {
    seq(24, j requires 0 <= j < 24 =>
      var p := j % 12;
      var octave := if j < 12 then "4" else "5";
      Key(Names[p] + octave, TurkishNames[p] + octave, '#' in Names[p], ClearedView))
  }

  /** `clearKeyHighlights`, on a sequence of keys. */
  function Cleared(keys: seq<Key>): (r: seq<Key>)
  {
    seq(|keys|, j requires 0 <= j < |keys| => keys[j].(view := ClearedView))
  }

  /** `highlightKey(key, color, noteText)`, with `""` for a missing text
      (both are falsy). */
  function Highlighted(key: Key, color: Option<ChordColor>, noteText: string): (r: Key)
  {
    var v := key.view.(active := true);
    var v := if noteText != "" then v.(caption := noteText, labelShown := true,
                                       labelColor := if color.Some? then color else v.labelColor)
             else v;
    var v := if color.Some? then v.(background := color, opacity := if key.black then "0.9" else "0.7")
             else v;
    key.(view := v)
  }

  /** Highlighting with a colour and a text sets the whole view, whatever was there before. */
  lemma HighlightedOverwrites(a: Key, b: Key, c: ChordColor, text: string)
    requires text != "" && a.black == b.black
    ensures Highlighted(a, Some(c), text).view == Highlighted(b, Some(c), text).view
    ensures Highlighted(a, Some(c), text).view.background == Some(c) && Highlighted(a, Some(c), text).view.caption == text
  {
  }

  /** The attributes a key carries: `data-note`, and `data-note-tr`, which is
      where the page's `dataset.noteTr` is stored. */
  function Attribute(k: Key, attr: string): (v: Option<string>)
  {
    if attr == "data-note" then Some(k.note)
    else if attr == "data-note-tr" then Some(k.noteTr)
    else None
  }

  /** The two attribute selectors the page uses: `[attr="value"]` and `[attr^="value"]`. */
  datatype Selector = Equals(attr: string, value: string) | StartsWith(attr: string, value: string)

  predicate Matches(k: Key, sel: Selector)
  {
    var v := Attribute(k, sel.attr);
    v.Some? && (if sel.Equals? then v.value == sel.value else IsPrefix(sel.value, v.value))
  }

  /** `querySelector`: the first key, in document order, that the selector matches. */
  function QuerySelector(keys: seq<Key>, sel: Selector): (r: Option<nat>)
    ensures r.Some? ==> r.value < |keys| && Matches(keys[r.value], sel)
    ensures r.Some? ==> forall j :: 0 <= j < r.value ==> !Matches(keys[j], sel)
    ensures r.None? ==> forall j :: 0 <= j < |keys| ==> !Matches(keys[j], sel)
  {
    if keys == [] then None
    else if Matches(keys[0], sel) then Some(0)
    else match QuerySelector(keys[1..], sel)
      case None => None
      case Some(k) => Some(k + 1)
  }

  /** `[data-note="…"]`: the key whose note and octave are exactly `noteEn`. */
  function NoteKey(keys: seq<Key>, noteEn: string): Option<nat>
  {
    QuerySelector(keys, Equals("data-note", noteEn))
  }

  /** The chord-note lookup as written, `[data-noteTr^="…"]`: attribute names
      in an HTML selector are matched without regard to case, so it asks for
      `data-notetr`, an attribute no key has. */
  function ChordKeyAsWritten(keys: seq<Key>, name: string): Option<nat>
  {
    QuerySelector(keys, StartsWith("data-notetr", name))
  }

  /** The chord-note lookup as intended: the first key, in keyboard order,
      whose Turkish label starts with `name`. */
  function ChordKey(keys: seq<Key>, name: string): Option<nat>
  {
    QuerySelector(keys, StartsWith("data-note-tr", name))
  }

  /** The lookup as written finds no key, on any keyboard, for any note. */
  lemma ChordKeyAsWrittenFindsNothing(keys: seq<Key>, name: string)
    ensures ChordKeyAsWritten(keys, name) == None
  {
  }

  /** On the page's keyboard, the chord note "Do" lights nothing as written,
      while the intended lookup finds the key "Do4". */
  lemma ChordKeyAsWrittenMissesDo()
    ensures ChordKeyAsWritten(Keyboard(), "Do") == None
    ensures ChordKey(Keyboard(), "Do") == Some(0)
  {
    ChordKeyAsWrittenFindsNothing(Keyboard(), "Do");
    ChordKeyFindsLowerOctave(0);
  }

  /** On the page's keyboard a Turkish pitch-class name finds its own key in
      the lower octave: a natural comes before its sharp, so "Do" stops at
      "Do4" and "Do#" goes on to "Do#4". */
  lemma ChordKeyFindsLowerOctave(p: PitchClass)
    ensures ChordKey(Keyboard(), TurkishNames[p]) == Some(p)
  {
    KeyboardLowerOctave();
    LowerOctaveMatches(Keyboard(), p);
    QuerySelectorFinds(Keyboard(), StartsWith("data-note-tr", TurkishNames[p]), p);
  }

  /** The first twelve keys carry the Turkish names with octave 4. */
  lemma KeyboardLowerOctave()
    ensures |Keyboard()| == 24
    ensures forall j :: 0 <= j < 12 ==> Keyboard()[j].noteTr == TurkishNames[j] + "4"
  {
    forall j | 0 <= j < 12
      ensures Keyboard()[j].noteTr == TurkishNames[j] + "4"
    {
      KeyboardLabel(j);
    }
  }

  /** On keys labelled like the lower octave, key `p` carries the name of
      pitch class `p` and no earlier key does. */
  lemma LowerOctaveMatches(keys: seq<Key>, p: PitchClass)
    requires |keys| >= 12 && forall j :: 0 <= j < 12 ==> keys[j].noteTr == TurkishNames[j] + "4"
    ensures IsPrefix(TurkishNames[p], keys[p].noteTr)
    ensures forall j :: 0 <= j < p ==> !IsPrefix(TurkishNames[p], keys[j].noteTr)
  {
    var name := TurkishNames[p];
    assert (name + "4")[..|name|] == name;
    forall j | 0 <= j < p
      ensures !IsPrefix(name, keys[j].noteTr)
    {
      NotPrefixOfEarlierKey(p, j);
    }
  }

  /** The labels of the page's keyboard: name and octave 4, then octave 5. */
  lemma KeyboardLabel(j: nat)
    requires j < 24
    ensures |Keyboard()| == 24
    ensures Keyboard()[j].note == Names[j % 12] + (if j < 12 then "4" else "5")
    ensures Keyboard()[j].noteTr == TurkishNames[j % 12] + (if j < 12 then "4" else "5")
  {
  }

  /** No Turkish name is a prefix of an earlier name's lower-octave label. */
  lemma NotPrefixOfEarlierKey(p: PitchClass, j: PitchClass)
    requires j < p
    ensures !IsPrefix(TurkishNames[p], TurkishNames[j] + "4")
  {
    var a := TurkishNames[p];
    var b := TurkishNames[j] + "4";
    if |a| <= |b| {
      assert a[0] != b[0] || a[1] != b[1] || (|a| > 2 && a[2] != b[2]) || (|a| > 3 && a[3] != b[3]);
    }
  }

  /** A key the selector matches, with no earlier match, is what `querySelector` returns. */
  lemma {:induction false} QuerySelectorFinds(keys: seq<Key>, sel: Selector, k: nat)
    requires k < |keys| && Matches(keys[k], sel) && forall j :: 0 <= j < k ==> !Matches(keys[j], sel)
    ensures QuerySelector(keys, sel) == Some(k)
  {
    if k > 0 {
      QuerySelectorFinds(keys[1..], sel, k - 1);
    }
  }

  /** `${note} (${role})`. */
  function ChordLabel(note: string, role: string): string
  {
    note + " (" + role + ")"
  }

  /** `note_roles[index]`, which is `undefined` past the end of the list. */
  function RoleAt(roles: seq<string>, index: nat): string
  {
    if index < |roles| then roles[index] else "undefined"
  }

  /** Highlighting chord note `k` on the key the lookup finds, if any. */
  function HighlightNote(keys: seq<Key>, c: ChordReply, k: nat): (r: seq<Key>)
    requires k < |c.notes|
    ensures |r| == |keys|
  {
    match ChordKey(keys, c.notes[k])
    case None => keys
    case Some(j) => keys[j := Highlighted(keys[j], Some(ChordNoteColor(k)), ChordLabel(c.notes[k], RoleAt(c.noteRoles, k)))]
  }

  /** The keys after the first `n` notes of the chord have been highlighted,
      each on the key the lookup finds at that moment. */
  function ChordHighlights(keys: seq<Key>, c: ChordReply, n: nat): (r: seq<Key>)
    requires n <= |c.notes|
    ensures |r| == |keys|
  {
    if n == 0 then keys else HighlightNote(ChordHighlights(keys, c, n - 1), c, n - 1)
  }

  /** Both key sequences show the same keyboard (only views may differ). */
  predicate SameKeyboard(a: seq<Key>, b: seq<Key>)
  {
    |a| == |b| && forall j :: 0 <= j < |a| ==> a[j].note == b[j].note && a[j].noteTr == b[j].noteTr && a[j].black == b[j].black
  }

  /** Lookups see only the keyboard, not the views. */
  lemma {:induction false} LookupsIgnoreViews(a: seq<Key>, b: seq<Key>, name: string)
    requires SameKeyboard(a, b)
    ensures ChordKey(a, name) == ChordKey(b, name)
    ensures NoteKey(a, name) == NoteKey(b, name)
  {
    if a != [] {
      assert SameKeyboard(a[1..], b[1..]);
      LookupsIgnoreViews(a[1..], b[1..], name);
    }
  }

  /** One chord note changes views only; the key it does not land on is
      untouched, and the key it lands on shows its colour and label. */
  lemma HighlightNoteEffect(keys: seq<Key>, c: ChordReply, k: nat, j: nat)
    requires k < |c.notes| && j < |keys|
    ensures SameKeyboard(keys, HighlightNote(keys, c, k))
    ensures ChordKey(keys, c.notes[k]) != Some(j) ==> HighlightNote(keys, c, k)[j] == keys[j]
    ensures ChordKey(keys, c.notes[k]) == Some(j) ==> HighlightNote(keys, c, k)[j].view == ChordNoteView(c, k, keys[j].black)
  {
  }

  /** Highlighting chord notes changes views only. */
  lemma {:induction false} ChordHighlightsKeepKeyboard(keys: seq<Key>, c: ChordReply, n: nat)
    requires n <= |c.notes|
    ensures SameKeyboard(keys, ChordHighlights(keys, c, n))
  {
    if n > 0 && |keys| > 0 {
      ChordHighlightsKeepKeyboard(keys, c, n - 1);
      HighlightNoteEffect(ChordHighlights(keys, c, n - 1), c, n - 1, 0);
    }
  }

  /** A chord note that lands elsewhere leaves key `j` as it was. */
  lemma ChordHighlightsMissStep(keys: seq<Key>, c: ChordReply, n: nat, j: nat)
    requires 0 < n <= |c.notes| && j < |keys|
    requires ChordKey(keys, c.notes[n - 1]) != Some(j)
    ensures ChordHighlights(keys, c, n)[j] == ChordHighlights(keys, c, n - 1)[j]
  {
    var prev := ChordHighlights(keys, c, n - 1);
    ChordHighlightsKeepKeyboard(keys, c, n - 1);
    LookupsIgnoreViews(keys, prev, c.notes[n - 1]);
    assert ChordKey(prev, c.notes[n - 1]) != Some(j);
    assert ChordHighlights(keys, c, n) == HighlightNote(prev, c, n - 1);
    HighlightNoteEffect(prev, c, n - 1, j);
  }

  /** A key that no chord note's lookup finds keeps the view it had. */
  lemma {:induction false} ChordHighlightsMissKey(keys: seq<Key>, c: ChordReply, n: nat, j: nat)
    requires n <= |c.notes| && j < |keys|
    requires forall k :: 0 <= k < n ==> ChordKey(keys, c.notes[k]) != Some(j)
    ensures ChordHighlights(keys, c, n)[j] == keys[j]
  {
    if n > 0 {
      ChordHighlightsMissStep(keys, c, n, j);
      ChordHighlightsMissKey(keys, c, n - 1, j);
    }
  }

  /** The view that chord note `k` gives its key. */
  function ChordNoteView(c: ChordReply, k: nat, black: bool): KeyView
    requires k < |c.notes|
  {
    KeyView(true, Some(ChordNoteColor(k)), if black then "0.9" else "0.7",
            ChordLabel(c.notes[k], RoleAt(c.noteRoles, k)), true, Some(ChordNoteColor(k)))
  }

  /** The chord note highlighted last shows its view on the key it lands on. */
  lemma ChordHighlightsHitStep(keys: seq<Key>, c: ChordReply, n: nat, j: nat)
    requires 0 < n <= |c.notes| && j < |keys|
    requires ChordKey(keys, c.notes[n - 1]) == Some(j)
    ensures ChordHighlights(keys, c, n)[j].view == ChordNoteView(c, n - 1, keys[j].black)
  {
    var prev := ChordHighlights(keys, c, n - 1);
    ChordHighlightsKeepKeyboard(keys, c, n - 1);
    LookupsIgnoreViews(keys, prev, c.notes[n - 1]);
    assert ChordKey(prev, c.notes[n - 1]) == Some(j) && prev[j].black == keys[j].black;
    assert ChordHighlights(keys, c, n) == HighlightNote(prev, c, n - 1);
    HighlightNoteEffect(prev, c, n - 1, j);
  }

  /** The key found for chord note `k`, when no later note lands on it,
      shows the colour of position `k` and the label "note (role)". */
  lemma {:induction false} ChordHighlightsLastHit(keys: seq<Key>, c: ChordReply, n: nat, k: nat, j: nat)
    requires k < n <= |c.notes|
    requires ChordKey(keys, c.notes[k]) == Some(j)
    requires forall k' :: k < k' < n ==> ChordKey(keys, c.notes[k']) != Some(j)
    ensures j < |keys|
    ensures ChordHighlights(keys, c, n)[j].view == ChordNoteView(c, k, keys[j].black)
  {
    if k < n - 1 {
      assert ChordKey(keys, c.notes[n - 1]) != Some(j);
      ChordHighlightsMissStep(keys, c, n, j);
      ChordHighlightsLastHit(keys, c, n - 1, k, j);
    } else {
      ChordHighlightsHitStep(keys, c, n, j);
    }
  }

  /** What a delivered payload does to the keys: every key is reset, then the
      note's key or the chord's keys are highlighted. */
  function PresentedKeys(keys: seq<Key>, kind: DetectKind, p: Payload): (r: seq<Key>)
    ensures |r| == |keys|
  {
    var cleared := Cleared(keys);
    match ShownFor(kind, p)
    case ShowNote(n) =>
      (match NoteKey(cleared, n.noteEn)
       case None => cleared
       case Some(j) => cleared[j := Highlighted(cleared[j], Some(RootColor), n.note)])
    case ShowChord(c) => ChordHighlights(cleared, c, |c.notes|)
    case ShowNothing => cleared
  }

  /** The keys a delivered payload lights up. */
  predicate Lit(keys: seq<Key>, kind: DetectKind, p: Payload, j: nat)
  {
    match ShownFor(kind, p)
    case ShowNote(n) => NoteKey(keys, n.noteEn) == Some(j)
    case ShowChord(c) => exists k :: 0 <= k < |c.notes| && ChordKey(keys, c.notes[k]) == Some(j)
    case ShowNothing => false
  }

  /** No stale highlight survives a delivered result: every key it does not
      light up is back to the cleared view, and the keyboard itself is kept. */
  lemma PresentedClearsTheRest(keys: seq<Key>, kind: DetectKind, p: Payload, j: nat)
    requires j < |keys| && !Lit(keys, kind, p, j)
    ensures PresentedKeys(keys, kind, p)[j] == keys[j].(view := ClearedView)
  {
    var cleared := Cleared(keys);
    assert SameKeyboard(keys, cleared);
    match ShownFor(kind, p)
    case ShowNote(n) =>
      LookupsIgnoreViews(keys, cleared, n.noteEn);
    case ShowChord(c) =>
      forall k | 0 <= k < |c.notes|
        ensures ChordKey(cleared, c.notes[k]) != Some(j)
      {
        LookupsIgnoreViews(keys, cleared, c.notes[k]);
      }
      ChordHighlightsMissKey(cleared, c, |c.notes|, j);
    case ShowNothing =>
  }

  /** Presenting keeps the keyboard: only the views change. */
  lemma PresentedKeepsKeyboard(keys: seq<Key>, kind: DetectKind, p: Payload)
    ensures SameKeyboard(keys, PresentedKeys(keys, kind, p))
  {
    var cleared := Cleared(keys);
    match ShownFor(kind, p)
    case ShowNote(n) =>
    case ShowChord(c) =>
      ChordHighlightsKeepKeyboard(cleared, c, |c.notes|);
    case ShowNothing =>
  }

  /** Chord note `k`, when no later note lands on its key, lights that key in
      the colour of its position with the label "note (role)". */
  lemma PresentedChordNote(keys: seq<Key>, c: ChordReply, p: Payload, k: nat, j: nat)
    requires p.chord == Some(c) && k < |c.notes|
    requires ChordKey(keys, c.notes[k]) == Some(j)
    requires forall k' :: k < k' < |c.notes| ==> ChordKey(keys, c.notes[k']) != Some(j)
    ensures j < |keys|
    ensures PresentedKeys(keys, ChordKind, p)[j].view == ChordNoteView(c, k, keys[j].black)
  {
    var cleared := Cleared(keys);
    assert SameKeyboard(keys, cleared);
    LookupsIgnoreViews(keys, cleared, c.notes[k]);
    forall k' | k < k' < |c.notes|
      ensures ChordKey(cleared, c.notes[k']) != Some(j)
    {
      LookupsIgnoreViews(keys, cleared, c.notes[k']);
    }
    ChordHighlightsLastHit(cleared, c, |c.notes|, k, j);
  }

  /** A detected note lights its own key in the root colour, labelled with
      the note's Turkish name. */
  lemma PresentedNote(keys: seq<Key>, n: NoteReply, p: Payload, j: nat)
    requires p.note == Some(n) && n.note != ""
    requires NoteKey(keys, n.noteEn) == Some(j)
    ensures j < |keys| && keys[j].note == n.noteEn
    ensures PresentedKeys(keys, NoteKind, p)[j].view ==
      KeyView(true, Some(RootColor), if keys[j].black then "0.9" else "0.7", n.note, true, Some(RootColor))
  {
    var cleared := Cleared(keys);
    assert SameKeyboard(keys, cleared);
    LookupsIgnoreViews(keys, cleared, n.noteEn);
  }

  /** The details line of a delivered result. */
  datatype Component = Component(note: string, role: string, roleClass: string)
  datatype Details = Text(text: string) | Frequency(hz: real) | Components(parts: seq<Component>)

  /** `resultText` after a delivered payload. */
  function ResultTextFor(kind: DetectKind, p: Payload): string
  {
    match ShownFor(kind, p)
    case ShowNote(n) => n.note
    case ShowChord(c) => c.fullName
    case ShowNothing => "-"
  }

  /** `resultDetails` after a delivered payload: the frequency, the chord's
      notes with their roles and classes, or "… tespit edilemedi". */
  function DetailsFor(kind: DetectKind, p: Payload): (d: Details)
    ensures d.Components? ==> p.chord.Some? && |d.parts| == |p.chord.value.notes|
    ensures d.Components? ==> forall k :: 0 <= k < |d.parts| ==>
      d.parts[k] == Component(p.chord.value.notes[k], RoleAt(p.chord.value.noteRoles, k), RoleClass(k))
  {
    match ShownFor(kind, p)
    case ShowNote(n) => Frequency(n.frequency)
    case ShowChord(c) =>
      Components(seq(|c.notes|, k requires 0 <= k < |c.notes| => Component(c.notes[k], RoleAt(c.noteRoles, k), RoleClass(k))))
    case ShowNothing => Text(KindWord(kind) + " tespit edilemedi")
  }
}
