/** The page controller of wwwroot/js/app.js: recording state and its four
    Web Audio handles, the silence gate on incoming audio blocks, the key
    highlights and the detection flow of `detectSound`. The DOM elements the
    controller writes become fields; the audio graph is represented by
    handles, and what tearing it down does is logged in `released`. */
module Page {
  import opened Util
  import opened ChunkAverager
  import opened DetectionClient
  import opened Presenter

  /** The texts the controller writes into the record button and `#status`. */
  const StartLabel := "Kayda Başla"
  const StopLabel := "Kaydı Durdur"
  const RecordingStatus := "Kayıt yapılıyor..."
  const RecordedStatus := "Kayıt tamamlandı. Nota veya akor tespiti için butona tıklayın."
  const MicrophoneRefusedStatus := "Mikrofon erişimi reddedildi"
  const NothingRecordedStatus := "Önce ses kaydı yapın"

  /** Which of the four objects of the audio graph a handle is. */
  datatype NodeRole = ContextRole | AnalyserRole | MicrophoneRole | ProcessorRole

  /** An object of the audio graph, with the recording session that created it. */
  datatype AudioHandle = AudioHandle(session: nat, role: NodeRole)

  /** A POST to the detection service: the audio body, and whether the note
      and chord buttons were disabled at the moment it went out. */
  datatype Post = Post(audio: seq<real>, noteDisabled: bool, chordDisabled: bool)

  /** `node.disconnect()` or `audioContext.close()`. */
  datatype Release = Disconnect(h: AudioHandle) | Close(h: AudioHandle)

  /** Every present handle sits in the slot of its own role. */
  predicate HandlesTyped(context: Option<AudioHandle>, analyser: Option<AudioHandle>,
                         microphone: Option<AudioHandle>, processor: Option<AudioHandle>)
  {
    && (context.Some? ==> context.value.role == ContextRole)
    && (analyser.Some? ==> analyser.value.role == AnalyserRole)
    && (microphone.Some? ==> microphone.value.role == MicrophoneRole)
    && (processor.Some? ==> processor.value.role == ProcessorRole)
  }

  function Present(h: Option<AudioHandle>): nat
  {
    if h.Some? then 1 else 0
  }

  /** Whether `stopRecording` releases `x` given these handles. */
  predicate ReleasedBy(x: Release, context: Option<AudioHandle>, analyser: Option<AudioHandle>,
                       microphone: Option<AudioHandle>, processor: Option<AudioHandle>)
  {
    match x
    case Close(h) => context == Some(h)
    case Disconnect(h) => processor == Some(h) || microphone == Some(h) || analyser == Some(h)
  }

  /** The releases of `stopRecording`, in its order: processor, microphone and
      analyser disconnected, then the context closed; a null handle is skipped. */
  function Teardown(context: Option<AudioHandle>, analyser: Option<AudioHandle>,
                    microphone: Option<AudioHandle>, processor: Option<AudioHandle>): seq<Release>
  {
    (if processor.Some? then [Disconnect(processor.value)] else [])
    + (if microphone.Some? then [Disconnect(microphone.value)] else [])
    + (if analyser.Some? then [Disconnect(analyser.value)] else [])
    + (if context.Some? then [Close(context.value)] else [])
  }

  /** Teardown releases every present handle exactly once and nothing else,
      closing the context only after its nodes are disconnected. */
  lemma TeardownReleasesEachOnce(context: Option<AudioHandle>, analyser: Option<AudioHandle>,
                                 microphone: Option<AudioHandle>, processor: Option<AudioHandle>)
    requires HandlesTyped(context, analyser, microphone, processor)
    ensures var r := Teardown(context, analyser, microphone, processor);
      && |r| == Present(context) + Present(analyser) + Present(microphone) + Present(processor)
      && NoDuplicates(r)
      && (forall x :: x in r <==> ReleasedBy(x, context, analyser, microphone, processor))
      && (context.Some? ==> r[|r| - 1] == Close(context.value))
  {
  }

  /** The handle slots `startRecording` has filled before step `step` throws:
      step 0 creates the context, 1 the analyser, 2 the microphone source,
      3 the processor; a later step (a `connect`) finds all four created. */
  function CreatedBefore(step: nat, session: nat): (handles: (Option<AudioHandle>, Option<AudioHandle>, Option<AudioHandle>, Option<AudioHandle>))
    ensures HandlesTyped(handles.0, handles.1, handles.2, handles.3)
    ensures handles.0.Some? <==> step > 0
    ensures handles.3.Some? <==> step > 3
    ensures forall h :: h in [handles.0, handles.1, handles.2, handles.3] && h.Some? ==> h.value.session == session
  {
    (if step > 0 then Some(AudioHandle(session, ContextRole)) else None,
     if step > 1 then Some(AudioHandle(session, AnalyserRole)) else None,
     if step > 2 then Some(AudioHandle(session, MicrophoneRole)) else None,
     if step > 3 then Some(AudioHandle(session, ProcessorRole)) else None)
  }

  /** A failure while building the graph releases exactly what had been
      created, so nothing created by `startRecording` is left open. */
  lemma FailedStartReleasesCreated(step: nat, session: nat)
    ensures var (c, a, m, p) := CreatedBefore(step, session);
      |Teardown(c, a, m, p)| == (if step < 4 then step else 4)
  {
  }

  /** Stopping with every handle already null releases nothing. */
  lemma TeardownOfNothing()
    ensures Teardown(None, None, None, None) == []
  {
  }

  /** `inputData.some(sample => Math.abs(sample) > 0.01)`. */
  predicate Audible(block: seq<real>)
  {
    exists k :: 0 <= k < |block| && Abs(block[k]) > 0.01
  }

  /** The blocks the silence gate lets into the buffer, in arrival order. */
  function Gated(blocks: seq<seq<real>>): seq<seq<real>>
  {
    if blocks == [] then []
    else
      var init := Gated(blocks[..|blocks| - 1]);
      if Audible(blocks[|blocks| - 1]) then init + [blocks[|blocks| - 1]] else init
  }

  /** The buffer holds only blocks that arrived, each with an audible sample. */
  lemma {:induction false} GatedOnlyAudible(blocks: seq<seq<real>>)
    ensures forall b :: b in Gated(blocks) ==> b in blocks && Audible(b)
  {
    if blocks != [] {
      GatedOnlyAudible(blocks[..|blocks| - 1]);
    }
  }

  /** Every block that has an audible sample reaches the buffer. */
  lemma {:induction false} GatedKeepsAudible(blocks: seq<seq<real>>, k: nat)
    requires k < |blocks| && Audible(blocks[k])
    ensures blocks[k] in Gated(blocks)
  {
    var n := |blocks| - 1;
    if k < n {
      GatedKeepsAudible(blocks[..n], k);
    }
  }

  /** Silence never starts the buffer: after only silent blocks it is empty. */
  lemma {:induction false} GatedSilence(blocks: seq<seq<real>>)
    requires forall k :: 0 <= k < |blocks| ==> !Audible(blocks[k])
    ensures Gated(blocks) == []
  {
    if blocks != [] {
      GatedSilence(blocks[..|blocks| - 1]);
    }
  }

  /** Two key sequences that show the keyboard of a third show the same one. */
  lemma SameKeyboardTrans(a: seq<Key>, b: seq<Key>, c: seq<Key>)
    requires SameKeyboard(a, b) && SameKeyboard(a, c)
    ensures SameKeyboard(b, c)
  {
  }

  class Page {
    var isRecording: bool
    var audioContext: Option<AudioHandle>
    var analyser: Option<AudioHandle>
    var microphone: Option<AudioHandle>
    var processor: Option<AudioHandle>
    /** The audio blocks kept for detection. */
    var recordedChunks: seq<seq<real>>
    /** Every block the processor delivered since recording last started. */
    ghost var heard: seq<seq<real>>
    /** The record button's `recording` class and its text. */
    var recordButtonActive: bool
    var recordButtonText: string
    var noteButtonDisabled: bool
    var chordButtonDisabled: bool
    /** The texts of `#status`, `#result-text` and `#result-details`. */
    var status: string
    var resultText: string
    var details: Details
    /** The 24 keys of the keyboard, in document order. */
    const keys: array<Key>
    /** The keys as the page built them. */
    ghost const board: seq<Key>
    /** The requests posted to the detection service, in order. */
    var requests: seq<Post>
    /** The disconnect and close calls made so far, in order. */
    var released: seq<Release>
    /** How many recordings have been started. */
    var sessions: nat

    /** Recording holds the four handles of the current session; idle holds none. */
    ghost predicate HandlesValid()
      reads this
    {
      || (isRecording && audioContext == Some(AudioHandle(sessions, ContextRole))
          && analyser == Some(AudioHandle(sessions, AnalyserRole))
          && microphone == Some(AudioHandle(sessions, MicrophoneRole))
          && processor == Some(AudioHandle(sessions, ProcessorRole)))
      || (!isRecording && audioContext == None && analyser == None && microphone == None && processor == None)
    }

    /** The buffer is what the silence gate let through of the blocks heard. */
    ghost predicate Buffered()
      reads this
    {
      recordedChunks == Gated(heard)
    }

    /** Highlighting changes how keys look, never which keys there are. */
    ghost predicate KeyboardKept()
      reads keys
    {
      SameKeyboard(keys[..], board)
    }

    ghost predicate Valid()
      reads this, keys
    {
      HandlesValid() && Buffered() && KeyboardKept()
    }

    /** The page after `DOMContentLoaded`: idle, nothing recorded, the
        keyboard built and nothing highlighted. */
    constructor()
      ensures Valid() && fresh(keys)
      ensures !isRecording && recordedChunks == [] && requests == [] && released == []
      ensures keys[..] == Keyboard() && board == Keyboard()
    {
      isRecording := false;
      audioContext, analyser, microphone, processor := None, None, None, None;
      recordedChunks := [];
      heard := [];
      recordButtonActive := false;
      recordButtonText := StartLabel;
      noteButtonDisabled, chordButtonDisabled := false, false;
      status, resultText, details := "", "-", Text("-");
      requests, released, sessions := [], [], 0;
      var layout := Keyboard();
      var built := new Key[24](j requires 0 <= j < 24 => layout[j]);
      assert built[..] == layout;
      keys := built;
      board := layout;
    }

    /** `stopRecording`: back to idle, every present handle released in
        teardown order and set to null, the detect buttons enabled. */
    method StopRecording()
      modifies this`isRecording, this`recordButtonActive, this`recordButtonText
      modifies this`noteButtonDisabled, this`chordButtonDisabled, this`status
      modifies this`audioContext, this`analyser, this`microphone, this`processor, this`released
      ensures !isRecording && !recordButtonActive && recordButtonText == StartLabel
      ensures !noteButtonDisabled && !chordButtonDisabled && status == RecordedStatus
      ensures released == old(released) + Teardown(old(audioContext), old(analyser), old(microphone), old(processor))
      ensures audioContext == None && analyser == None && microphone == None && processor == None
    {
      isRecording := false;
      recordButtonActive := false;
      recordButtonText := StartLabel;
      noteButtonDisabled := false;
      chordButtonDisabled := false;
      status := RecordedStatus;
      ReleaseGraph();
    }

    /** The four `if (handle) { release; handle = null; }` blocks of `stopRecording`. */
    method ReleaseGraph()
      modifies this`audioContext, this`analyser, this`microphone, this`processor, this`released
      ensures released == old(released) + Teardown(old(audioContext), old(analyser), old(microphone), old(processor))
      ensures audioContext == None && analyser == None && microphone == None && processor == None
    {
      var calls: seq<Release> := [];
      if processor.Some? {
        calls := calls + [Disconnect(processor.value)];
        processor := None;
      }
      if microphone.Some? {
        calls := calls + [Disconnect(microphone.value)];
        microphone := None;
      }
      if analyser.Some? {
        calls := calls + [Disconnect(analyser.value)];
        analyser := None;
      }
      if audioContext.Some? {
        calls := calls + [Close(audioContext.value)];
        audioContext := None;
      }
      released := released + calls;
    }

    /** `startRecording`: a new session with an empty buffer, the graph built
        in the order context, analyser, microphone source, processor. `fault`
        is the step that throws, if one does; the catch then stops, releasing
        what had been created. */
    method StartRecording(fault: Option<nat>)
      requires Valid() && !isRecording
      modifies this`isRecording, this`recordButtonActive, this`recordButtonText
      modifies this`noteButtonDisabled, this`chordButtonDisabled, this`status
      modifies this`audioContext, this`analyser, this`microphone, this`processor, this`released
      modifies this`sessions, this`recordedChunks, this`heard, this`resultText, this`details
      ensures Valid()
      ensures sessions == old(sessions) + 1 && recordedChunks == [] && resultText == "-" && details == Text("-")
      ensures fault.None? ==> isRecording && released == old(released)
      ensures fault.None? ==> noteButtonDisabled && chordButtonDisabled && status == RecordingStatus
      ensures fault.None? ==> recordButtonActive && recordButtonText == StopLabel
      ensures fault.Some? ==> !isRecording && !noteButtonDisabled && !chordButtonDisabled && status == RecordedStatus
      ensures fault.Some? ==> !recordButtonActive && recordButtonText == StartLabel
      ensures fault.Some? ==> var (c, a, m, p) := CreatedBefore(fault.value, sessions);
        released == old(released) + Teardown(c, a, m, p)
    {
      BeginSession();
      BuildGraph(fault);
      if fault.Some? {
        // the catch block
        StopRecording();
      }
    }

    /** The first statements of `startRecording`: a new session, an empty
        buffer, the buttons and texts of a running recording. */
    method BeginSession()
      modifies this`isRecording, this`recordButtonActive, this`recordButtonText
      modifies this`noteButtonDisabled, this`chordButtonDisabled, this`status
      modifies this`sessions, this`recordedChunks, this`heard, this`resultText, this`details
      ensures sessions == old(sessions) + 1 && isRecording && recordedChunks == [] && heard == []
      ensures recordButtonActive && recordButtonText == StopLabel
      ensures noteButtonDisabled && chordButtonDisabled && status == RecordingStatus
      ensures resultText == "-" && details == Text("-")
    {
      sessions := sessions + 1;
      isRecording := true;
      recordedChunks := [];
      heard := [];
      recordButtonActive := true;
      recordButtonText := StopLabel;
      noteButtonDisabled := true;
      chordButtonDisabled := true;
      status := RecordingStatus;
      resultText := "-";
      details := Text("-");
    }

    /** The try block of `startRecording`: the context, analyser, microphone
        source and processor created in turn, up to the step that throws. */
    method BuildGraph(fault: Option<nat>)
      requires audioContext == None && analyser == None && microphone == None && processor == None
      modifies this`audioContext, this`analyser, this`microphone, this`processor
      ensures (audioContext, analyser, microphone, processor) == CreatedBefore(if fault.Some? then fault.value else 4, sessions)
    {
      if fault != Some(0) {
        audioContext := Some(AudioHandle(sessions, ContextRole));
        if fault != Some(1) {
          analyser := Some(AudioHandle(sessions, AnalyserRole));
          if fault != Some(2) {
            microphone := Some(AudioHandle(sessions, MicrophoneRole));
            if fault != Some(3) {
              processor := Some(AudioHandle(sessions, ProcessorRole));
            }
          }
        }
      }
    }

    /** The record button: starts when idle and the microphone was granted,
        reports a refused microphone, and stops when recording. */
    method OnRecordClick(micGranted: bool, fault: Option<nat>)
      requires Valid()
      modifies this`isRecording, this`recordButtonActive, this`recordButtonText
      modifies this`noteButtonDisabled, this`chordButtonDisabled, this`status
      modifies this`audioContext, this`analyser, this`microphone, this`processor, this`released
      modifies this`sessions, this`recordedChunks, this`heard, this`resultText, this`details
      ensures Valid()
      // while recording: `stopRecording()`
      ensures old(isRecording) ==>
        && !isRecording && !recordButtonActive && recordButtonText == StartLabel
        && !noteButtonDisabled && !chordButtonDisabled && status == RecordedStatus
        && released == old(released) + Teardown(old(audioContext), old(analyser), old(microphone), old(processor))
        && sessions == old(sessions) && recordedChunks == old(recordedChunks) && heard == old(heard)
        && resultText == old(resultText) && details == old(details)
      // microphone refused: only the status changes
      ensures !old(isRecording) && !micGranted ==>
        && status == MicrophoneRefusedStatus
        && isRecording == old(isRecording) && recordButtonActive == old(recordButtonActive)
        && recordButtonText == old(recordButtonText)
        && noteButtonDisabled == old(noteButtonDisabled) && chordButtonDisabled == old(chordButtonDisabled)
        && audioContext == old(audioContext) && analyser == old(analyser)
        && microphone == old(microphone) && processor == old(processor) && released == old(released)
        && sessions == old(sessions) && recordedChunks == old(recordedChunks) && heard == old(heard)
        && resultText == old(resultText) && details == old(details)
      // microphone granted: `startRecording(stream)`
      ensures !old(isRecording) && micGranted ==>
        && sessions == old(sessions) + 1 && recordedChunks == [] && resultText == "-" && details == Text("-")
        && (isRecording <==> fault.None?)
        && (fault.None? ==> released == old(released) && recordButtonActive && recordButtonText == StopLabel
                            && noteButtonDisabled && chordButtonDisabled && status == RecordingStatus)
        && (fault.Some? ==> !recordButtonActive && recordButtonText == StartLabel
                            && !noteButtonDisabled && !chordButtonDisabled && status == RecordedStatus
                            && released == old(released) + Teardown(CreatedBefore(fault.value, sessions).0,
                                 CreatedBefore(fault.value, sessions).1, CreatedBefore(fault.value, sessions).2,
                                 CreatedBefore(fault.value, sessions).3))
    {
      if !isRecording {
        if micGranted {
          StartRecording(fault);
        } else {
          status := MicrophoneRefusedStatus;
        }
      } else {
        StopRecording();
      }
    }

    /** `onaudioprocess`: a block with a sample above the threshold is kept.
        The callback hangs on the processor of a started session, and
        `stopRecording` disconnects it, so it runs only while recording. */
    method OnAudioProcess(block: seq<real>)
      requires Valid() && isRecording
      modifies this`recordedChunks, this`heard
      ensures Valid()
      ensures recordedChunks == old(recordedChunks) + (if Audible(block) then [block] else [])
      ensures heard == old(heard) + [block]
    {
      assert (heard + [block])[..|heard|] == heard;
      heard := heard + [block];
      var loud := exists k :: 0 <= k < |block| && Abs(block[k]) > 0.01;
      if loud {
        recordedChunks := recordedChunks + [block];
      }
    }

    /** `clearKeyHighlights`. */
    method ClearKeyHighlights()
      modifies keys
      ensures keys[..] == Cleared(old(keys[..]))
    {
      for j := 0 to keys.Length
        invariant keys[..j] == Cleared(old(keys[..]))[..j]
        invariant keys[j..] == old(keys[..])[j..]
      {
        keys[j] := keys[j].(view := ClearedView);
      }
    }

    /** `highlightKey(key, color, noteText)`. */
    method HighlightKey(j: nat, color: Option<ChordColor>, noteText: string)
      requires j < keys.Length
      modifies keys
      ensures keys[..] == old(keys[..])[j := Highlighted(old(keys[j]), color, noteText)]
    {
      keys[j] := Highlighted(keys[j], color, noteText);
    }

    /** A click on a key: highlighted with no colour and its own Turkish label. */
    method OnKeyClick(j: nat)
      requires j < keys.Length
      modifies keys
      ensures keys[..] == old(keys[..])[j := Highlighted(old(keys[j]), None, old(keys[j].noteTr))]
      ensures keys[j].view.active
      ensures old(keys[j].noteTr) != "" ==> keys[j].view.caption == old(keys[j].noteTr) && keys[j].view.labelShown
      ensures keys[j].view.background == old(keys[j].view.background) && keys[j].view.opacity == old(keys[j].view.opacity)
      ensures keys[j].view.labelColor == old(keys[j].view.labelColor)
      ensures SameKeyboard(old(keys[..]), keys[..])
    {
      HighlightKey(j, None, keys[j].noteTr);
    }

    /** `sendAudioToServer`: posts the audio and sorts the reply; the two
        failing outcomes set the status and yield null. */
    method SendAudioToServer(audioData: seq<real>, reply: Reply) returns (response: Option<Payload>)
      modifies this`requests, this`status
      ensures requests == old(requests) + [Post(audioData, noteButtonDisabled, chordButtonDisabled)]
      ensures status == OutcomeStatus(Classify(reply), old(status))
      ensures response.Some? <==> Classify(reply).Delivered?
      ensures response.Some? ==> response.value == Classify(reply).payload && !Truthy(response.value.error)
    {
      requests := requests + [Post(audioData, noteButtonDisabled, chordButtonDisabled)];
      var outcome := Classify(reply);
      status := OutcomeStatus(outcome, status);
      response := if outcome.Delivered? then Some(outcome.payload) else None;
    }

    /** The chord notes highlighted one after another. */
    method HighlightChord(c: ChordReply)
      modifies keys
      ensures keys[..] == ChordHighlights(old(keys[..]), c, |c.notes|)
    {
      ghost var start := keys[..];
      for idx := 0 to |c.notes|
        invariant keys[..] == ChordHighlights(start, c, idx)
      {
        var found := ChordKey(keys[..], c.notes[idx]);
        if found.Some? {
          HighlightKey(found.value, Some(ChordNoteColor(idx)), ChordLabel(c.notes[idx], RoleAt(c.noteRoles, idx)));
        }
      }
    }

    /** The `if (response)` block of `detectSound`: every key cleared, then the
        note's key or the chord's keys highlighted; returns the new result
        text and details. */
    method PresentResult(kind: DetectKind, p: Payload) returns (text: string, shown: Details)
      requires KeyboardKept()
      modifies keys
      ensures keys[..] == PresentedKeys(old(keys[..]), kind, p)
      ensures KeyboardKept()
      ensures text == ResultTextFor(kind, p) && shown == DetailsFor(kind, p)
    {
      ghost var before := keys[..];
      ClearKeyHighlights();
      match ShownFor(kind, p) {
        case ShowNote(n) =>
          text := n.note;
          shown := Frequency(n.frequency);
          var found := NoteKey(keys[..], n.noteEn);
          if found.Some? {
            HighlightKey(found.value, Some(RootColor), n.note);
          }
        case ShowChord(c) =>
          text := c.fullName;
          shown := Components(seq(|c.notes|, k requires 0 <= k < |c.notes| => Component(c.notes[k], RoleAt(c.noteRoles, k), RoleClass(k))));
          HighlightChord(c);
        case ShowNothing =>
          text := "-";
          shown := Text(KindWord(kind) + " tespit edilemedi");
      }
      PresentedKeepsKeyboard(before, kind, p);
      SameKeyboardTrans(before, keys[..], board);
    }

    /** `detectSound(type)`: with an empty buffer only a prompt; otherwise the
        averaged buffer is sent, a delivered payload replaces the highlights
        and the result texts, and the buttons are enabled again. */
    method DetectSound(kind: DetectKind, reply: Reply)
      requires Valid()
      modifies this`noteButtonDisabled, this`chordButtonDisabled, this`status
      modifies this`requests, this`resultText, this`details, keys
      ensures Valid()
      ensures old(recordedChunks) == [] ==> status == NothingRecordedStatus && requests == old(requests)
      ensures old(recordedChunks) == [] ==> keys[..] == old(keys[..]) && resultText == old(resultText) && details == old(details)
      ensures old(recordedChunks) == [] ==>
        noteButtonDisabled == old(noteButtonDisabled) && chordButtonDisabled == old(chordButtonDisabled)
      ensures old(recordedChunks) != [] ==> requests == old(requests) + [Post(Averaged(old(recordedChunks)), true, true)]
      ensures old(recordedChunks) != [] ==> status == OutcomeStatus(Classify(reply), KindWord(kind) + " tespit ediliyor...")
      ensures old(recordedChunks) != [] ==> !noteButtonDisabled && !chordButtonDisabled
      ensures old(recordedChunks) != [] && Classify(reply).Delivered? ==>
        var p := Classify(reply).payload;
        && keys[..] == PresentedKeys(old(keys[..]), kind, p)
        && resultText == ResultTextFor(kind, p)
        && details == DetailsFor(kind, p)
      ensures !Classify(reply).Delivered? ==> keys[..] == old(keys[..]) && resultText == old(resultText) && details == old(details)
    {
      if recordedChunks == [] {
        status := NothingRecordedStatus;
        return;
      }
      DetectRecorded(kind, reply);
    }

    /** `detectSound` past its guard: the buttons are disabled while the
        averaged buffer is sent and the reply presented. */
    method DetectRecorded(kind: DetectKind, reply: Reply)
      requires KeyboardKept()
      modifies this`noteButtonDisabled, this`chordButtonDisabled, this`status
      modifies this`requests, this`resultText, this`details, keys
      ensures KeyboardKept()
      ensures requests == old(requests) + [Post(Averaged(recordedChunks), true, true)]
      ensures status == OutcomeStatus(Classify(reply), KindWord(kind) + " tespit ediliyor...")
      ensures !noteButtonDisabled && !chordButtonDisabled
      ensures Classify(reply).Delivered? ==>
        var p := Classify(reply).payload;
        && keys[..] == PresentedKeys(old(keys[..]), kind, p)
        && resultText == ResultTextFor(kind, p)
        && details == DetailsFor(kind, p)
      ensures !Classify(reply).Delivered? ==> keys[..] == old(keys[..]) && resultText == old(resultText) && details == old(details)
    {
      noteButtonDisabled := true;
      chordButtonDisabled := true;
      status := KindWord(kind) + " tespit ediliyor...";
      var audioData := AverageAudioChunks(recordedChunks);
      var response := SendAudioToServer(audioData, reply);
      if response.Some? {
        resultText, details := PresentResult(kind, response.value);
      }
      noteButtonDisabled := false;
      chordButtonDisabled := false;
    }
  }
}
