/** The detection client of wwwroot/js/app.js: the shape of the detection
    service's reply and how `sendAudioToServer` sorts it. The HTTP exchange
    and JSON decoding are not modelled; their outcome is an input. */
module DetectionClient {
  import opened Util

  /** Which button was pressed: `detectSound('note')` or `detectSound('chord')`. */
  datatype DetectKind = NoteKind | ChordKind

  /** `{ note, note_en, frequency }` of a note reply. */
  datatype NoteReply = NoteReply(note: string, noteEn: string, frequency: real)

  /** `{ full_name, notes, note_roles }` of a chord reply. */
  datatype ChordReply = ChordReply(fullName: string, notes: seq<string>, noteRoles: seq<string>)

  /** A decoded JSON object from the service; absent fields are `None`. */
  datatype Payload = Payload(error: Option<string>, note: Option<NoteReply>, chord: Option<ChordReply>)

  /** What `fetch` and `response.json()` produce: a rejected fetch, or a
      response with its `ok` flag and its body, `None` when the body does not
      decode to an object (invalid JSON, or the value `null`). */
  datatype Reply = FetchFailed | Received(ok: bool, body: Option<Payload>)

  /** How `sendAudioToServer` ends. */
  datatype Outcome = TransportError | ServerError | Delivered(payload: Payload)

  /** JavaScript truthiness of an optional string field. */
  predicate Truthy(s: Option<string>)
  {
    s.Some? && s.value != ""
  }

  /** `sendAudioToServer`'s branches: a failed fetch, a non-ok status or an
      undecodable body all throw into the catch (connection error); a truthy
      `error` field is a server error; anything else is returned as it is. */
  function Classify(reply: Reply): (o: Outcome)
    ensures o.TransportError? <==> reply.FetchFailed? || !reply.ok || reply.body.None?
    ensures o.ServerError? <==> reply.Received? && reply.ok && reply.body.Some? && Truthy(reply.body.value.error)
    ensures o.Delivered? ==> reply == Received(true, Some(o.payload)) && !Truthy(o.payload.error)
  {
    match reply
    case FetchFailed => TransportError
    case Received(ok, body) =>
      if !ok then TransportError
      else match body
        case None => TransportError
        case Some(data) => if Truthy(data.error) then ServerError else Delivered(data)
  }

  /** The status text each failing outcome leaves; a delivered payload leaves
      the status as it was. */
  function OutcomeStatus(o: Outcome, current: string): string
  {
    match o
    case TransportError => "Sunucu bağlantı hatası"
    case ServerError => "Tespit edilemedi"
    case Delivered(_) => current
  }

  /** `type === 'note' ? 'Nota' : 'Akor'`. */
  function KindWord(kind: DetectKind): string
  {
    if kind == NoteKind then "Nota" else "Akor"
  }

  /** The branch `detectSound` takes on a delivered payload. */
  datatype Shown = ShowNote(n: NoteReply) | ShowChord(c: ChordReply) | ShowNothing

  /** `type === 'note' && response.note`, else `type === 'chord' && response.chord`, else nothing. */
  function ShownFor(kind: DetectKind, p: Payload): (s: Shown)
    ensures s.ShowNote? <==> kind == NoteKind && p.note.Some? && p.note.value.note != ""
    ensures s.ShowChord? <==> kind == ChordKind && p.chord.Some?
    ensures s.ShowNote? ==> s.n == p.note.value
    ensures s.ShowChord? ==> s.c == p.chord.value
  {
    if kind == NoteKind && p.note.Some? && p.note.value.note != "" then ShowNote(p.note.value)
    else if kind == ChordKind && p.chord.Some? then ShowChord(p.chord.value)
    else ShowNothing
  }
}
