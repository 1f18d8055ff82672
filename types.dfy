/** Value types shared by the call engine: the call status, transcript
    entries and the shape of one inbound message from the live session. */
module Types {

  datatype Option<T> = None | Some(value: T)

  /** The lifecycle of one call (types.ts:14-19). */
  datatype CallStatus = Idle | Connecting | Active | Disconnecting

  /** Who spoke a transcript entry. */
  datatype Role = User | Model

  /** One finalized line of the transcript (types.ts:8-12); `timestamp` is
      the millisecond wall-clock reading taken when the entry was made. */
  datatype Entry = Entry(role: Role, text: string, timestamp: int)

  /** A transcription delta. The session may send the object without its
      optional `text` field. */
  datatype Transcription = Transcription(text: Option<string>)

  /** One inbound session message. Every part is optional and any subset may
      be present. `audio` is the inline base64 payload of the first part of
      the model turn; the empty string stands for "absent", since the source
      tests it for truthiness. */
  datatype Message = Message(
    output: Option<Transcription>,
    input: Option<Transcription>,
    turnComplete: bool,
    audio: string,
    interrupted: bool)

  /** The text a transcription delta contributes when concatenated onto a
      string: a missing `text` field is `undefined`, which string
      concatenation renders as the word "undefined". */
  function Fragment(t: Transcription): (s: string)
    ensures t.text.Some? ==> s == t.text.value
    ensures t.text.None? ==> s == "undefined"
  {
    match t.text
    case Some(s) => s
    case None => "undefined"
  }
}
