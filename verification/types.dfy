/** The record shapes of the transcript application. */
module Types {
  import opened Wrappers

  /** The payload carried by every inbound hub event. */
  datatype TranscriptionData = TranscriptionData(timestamp: string, message: string)

  /** An inbound hub event. Its tag (`type` in the wire shape) is an arbitrary string,
      so events with unrecognised tags are representable. */
  datatype SignalRMessage = SignalRMessage(tag: string, data: TranscriptionData)

  /** Who spoke a transcript line: exactly two possibilities. */
  datatype Sender = Caller | Ai

  /** One entry of the chat history. The timestamp is kept as the original string;
      ordering goes through a separate parse step. */
  datatype ChatMessage = ChatMessage(id: string, sender: Sender, timestamp: string, text: string)

  /** JavaScript truthiness of an optional string: neither absent nor empty. */
  predicate Present(s: Option<string>) {
    s.Some? && s.value != ""
  }
}
