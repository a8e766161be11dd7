/**
 * The protocol layer as the channel loops see it: the kind of a decoded
 * frame, and the three control frames that the loops put on the outbound
 * queue themselves. Frame encoding and decoding are not part of this model;
 * the loops only receive the decoder's result.
 */
module Protocol {

  /** The kind tag a decoded frame carries. */
  datatype MessageType = OpenType | CloseType | PingType | PongType | CustomType

  /** A decoded frame: its kind and the raw text it was decoded from. */
  datatype Message = Message(kind: MessageType, source: string)

  /** Encoded control frames (the Engine.IO packet codes for close, ping and pong). */
  const CloseMessage: string := "1"
  const PingMessage: string := "2"
  const PongMessage: string := "3"
}
