/** Chat messages as the relay delivers them, and the ringtone decision. */
module Chat {

  /** A chat message `{ username, text }`: its author is identified by display
      name only, so two participants with the same name are indistinguishable. */
  datatype ChatMessage = ChatMessage(username: string, text: string)

  /** One ringtone decision of the inbound `message` handler: the display name
      it compared against, and whether it decided to play the cue. */
  datatype Cue = Cue(localName: string, ring: bool)

  /** The ringtone test `msg.username !== username` of the inbound `message`
      handler: the message was written under a display name other than the
      one in force when it arrives. */
  predicate FromSomeoneElse(msg: ChatMessage, localName: string) {
    msg.username != localName
  }

}
