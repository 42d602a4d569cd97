/**
 * The relay events the session emits, and the peer connection seen from the
 * session: its role, the stream it was given, the signals fed into it, and
 * where its `signal` callback sends the payload it produces. WebRTC itself is
 * not modelled.
 */
module Signaling {
  import opened Wrappers
  import opened Chat
  import opened Presence

  /** An opaque negotiation payload; `NoSignal` is the `null` that
      `callerSignal` holds before any incoming call. */
  datatype Signal = NoSignal | Payload(blob: string)

  /** A local camera/microphone stream, known only by its id. */
  datatype MediaStream = MediaStream(streamId: string)

  /** The relay event a peer's `signal` callback emits, with the target and
      display name the callback captured when the peer was created:
      `Offer` for a peer made by `callUser`, `Answer` for one made by
      `answerCall`. */
  datatype Route = Offer(to: Id, username: string) | Answer(to: Id, username: string)

  /** `connectionRef.current`, abstractly. */
  datatype Peer = Peer(initiator: bool, stream: Option<MediaStream>, fed: seq<Signal>, onSignal: Route)

  /** The events `socket.emit` sends to the relay. */
  datatype Outbound =
    | Join(name: string)
    | Message(msg: ChatMessage)
    | CallUser(signal: Signal, to: Id, username: string)
    | AnswerCall(signal: Signal, to: Id, username: string)

  /** What a peer's `signal` callback emits for the payload `data`:
      `call-user` for a calling peer, `answer-call` for an answering one,
      in either case carrying `data` to the captured target. */
  function Emit(route: Route, data: Signal): (ev: Outbound)
    ensures ev.CallUser? <==> route.Offer?
    ensures ev.CallUser? || ev.AnswerCall?
    ensures ev.signal == data && ev.to == route.to && ev.username == route.username
  {
    match route
    case Offer(to, name) => CallUser(data, to, name)
    case Answer(to, name) => AnswerCall(data, to, name)
  }
}
