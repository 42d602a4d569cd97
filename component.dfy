/**
 * The chat component itself: one object whose fields are its React state and
 * its connection ref, and one method per event handler, each updating the
 * fields in place. The relay emissions, the ringtone decisions, the
 * outstanding media request and the callbacks of the peers created are kept
 * as ghost histories. Each method states its whole new state and that it is
 * the `Session.Step` of the old one, so the lemmas of `Session` apply to any
 * sequence of calls.
 */
module Component {
  import opened Wrappers
  import opened Text
  import opened Chat
  import opened Presence
  import opened Signaling
  import opened Session

  class App {
    var username: string
    var hasJoined: bool
    var users: seq<Entry>
    /** The draft in the message input. */
    var message: string
    var messages: seq<ChatMessage>
    var stream: Option<MediaStream>
    var receivingCall: bool
    var caller: Id
    var callerSignal: Signal
    var callAccepted: bool
    /** `connectionRef.current`. */
    var connection: Option<Peer>

    ghost var outbox: seq<Outbound>
    ghost var cues: seq<Cue>
    ghost var mediaRequested: bool
    ghost var routes: seq<Route>

    ghost function Snapshot(): State
      reads this
    {
      State(username, hasJoined, users, message, messages, stream, receivingCall, caller,
            callerSignal, callAccepted, connection, outbox, cues, mediaRequested, routes)
    }

    ghost predicate Valid()
      reads this
    {
      Inv(Snapshot())
    }

    /** The first render. */
    constructor ()
      ensures Valid() && Snapshot() == Init()
    {
      username, hasJoined, users := "", false, [];
      message, messages := "", [];
      stream, receivingCall, caller, callerSignal, callAccepted := None, false, "", NoSignal, false;
      connection := None;
      outbox, cues, mediaRequested, routes := [], [], false, [];
      InitInv();
    }

    /** The name input's `onChange`. */
    method SetUsername(value: string)
      requires Valid()
      modifies this
      ensures Valid() && Snapshot() == Step(old(Snapshot()), TypeUsername(value))
      ensures Snapshot() == old(Snapshot()).(username := value)
    {
      username := value;
      StepPreservesInv(old(Snapshot()), TypeUsername(value));
    }

    /** The message input's `onChange`. */
    method SetMessage(value: string)
      requires Valid()
      modifies this
      ensures Valid() && Snapshot() == Step(old(Snapshot()), TypeDraft(value))
      ensures Snapshot() == old(Snapshot()).(draft := value)
    {
      message := value;
      StepPreservesInv(old(Snapshot()), TypeDraft(value));
    }

    /** `handleJoin`: with a name that is not blank, marks the session joined,
        emits one `join` carrying the name and requests media; with a blank
        name, changes nothing. */
    method HandleJoin()
      requires Valid()
      modifies this
      ensures Valid() && Snapshot() == Step(old(Snapshot()), PressJoin)
      ensures HasContent(old(username)) ==>
        Snapshot() == old(Snapshot()).(hasJoined := true, outbox := old(outbox) + [Join(old(username))],
                                       mediaRequested := true)
      ensures !HasContent(old(username)) ==> Snapshot() == old(Snapshot())
    {
      if HasContent(username) {
        hasJoined := true;
        outbox := outbox + [Join(username)];
        mediaRequested := true;
      }
      StepPreservesInv(old(Snapshot()), PressJoin);
    }

    /** The `getUserMedia` promise resolving with `granted`. */
    method OnStreamAcquired(granted: MediaStream)
      requires Valid() && mediaRequested
      modifies this
      ensures Valid() && Snapshot() == Step(old(Snapshot()), MediaGranted(granted))
      ensures Snapshot() == old(Snapshot()).(stream := Some(granted))
    {
      stream := Some(granted);
      StepPreservesInv(old(Snapshot()), MediaGranted(granted));
    }

    /** `sendMessage`: with a draft that is not blank, emits one `message`
        with the display name and the draft exactly as typed (untrimmed), and
        clears the draft; with a blank draft, changes nothing. The message is
        not added to the local log; it enters the log only if the relay echoes
        it back. */
    method SendMessage()
      requires Valid()
      modifies this
      ensures Valid() && Snapshot() == Step(old(Snapshot()), PressSend)
      ensures HasContent(old(message)) ==>
        Snapshot() == old(Snapshot()).(outbox := old(outbox) + [Message(ChatMessage(old(username), old(message)))],
                                       draft := "")
      ensures !HasContent(old(message)) ==> Snapshot() == old(Snapshot())
    {
      if HasContent(message) {
        outbox := outbox + [Message(ChatMessage(username, message))];
        message := "";
      }
      StepPreservesInv(old(Snapshot()), PressSend);
    }

    /** `handleEmojiClick`: appends the emoji to the draft. */
    method HandleEmojiClick(emoji: string)
      requires Valid()
      modifies this
      ensures Valid() && Snapshot() == Step(old(Snapshot()), PickEmoji(emoji))
      ensures Snapshot() == old(Snapshot()).(draft := old(message) + emoji)
    {
      message := message + emoji;
      StepPreservesInv(old(Snapshot()), PickEmoji(emoji));
    }

    /** `callUser(id)`, in any state: installs a new initiator peer with the
        current stream, nothing fed yet, whose `signal` callback will emit
        `call-user` to `id` under the current display name. */
    method CallUser(id: Id)
      requires Valid()
      modifies this
      ensures Valid() && Snapshot() == Step(old(Snapshot()), PressCall(id))
      ensures connection == Some(Peer(true, old(stream), [], Offer(id, old(username))))
      ensures Snapshot() == old(Snapshot()).(connection := connection, routes := old(routes) + [Offer(id, old(username))])
    {
      var route := Offer(id, username);
      connection := Some(Peer(true, stream, [], route));
      routes := routes + [route];
      StepPreservesInv(old(Snapshot()), PressCall(id));
    }

    /** `answerCall`, in any state: accepts the call and installs a new
        non-initiator peer with the current stream, fed exactly the caller's
        signal, whose `signal` callback will emit `answer-call` to the caller.
        The incoming-call prompt is hidden afterwards. */
    method AnswerCall()
      requires Valid()
      modifies this
      ensures Valid() && Snapshot() == Step(old(Snapshot()), PressAnswer)
      ensures callAccepted && !PromptShown(Snapshot())
      ensures connection == Some(Peer(false, old(stream), [old(callerSignal)], Answer(old(caller), old(username))))
      ensures Snapshot() == old(Snapshot()).(callAccepted := true, connection := connection,
                                             routes := old(routes) + [Answer(old(caller), old(username))])
    {
      callAccepted := true;
      var route := Answer(caller, username);
      connection := Some(Peer(false, stream, [callerSignal], route));
      routes := routes + [route];
      StepPreservesInv(old(Snapshot()), PressAnswer);
    }

    /** The `signal` callback of the `k`-th peer created (the current one or an
        older one): emits exactly one event, `call-user` or `answer-call`,
        carrying `data` to the target that peer captured. */
    method OnPeerSignal(k: nat, data: Signal)
      requires Valid() && k < |routes|
      modifies this
      ensures Valid() && Snapshot() == Step(old(Snapshot()), PeerSignal(k, data))
      ensures Snapshot() == old(Snapshot()).(outbox := old(outbox) + [Emit(old(routes)[k], data)])
    {
      outbox := outbox + [Emit(routes[k], data)];
      StepPreservesInv(old(Snapshot()), PeerSignal(k, data));
    }

    /** The relay's `message`: appends `msg` at the tail of the log and records
        the ringtone decision, which rings exactly when the author differs
        from the current display name. */
    method OnMessage(msg: ChatMessage)
      requires Valid()
      modifies this
      ensures Valid() && Snapshot() == Step(old(Snapshot()), RelayMessage(msg))
      ensures |messages| == |old(messages)| + 1
      ensures messages[..|old(messages)|] == old(messages) && messages[|messages| - 1] == msg
      ensures cues == old(cues) + [Cue(old(username), msg.username != old(username))]
      ensures Snapshot() == old(Snapshot()).(messages := messages, cues := cues)
    {
      messages := messages + [msg];
      cues := cues + [Cue(username, FromSomeoneElse(msg, username))];
      StepPreservesInv(old(Snapshot()), RelayMessage(msg));
    }

    /** The relay's `users`: replaces the presence snapshot wholesale. */
    method OnUsers(snapshot: seq<Entry>)
      requires Valid() && DistinctIds(snapshot)
      modifies this
      ensures Valid() && Snapshot() == Step(old(Snapshot()), RelayUsers(snapshot))
      ensures Snapshot() == old(Snapshot()).(users := snapshot)
    {
      users := snapshot;
      StepPreservesInv(old(Snapshot()), RelayUsers(snapshot));
    }

    /** The relay's `incoming-call`: records the caller and its signal and
        raises the ringing flag; the caller's display name is ignored, and
        the accepted flag, the message log and the presence snapshot are left
        as they were. */
    method OnIncomingCall(from: Id, signal: Signal, callerName: string)
      requires Valid()
      modifies this
      ensures Valid() && Snapshot() == Step(old(Snapshot()), RelayIncomingCall(from, signal, callerName))
      ensures receivingCall && caller == from && callerSignal == signal
      ensures callAccepted == old(callAccepted) && messages == old(messages) && users == old(users)
      ensures Snapshot() == old(Snapshot()).(receivingCall := true, caller := from, callerSignal := signal)
    {
      receivingCall := true;
      caller := from;
      callerSignal := signal;
      StepPreservesInv(old(Snapshot()), RelayIncomingCall(from, signal, callerName));
    }

    /** The relay's `call-answered`: accepts the call and feeds `signal` into
        the current peer. With no peer the handler throws after having set
        the accepted flag; `ok` is false in exactly that case. */
    method OnCallAnswered(signal: Signal) returns (ok: bool)
      requires Valid()
      modifies this
      ensures Valid() && Snapshot() == Step(old(Snapshot()), RelayCallAnswered(signal))
      ensures ok <==> !Throws(old(Snapshot()), RelayCallAnswered(signal))
      ensures ok <==> old(connection).Some?
      ensures callAccepted && !PromptShown(Snapshot())
      ensures ok ==> connection == Some(old(connection).value.(fed := old(connection).value.fed + [signal]))
      ensures Snapshot() == old(Snapshot()).(callAccepted := true, connection := connection)
      ensures !ok ==> Snapshot() == old(Snapshot()).(callAccepted := true)
    {
      callAccepted := true;
      match connection {
        case None =>
          ok := false;
        case Some(peer) =>
          connection := Some(peer.(fed := peer.fed + [signal]));
          ok := true;
      }
      StepPreservesInv(old(Snapshot()), RelayCallAnswered(signal));
    }
  }
}
