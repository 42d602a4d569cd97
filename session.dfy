/**
 * The session state of the chat component as a value, and the effect of each
 * handler on it. Every handler runs to completion against the state of the
 * latest render, one at a time, in arrival order. `Component.App` performs
 * these same steps in place; the lemmas here are about whole runs of them.
 */
module Session {
  import opened Wrappers
  import opened Text
  import opened Chat
  import opened Presence
  import opened Signaling

  /** The component state, plus three histories and one flag that are not
      component state: the histories `outbox` (every relay event emitted),
      `cues` (every ringtone decision) and `routes` (the `signal` callback of
      every peer created, oldest first), and the flag `mediaRequested` (a
      `getUserMedia` request is outstanding or was granted). */
  datatype State = State(
    username: string,
    hasJoined: bool,
    users: seq<Entry>,
    draft: string,
    messages: seq<ChatMessage>,
    stream: Option<MediaStream>,
    receivingCall: bool,
    caller: Id,
    callerSignal: Signal,
    callAccepted: bool,
    connection: Option<Peer>,
    outbox: seq<Outbound>,
    cues: seq<Cue>,
    mediaRequested: bool,
    routes: seq<Route>)

  /** The first render: every `useState` initial value, no peer. */
  function Init(): State {
    State("", false, [], "", [], None, false, "", NoSignal, false, None, [], [], false, [])
  }

  /** Everything that can happen to the component. */
  datatype Event =
    | TypeUsername(value: string)          // the name input's onChange
    | TypeDraft(value: string)             // the message input's onChange
    | PressJoin                            // handleJoin
    | PressSend                            // sendMessage
    | PickEmoji(emoji: string)             // handleEmojiClick
    | PressCall(id: Id)                    // callUser(id)
    | PressAnswer                          // answerCall
    | MediaGranted(stream: MediaStream)    // getUserMedia resolves
    | RelayMessage(msg: ChatMessage)       // relay `message`
    | RelayUsers(snapshot: seq<Entry>)     // relay `users`
    | RelayIncomingCall(from: Id, signal: Signal, callerName: string)  // relay `incoming-call`
    | RelayCallAnswered(signal: Signal)    // relay `call-answered`
    | PeerSignal(peer: nat, data: Signal)  // the `signal` callback of the peer-th peer created

  /** What the environment guarantees before an event can arrive: media is
      granted only after it was requested, a snapshot is a JavaScript object
      (distinct keys), and only a peer that exists can signal. */
  predicate Enabled(s: State, e: Event) {
    match e
    case MediaGranted(_) => s.mediaRequested
    case RelayUsers(snapshot) => DistinctIds(snapshot)
    case PeerSignal(k, _) => k < |s.routes|
    case _ => true
  }

  /** The `call-answered` handler dereferences `connectionRef.current`
      unconditionally: with no peer it throws a TypeError, after having
      already queued `callAccepted := true`. */
  predicate Throws(s: State, e: Event) {
    e.RelayCallAnswered? && s.connection.None?
  }

  /** The state after one handler. */
  function Step(s: State, e: Event): State
    requires Enabled(s, e)
  {
    match e
    case TypeUsername(v) => s.(username := v)
    case TypeDraft(v) => s.(draft := v)
    case PressJoin =>
      if HasContent(s.username) then
        s.(hasJoined := true, outbox := s.outbox + [Join(s.username)], mediaRequested := true)
      else s
    case PressSend =>
      if HasContent(s.draft) then
        s.(outbox := s.outbox + [Message(ChatMessage(s.username, s.draft))], draft := "")
      else s
    case PickEmoji(x) => s.(draft := s.draft + x)
    case PressCall(id) =>
      var r := Offer(id, s.username);
      s.(connection := Some(Peer(true, s.stream, [], r)), routes := s.routes + [r])
    case PressAnswer =>
      var r := Answer(s.caller, s.username);
      s.(callAccepted := true,
         connection := Some(Peer(false, s.stream, [s.callerSignal], r)),
         routes := s.routes + [r])
    case MediaGranted(st) => s.(stream := Some(st))
    case RelayMessage(m) =>
      s.(messages := s.messages + [m], cues := s.cues + [Cue(s.username, FromSomeoneElse(m, s.username))])
    case RelayUsers(snapshot) => s.(users := snapshot)
    case RelayIncomingCall(from, signal, _) =>
      s.(receivingCall := true, caller := from, callerSignal := signal)
    case RelayCallAnswered(signal) =>
      s.(callAccepted := true,
         connection := match s.connection
                       case None => None
                       case Some(p) => Some(p.(fed := p.fed + [signal])))
    case PeerSignal(k, data) => s.(outbox := s.outbox + [Emit(s.routes[k], data)])
  }

  /** Whether the incoming-call prompt with its Answer button is on screen:
      the condition `receivingCall && !callAccepted`, inside the chat screen,
      which is drawn only once the session has joined (before that the
      component returns the name input alone). An accepted call hides it. */
  predicate PromptShown(s: State) {
    s.hasJoined && s.receivingCall && !s.callAccepted
  }

  // ---------------------------------------------------------------------------
  // Invariants of every reachable state

  /** Whatever was emitted obeys the guards that emitted it: no blank name was
      ever sent with `join`, no blank text with `message`, and every
      `call-user` and `answer-call` went where some peer's callback was told to
      send it. */
  predicate EmittedOk(ev: Outbound, routes: seq<Route>) {
    match ev
    case Join(name) => HasContent(name)
    case Message(m) => HasContent(m.text)
    case CallUser(_, to, name) => Offer(to, name) in routes
    case AnswerCall(_, to, name) => Answer(to, name) in routes
  }

  predicate OutboxOk(outbox: seq<Outbound>, routes: seq<Route>) {
    forall i :: 0 <= i < |outbox| ==> EmittedOk(outbox[i], routes)
  }

  /** One ringtone decision per message received, in order, and each decision
      rang exactly when the message's author differed from the display name at
      that moment. */
  predicate CuesOk(messages: seq<ChatMessage>, cues: seq<Cue>) {
    |cues| == |messages| &&
    forall i :: 0 <= i < |cues| ==> (cues[i].ring <==> FromSomeoneElse(messages[i], cues[i].localName))
  }

  /** The current peer is the one created last, and it is the initiator
      exactly when it was created by `callUser`. */
  predicate ConnectionOk(connection: Option<Peer>, routes: seq<Route>) {
    match connection
    case None => routes == []
    case Some(p) => routes != [] && p.onSignal == routes[|routes| - 1] && (p.initiator <==> p.onSignal.Offer?)
  }

  predicate Inv(s: State) {
    && OutboxOk(s.outbox, s.routes)
    && CuesOk(s.messages, s.cues)
    && ConnectionOk(s.connection, s.routes)
    && DistinctIds(s.users)
    && (s.stream.Some? ==> s.mediaRequested)
    && (s.mediaRequested ==> s.hasJoined)
  }

  lemma InitInv()
    ensures Inv(Init())
  {
  }

  lemma OutboxOkExtend(outbox: seq<Outbound>, routes: seq<Route>, more: seq<Route>, ev: Outbound)
    requires OutboxOk(outbox, routes)
    requires EmittedOk(ev, routes + more)
    ensures OutboxOk(outbox + [ev], routes + more)
  {
    forall i | 0 <= i < |outbox + [ev]| ensures EmittedOk((outbox + [ev])[i], routes + more) {
      if i < |outbox| {
        assert (outbox + [ev])[i] == outbox[i];
        assert EmittedOk(outbox[i], routes);
      }
    }
  }

  /** Every handler keeps the invariant. */
  lemma StepPreservesInv(s: State, e: Event)
    requires Inv(s) && Enabled(s, e)
    ensures Inv(Step(s, e))
  {
    var t := Step(s, e);
    match e
    case PressJoin =>
      if HasContent(s.username) { OutboxOkExtend(s.outbox, s.routes, [], Join(s.username)); }
    case PressSend =>
      if HasContent(s.draft) { OutboxOkExtend(s.outbox, s.routes, [], Message(ChatMessage(s.username, s.draft))); }
    case PressCall(_) =>
      assert OutboxOk(s.outbox, t.routes) by {
        forall i | 0 <= i < |s.outbox| ensures EmittedOk(s.outbox[i], t.routes) {
          assert EmittedOk(s.outbox[i], s.routes);
        }
      }
    case PressAnswer =>
      assert OutboxOk(s.outbox, t.routes) by {
        forall i | 0 <= i < |s.outbox| ensures EmittedOk(s.outbox[i], t.routes) {
          assert EmittedOk(s.outbox[i], s.routes);
        }
      }
    case RelayMessage(m) =>
      assert CuesOk(t.messages, t.cues) by {
        forall i | 0 <= i < |t.cues|
          ensures t.cues[i].ring <==> FromSomeoneElse(t.messages[i], t.cues[i].localName)
        {
          if i < |s.cues| { assert t.cues[i] == s.cues[i] && t.messages[i] == s.messages[i]; }
        }
      }
    case PeerSignal(k, data) =>
      assert s.routes[k] in s.routes;
      OutboxOkExtend(s.outbox, s.routes, [], Emit(s.routes[k], data));
      assert s.routes + [] == s.routes;
    case _ =>
  }

  // ---------------------------------------------------------------------------
  // Runs: sequences of events from some state

  predicate Admissible(s: State, es: seq<Event>)
    decreases |es|
  {
    es == [] || (Enabled(s, es[0]) && Admissible(Step(s, es[0]), es[1..]))
  }

  function Run(s: State, es: seq<Event>): State
    requires Admissible(s, es)
    decreases |es|
  {
    if es == [] then s else Run(Step(s, es[0]), es[1..])
  }

  /** Any run keeps the invariant. */
  lemma {:induction false} RunPreservesInv(s: State, es: seq<Event>)
    requires Inv(s) && Admissible(s, es)
    ensures Inv(Run(s, es))
    decreases |es|
  {
    if es != [] {
      StepPreservesInv(s, es[0]);
      RunPreservesInv(Step(s, es[0]), es[1..]);
    }
  }

  lemma StepOnlyAppends(s: State, e: Event)
    requires Enabled(s, e)
    ensures s.messages <= Step(s, e).messages
    ensures s.outbox <= Step(s, e).outbox
    ensures s.cues <= Step(s, e).cues
    ensures s.routes <= Step(s, e).routes
  {
    match e
    case PressJoin =>
    case PressSend =>
    case PressCall(_) =>
    case PressAnswer =>
    case RelayMessage(_) =>
    case PeerSignal(_, _) =>
    case _ =>
  }

  /** Histories only grow: the message log, the outbox, the cue log and the
      list of created peers of the state before a run are prefixes of
      those after it, so no message is ever reordered or removed. */
  lemma {:induction false} RunOnlyAppends(s: State, es: seq<Event>)
    requires Admissible(s, es)
    ensures s.messages <= Run(s, es).messages
    ensures s.outbox <= Run(s, es).outbox
    ensures s.cues <= Run(s, es).cues
    ensures s.routes <= Run(s, es).routes
    decreases |es|
  {
    if es != [] {
      StepOnlyAppends(s, es[0]);
      RunOnlyAppends(Step(s, es[0]), es[1..]);
    }
  }

  /** A run of one more event first takes that event's step. */
  lemma RunCons(s: State, e: Event, es: seq<Event>)
    requires Enabled(s, e) && Admissible(Step(s, e), es)
    ensures Admissible(s, [e] + es) && Run(s, [e] + es) == Run(Step(s, e), es)
  {
    assert ([e] + es)[1..] == es;
  }

  /** From the first render, whatever happens, no blank name or blank
      message was ever sent to the relay, the presence snapshot has distinct
      ids, and the cue log matches the message log. */
  lemma Reachable(es: seq<Event>)
    requires Admissible(Init(), es)
    ensures var t := Run(Init(), es);
      && (forall i :: 0 <= i < |t.outbox| && t.outbox[i].Join? ==> HasContent(t.outbox[i].name))
      && (forall i :: 0 <= i < |t.outbox| && t.outbox[i].Message? ==> HasContent(t.outbox[i].msg.text))
      && DistinctIds(t.users)
      && CuesOk(t.messages, t.cues)
  {
    InitInv();
    RunPreservesInv(Init(), es);
    var t := Run(Init(), es);
    forall i | 0 <= i < |t.outbox| ensures EmittedOk(t.outbox[i], t.routes) {
    }
  }

  // ---------------------------------------------------------------------------
  // Call handshakes, as the source performs them

  /** Calling: `callUser(id)` installs an initiator peer carrying the current
      stream; its `signal` callback emits one `call-user` to `id` under the
      display name of that moment; `call-answered` then accepts the call and
      feeds the answer into that same peer. */
  lemma {:induction false} CallHandshake(s: State, id: Id, offer: Signal, answer: Signal)
    ensures var es := [PressCall(id), PeerSignal(|s.routes|, offer), RelayCallAnswered(answer)];
      && Admissible(s, es)
      && var t := Run(s, es);
      && t.connection == Some(Peer(true, s.stream, [answer], Offer(id, s.username)))
      && t.outbox == s.outbox + [CallUser(offer, id, s.username)]
      && t.callAccepted
      && !PromptShown(t)
      && t.messages == s.messages && t.users == s.users
  {
    var e1, e2, e3 := PressCall(id), PeerSignal(|s.routes|, offer), RelayCallAnswered(answer);
    var s1 := Step(s, e1);
    var s2 := Step(s1, e2);
    assert s2.connection == Some(Peer(true, s.stream, [], Offer(id, s.username)));
    assert [] + [answer] == [answer];
    RunCons(s2, e3, []);
    RunCons(s1, e2, [e3]);
    RunCons(s, e1, [e2, e3]);
    assert [e1] + [e2, e3] == [e1, e2, e3];
  }

  /** Answering: after `incoming-call`, the prompt is shown exactly when the
      session has joined and no call was accepted before; `answerCall` then accepts, installs a non-initiator peer
      fed with exactly the caller's signal, hides the prompt, and that peer's
      `signal` callback emits one `answer-call` back to the caller. */
  lemma {:induction false} AnswerHandshake(s: State, from: Id, offer: Signal, name: string, answer: Signal)
    ensures var es := [RelayIncomingCall(from, offer, name), PressAnswer, PeerSignal(|s.routes|, answer)];
      && Admissible(s, es)
      && (PromptShown(Step(s, es[0])) <==> s.hasJoined && !s.callAccepted)
      && var t := Run(s, es);
      && t.connection == Some(Peer(false, s.stream, [offer], Answer(from, s.username)))
      && t.outbox == s.outbox + [AnswerCall(answer, from, s.username)]
      && t.callAccepted
      && !PromptShown(t)
      && t.messages == s.messages && t.users == s.users
  {
    var e1, e2, e3 := RelayIncomingCall(from, offer, name), PressAnswer, PeerSignal(|s.routes|, answer);
    var s1 := Step(s, e1);
    var s2 := Step(s1, e2);
    RunCons(s2, e3, []);
    RunCons(s1, e2, [e3]);
    RunCons(s, e1, [e2, e3]);
    assert [e1] + [e2, e3] == [e1, e2, e3];
  }

  /** `callAccepted` is never reset: once any call has been accepted, a later
      `incoming-call` does not show the prompt. */
  lemma {:induction false} AcceptedStaysAccepted(s: State, es: seq<Event>)
    requires Admissible(s, es) && s.callAccepted
    ensures Run(s, es).callAccepted && !PromptShown(Run(s, es))
    decreases |es|
  {
    if es != [] {
      AcceptedStaysAccepted(Step(s, es[0]), es[1..]);
    }
  }

  /** `callUser` has no guard: calling a second peer while the first call is
      outstanding replaces the peer, and both peers' callbacks still emit
      their `call-user`, so two offers go out. */
  lemma {:induction false} SecondCallSupersedes(s: State, a: Id, b: Id, da: Signal, db: Signal)
    ensures var k := |s.routes|;
      var es := [PressCall(a), PressCall(b), PeerSignal(k, da), PeerSignal(k + 1, db)];
      && Admissible(s, es)
      && var t := Run(s, es);
      && t.outbox == s.outbox + [CallUser(da, a, s.username), CallUser(db, b, s.username)]
      && t.connection == Some(Peer(true, s.stream, [], Offer(b, s.username)))
  {
    var k := |s.routes|;
    var e1, e2, e3, e4 := PressCall(a), PressCall(b), PeerSignal(k, da), PeerSignal(k + 1, db);
    var s1 := Step(s, e1);
    var s2 := Step(s1, e2);
    assert s2.routes[k] == Offer(a, s.username);
    var s3 := Step(s2, e3);
    RunCons(s3, e4, []);
    RunCons(s2, e3, [e4]);
    RunCons(s1, e2, [e3, e4]);
    RunCons(s, e1, [e2, e3, e4]);
    assert [e2] + [e3, e4] == [e2, e3, e4];
    assert [e1] + [e2, e3, e4] == [e1, e2, e3, e4];
  }
  // ---------------------------------------------------------------------------
  // Chat and presence, end to end

  /** Joining alone: typing a name that is not blank and pressing Join emits
      exactly one `join`; when the relay's snapshot then lists only the local
      socket, there is nobody to call. */
  lemma {:induction false} JoinAlone(name: string, own: Id)
    requires HasContent(name)
    ensures var es := [TypeUsername(name), PressJoin, RelayUsers([Entry(own, name)])];
      && Admissible(Init(), es)
      && var t := Run(Init(), es);
      && t.hasJoined && t.mediaRequested
      && t.outbox == [Join(name)]
      && CallablePeers(t.users, Some(own)) == []
  {
    var e1, e2, e3 := TypeUsername(name), PressJoin, RelayUsers([Entry(own, name)]);
    var s1 := Step(Init(), e1);
    var s2 := Step(s1, e2);
    RunCons(s2, e3, []);
    RunCons(s1, e2, [e3]);
    RunCons(Init(), e1, [e2, e3]);
    assert [e1] + [e2, e3] == [e1, e2, e3];
  }

  /** Sending and receiving the relay's echo: the draft goes out once as
      typed, is cleared, comes back at the tail of the log, and does not ring,
      since it carries the local display name. A message from another name
      rings. */
  lemma {:induction false} EchoIsSilent(s: State, other: ChatMessage)
    requires HasContent(s.draft) && other.username != s.username
    ensures var mine := ChatMessage(s.username, s.draft);
      var es := [PressSend, RelayMessage(mine), RelayMessage(other)];
      && Admissible(s, es)
      && var t := Run(s, es);
      && t.outbox == s.outbox + [Message(mine)]
      && t.draft == ""
      && t.messages == s.messages + [mine, other]
      && t.cues == s.cues + [Cue(s.username, false), Cue(s.username, true)]
  {
    var mine := ChatMessage(s.username, s.draft);
    var e1, e2, e3 := PressSend, RelayMessage(mine), RelayMessage(other);
    var s1 := Step(s, e1);
    var s2 := Step(s1, e2);
    RunCons(s2, e3, []);
    RunCons(s1, e2, [e3]);
    RunCons(s, e1, [e2, e3]);
    assert [e1] + [e2, e3] == [e1, e2, e3];
  }

  /** The ringtone and the bubble disagree once the name changes: a message
      arriving while the name input holds `early` rings, since its author
      `late` differs, and after the name is changed to `late` and the session
      joins, the same message carries the current name and so is drawn on the
      local side. */
  lemma {:induction false} RenameAfterArrival(early: string, late: string, text: string)
    requires early != late && HasContent(late)
    ensures var m := ChatMessage(late, text);
      var es := [TypeUsername(early), RelayMessage(m), TypeUsername(late), PressJoin];
      && Admissible(Init(), es)
      && var t := Run(Init(), es);
      && t.hasJoined
      && t.messages == [m] && t.messages[0].username == t.username
      && t.cues == [Cue(early, true)]
  {
    var m := ChatMessage(late, text);
    var e1, e2, e3, e4 := TypeUsername(early), RelayMessage(m), TypeUsername(late), PressJoin;
    var s1 := Step(Init(), e1);
    var s2 := Step(s1, e2);
    var s3 := Step(s2, e3);
    RunCons(s3, e4, []);
    RunCons(s2, e3, [e4]);
    RunCons(s1, e2, [e3, e4]);
    RunCons(Init(), e1, [e2, e3, e4]);
    assert [e2] + [e3, e4] == [e2, e3, e4];
    assert [e1] + [e2, e3, e4] == [e1, e2, e3, e4];
  }
}
