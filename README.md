# Session core of a browser chat and video-call client

This project models the session state of the single React component `App` of a
small chat client. The client joins a shared relay under a display name. It
receives presence snapshots and chat messages from the relay. It can set up a
two-party video call by exchanging negotiation signals through the relay.

The component declares eleven `useState` slots (src/App.js:11-23). The model
holds ten of them, every one but the emoji picker toggle `showEmojiPicker`,
together with the connection ref. Four kinds of input change this state:

- local intents: typing a name or a draft, join, send, emoji, call, answer;
- relay events: `message`, `users`, `incoming-call`, `call-answered`;
- peer callbacks: `signal`;
- the resolution of the `getUserMedia` request made on join (line 72,
  `App.OnStreamAcquired`).

Modules, leaves first:

- `Text` (`text.dfy`): JavaScript's `String.prototype.trim` and the
  "not blank" guard `s.trim() !== ""`.
- `Chat` (`chat.dfy`): chat messages, the ringtone decision
  `msg.username !== username`, and the record of one decision.
- `Presence` (`presence.dfy`): the `[id, name]` entries of a `users` snapshot,
  and the filter that hides the local socket id from the list of callable peers.
- `Signaling` (`signaling.dfy`): negotiation signals, media streams, the peer
  connection as a record, and the relay events the client emits.
- `Session` (`session.dfy`): the whole state as a value, one `Step` per handler,
  runs of steps, the invariant every reachable state keeps, and lemmas about
  the call handshakes and the chat echo.
- `Component` (`component.dfy`): the class `App`. Its fields are the component
  state. It has one method per handler, which updates the fields in place. Each
  method states its whole new state and that this state is `Session.Step` of
  the old one. So every `Session` lemma about runs applies to any sequence of
  method calls.

Three histories and one flag are ghost fields of `App`:

- `outbox`: every relay event emitted (`join`, `message`, `call-user`,
  `answer-call`), in order.
- `cues`: every ringtone decision and the display name it compared against.
- `routes`: the `signal` callback of every peer created, oldest first. This lets
  the callback of an older, replaced peer still fire, as it can in the source.
- `mediaRequested` (a flag): whether `handleJoin` has asked for the camera.

The peer connection is a record. It holds whether the peer is the initiator,
the stream it was given, the signals fed into it, and where its `signal`
callback sends the payload it produces.

The source is modelled as written. No handler checks the state before it runs.
`callUser` and `answerCall` work in any state, and a second `callUser` replaces
the peer (`Session.SecondCallSupersedes`). `callAccepted` is never reset, so
after one accepted call a later incoming call never shows the Answer prompt
(`Session.AcceptedStaysAccepted`). If `call-answered` arrives while there is no
peer, the handler dereferences `connectionRef.current`, which is undefined, and
throws a TypeError. The accepted flag has already been queued by then. The model
gives this as an explicit failure result: `App.OnCallAnswered` returns
`ok == false` and its state has only `callAccepted` set.

The model follows the code in four further decisions:

- The code has no state guards and no teardown: it calls in any state, answers
  in any state, and feeds a late `call-answered` into whatever peer is current.
  The model has none either.
- The code's `call-user` carries `{ signal, to, username }`, and `answer-call`
  carries the same fields. So does the model's outbox.
- The code creates the peer with whatever `stream` holds, possibly nothing. The
  model's peer record holds that optional stream.
- The code filters the callable list against `socket.id`, which is `undefined`
  until the relay assigns an id. Before that, the model filters nothing out.

Each handler is modelled as running to completion against the state of the
latest render, one at a time, in arrival order. The `message` handler compares
against the current `username`, because the listeners are registered again
whenever `username` changes.

The ringtone and the side of the message bubble do not always agree. The
ringtone test (line 34) compares the author with the display name at the moment
the message arrives. The bubble test (line 219) compares it with the display
name at the moment of drawing. The two agree only while the name stays the
same. A message that arrives while the name input holds `Ali` and is signed
`Alice` rings; once the name is changed to `Alice` and the session joins, that
message is drawn on the local side (`Session.RenameAfterArrival`).

## Model

| member | source | states |
|---|---|---|
| `Text.Trim` | src/App.js:66 | `trim` removes exactly the longest whitespace prefix and suffix (ECMAScript WhiteSpace and LineTerminator code points); the result is a slice of the input, starts and ends with non-whitespace, and is empty exactly when the input is all whitespace |
| `Text.HasContent` | src/App.js:82 | the guard `s.trim() !== ""` holds exactly when some character of `s` is not whitespace |
| `Presence.CallablePeers` | src/App.js:170-172 | the callable list keeps the snapshot's order, contains an entry exactly when the snapshot has it and its id is not the local socket id, so the local id never appears; with no socket id yet, it is the whole snapshot |
| `Presence.CallablePeersCount` | src/App.js:170-172 | on a snapshot with distinct keys the filter drops exactly one entry if the local id is present and none otherwise |
| `Signaling.Emit` | src/App.js:102-108 | a peer's `signal` callback emits exactly one event: `call-user` for a peer made by `callUser`, `answer-call` for one made by `answerCall` (lines 127-133), carrying the payload, the captured target and the captured display name |
| `Session.InitInv` | src/App.js:11-27 | the initial state satisfies the session invariant |
| `Session.StepPreservesInv` | src/App.js:29-143 | every handler keeps the invariant: every emitted `join` and `message` passed its "not blank" guard, every `call-user`/`answer-call` went to a target a created peer captured, one ringtone decision per received message and each rang exactly when the author differed from the name then in force, the current peer is the last one created and is the initiator exactly when `callUser` made it, the snapshot keys are distinct, and a stream is held only after joining requested it |
| `Session.RunPreservesInv` | src/App.js:29-143 | the invariant holds after any sequence of handlers |
| `Session.RunOnlyAppends` | src/App.js:30-31 | over any run the message log, the outbox, the cue log and the list of created peers only grow at the tail: the earlier log is a prefix of the later one |
| `Session.Reachable` | src/App.js:29-143 | from the first render, whatever happens, no blank name is ever sent with `join`, no blank draft with `message`, the presence snapshot has distinct ids, and the cue log matches the message log: one decision per received message, ringing exactly when the author differs from the name in force at its arrival (line 34) |
| `Session.CallHandshake` | src/App.js:95-116 | `callUser(id)`, its peer's signal and then `call-answered{signal}`: one `call-user` to `id` is emitted, the call is accepted, and the same initiator peer has exactly the answer fed into it (lines 52-55); messages and presence are unchanged |
| `Session.AnswerHandshake` | src/App.js:119-143 | after `incoming-call` the Answer prompt (`Session.PromptShown`: joined, `receivingCall` and not `callAccepted`, lines 145-160 and 204) shows exactly when the session has joined and no call was accepted before; `answerCall` then accepts, installs a non-initiator peer fed exactly the caller's signal, hides the prompt, and its signal emits one `answer-call` back to the caller |
| `Session.AcceptedStaysAccepted` | src/App.js:204-211 | once a call was accepted, no later event resets the flag, so the incoming-call prompt (`Session.PromptShown`, shown only while `receivingCall && !callAccepted`) is never shown again, whatever calls come in |
| `Session.SecondCallSupersedes` | src/App.js:95-117 | calling a second peer before the first answers replaces the peer, and both peers' callbacks still emit their `call-user` |
| `Session.JoinAlone` | src/App.js:65-68 | typing a name that is not blank and joining emits exactly one `join(name)` and sets the joined flag; a snapshot listing only the local socket leaves nobody to call |
| `Session.EchoIsSilent` | src/App.js:30-39 | sending emits the draft once as typed and clears it; its echo from the relay, signed with the unchanged local name, is appended to the log and does not ring (line 34), while a message under another name rings |
| `Session.RenameAfterArrival` | src/App.js:34 | a message signed with a name other than the one in force at its arrival rings, and once the name is changed to its author's and the session joins, its author equals the current name, so the bubble test (line 219) draws it on the local side |
| `Component.App.constructor` | src/App.js:11-27 | the first render: every state slot at its `useState` initial value, no peer, empty histories |
| `Component.App.SetUsername` | src/App.js:149-151 | the name input replaces `username` and nothing else |
| `Component.App.SetMessage` | src/App.js:230-232 | the message input replaces the draft and nothing else |
| `Component.App.HandleJoin` | src/App.js:65-79 | with a name that is not blank: `hasJoined` set, exactly one `join(username)` appended to the outbox, media requested; with a blank name: state and outbox unchanged |
| `Component.App.OnStreamAcquired` | src/App.js:70-73 | a granted media request sets `stream` and nothing else |
| `Component.App.SendMessage` | src/App.js:81-89 | with a draft that is not blank: exactly one `message{username, text: draft}` appended to the outbox (untrimmed) and the draft reset to `""`; with a blank draft: nothing changes |
| `Component.App.HandleEmojiClick` | src/App.js:91-93 | the emoji is appended to the draft and nothing else changes |
| `Component.App.CallUser` | src/App.js:95-117 | in any state: installs an initiator peer with the current stream and nothing fed, whose callback will emit `call-user` to `id`; nothing else changes |
| `Component.App.AnswerCall` | src/App.js:119-143 | in any state: `callAccepted` set, a non-initiator peer with the current stream fed exactly `[callerSignal]` installed, its callback bound to emit `answer-call` to `caller`; the prompt condition is false afterwards |
| `Component.App.OnPeerSignal` | src/App.js:102-108 | a created peer's `signal` callback appends exactly one event to the outbox, as `Signaling.Emit` gives it (also lines 127-133) |
| `Component.App.OnMessage` | src/App.js:30-40 | `msg` is appended at the tail (length +1, old prefix unchanged, last element `msg`); one ringtone decision is recorded, ringing exactly when `msg.username` differs from the current name |
| `Component.App.OnUsers` | src/App.js:42-44 | the presence snapshot is replaced wholesale and nothing else changes |
| `Component.App.OnIncomingCall` | src/App.js:46-50 | `receivingCall`, `caller` and `callerSignal` are set; `callAccepted`, messages and users are unchanged, and so is everything else |
| `Component.App.OnCallAnswered` | src/App.js:52-55 | `callAccepted` set and the signal appended to the current peer's fed signals; with no peer, the failure result and only the flag set |

## Left out

- Rendering: the JSX, the `styles` object, the video elements and their refs, and every `srcObject` assignment (src/App.js:74-76, 110-113, 135-138, 145-332). These are presentation. The render decisions are modelled: the prompt condition `Session.PromptShown` and the callable list `Presence.CallablePeers`. The bubble test (line 219) is the comparison of a message's author with the current name, as stated in `Session.RenameAfterArrival`.
- The emoji picker widget and its `showEmojiPicker` toggle (lines 17, 237-251). The toggle affects only what is drawn. The effect of a picked emoji on the draft is modelled.
- The socket.io connection (line 8). Emits are outbox entries. Inbound events are method calls. `socket.id` is a parameter of the callable list, `None` while no id is assigned.
- The WebRTC negotiation inside SimplePeer, and its `stream` events (lines 96-100, 110-114, 121-125, 135-139). A peer is its role, its stream, the signals fed into it and its `signal` callback.
- `Component.App.OnPeerSignal`: with `trickle: false` the library normally fires `signal` once per peer. The model lets a created peer's callback fire any number of times, so it allows at least every case the source can produce.
- `getUserMedia` (lines 70-77). It is asynchronous hardware access. A granted request is `App.OnStreamAcquired`. A refused request has no handler in the source, so it is the absence of that call.
- Audio playback and its error logging (lines 35-38). Only the decision to ring is kept.
- Listener registration and removal in `useEffect` (lines 57-63). The consequence that matters is kept: the `message` handler compares against the current display name.
- React's update batching and stale closures. Each handler runs against the latest committed state.
- Screen gating of the local intents. `Session.Enabled` lets every intent fire in any state, although the screen offers some only in certain states: send and emoji only after joining, the name input only before, Answer only while the prompt shows, Call only on a listed id. Every property is proved over this larger set of runs, so it holds for the runs the screen allows. This is also why a message can ring under one name and then be drawn on the local side under another.
- The caller's display name in `incoming-call` (line 46). The handler ignores it, and so does the model.
- Characters are Unicode scalar values, while JavaScript strings are UTF-16. Every code point that `trim` removes lies in the Basic Multilingual Plane, so the guards decide the same way.
