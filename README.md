# Realtime chat: client session and presence registry

A Dafny model of two small sequential state machines from a STOMP-over-WebSocket
chat application.

- **The client session** (`src/App.jsx`). A React component keeps the connection
  flag, the name and draft inputs, an append-only message log, the online roster,
  the typing indicator and one pending typing-expiry timer. STOMP handlers fold
  inbound frames into that state: `/topic/messages` appends, `/topic/users`
  replaces the roster, `/topic/typing` sets the indicator and restarts a 1500 ms
  expiry. Three guarded actions publish outbound frames: `joinChat`,
  `sendTyping`, `sendMessage`. The model is the class `ChatSession.Session`.
  Each handler and action is a method whose field-level `modifies` clause and
  `ensures` give the whole new state, and every one of them keeps the session
  invariant `Valid`: a pending expiry lies at most one quiet period ahead, and
  a shown typing user always has one pending. Every publish goes into an `outbox` of
  `(destination, body)` frames. A logical clock (`Tick`) replaces
  `setTimeout`/`clearTimeout`. What each action publishes is given by a pure
  function (`JoinFrames`, `TypingFrames`, `SendFrames`), and each of those
  states its guard as a property of the inputs. A frame's body is either a
  plain text or a message handed to `JSON.stringify`; `Wire` gives the text
  that goes out.
- **The presence registry** (`PresenceController.java`). A static set of
  online names. `join` adds a name and `leave` removes one; both broadcast the
  whole set on `/topic/online`. `typing` relays a name to `/topic/typing`. The
  model is the class `Presence.Registry`, with a `sent` log of broadcasts.

Supporting modules:
- `Text` models JavaScript's `String.prototype.trim` and Java's
  `String.isBlank`. Each uses its own language's white-space class, and the two
  classes differ.
- `Json` gives the exact `JSON.stringify` body of the `{sender, content}`
  object, with a decoder for that shape. `Json.DecodeEncode` proves the round
  trip for every message. `ChatSession.SentBodyDecodes` applies it to
  `sendMessage`: the published body decodes back to the trimmed name and the
  trimmed draft.
- `Scenarios` holds client methods that run event sequences through the
  contracts alone, plus two lemmas about how the client's name and the server's
  blank check interact: `JoinBodyBlankOnServer` and its witness
  `SeparatorNameIsRefused`.

Notes on the source:
- `sendTyping` calls the undefined name `stompClientompClientSafe`
  (src/App.jsx:232). As written, it therefore throws a `ReferenceError` once its
  guard passes, and it never publishes. The session models the intended call of
  `StompClientSafe` (src/App.jsx:256-260): publish, and swallow any error. The
  defect is recorded under Findings.
- `joinChat` and `sendTyping` test the STOMP client's own `connected` flag
  (src/App.jsx:220, 230). `sendMessage` tests the React state that
  `onConnect`/`onDisconnect` set (src/App.jsx:242). The model keeps a single
  `connected` flag.
- The server broadcasts presence on `/topic/online`
  (PresenceController.java:26, 33). The client listens for its roster on
  `/topic/users` (src/App.jsx:183). The two machines are therefore kept apart.
  Nothing here claims that the client's roster is fed by `join`.
- The typing guard does not trim (src/App.jsx:230), so a name made only of
  spaces announces typing. `joinChat` and `sendMessage` refuse such a name.
- `String.prototype.trim` strips U+00A0 and U+FEFF, but Java does not count
  them as white space. Java counts U+001C..U+001F as white space, but `trim`
  keeps them. So a name that `joinChat` publishes can still be blank to the
  server's `join`, and only when it starts with one of U+001C..U+001F
  (`JoinBodyBlankOnServer`, `SeparatorNameIsRefused`).

## Model

| member | source | states |
|---|---|---|
| Text.TrimStart | src/App.jsx:220 | the result is a suffix of the input, does not start with space, and everything removed is space |
| Text.TrimEnd | src/App.jsx:220 | the result is a prefix of the input, does not end with space, and everything removed is space |
| Text.Trim | src/App.jsx:242 | the trimmed string is no longer than the input and neither starts nor ends with space |
| Text.TrimEmptyIff | src/App.jsx:220 | the trimmed string is empty exactly when the input is all space (the falsy test of `!x.trim()`) |
| Text.TrimBounds | src/App.jsx:224 | gives the two positions of the input between which the trimmed string lies, with only space before the first and from the second on |
| Text.TrimIsInfix | src/App.jsx:224 | the trimmed string is exactly the part of the input between an all-space prefix and an all-space suffix |
| Text.TrimIdempotent | src/App.jsx:224 | trimming an already trimmed string changes nothing |
| Text.IndexOfNonWhitespace | src/main/java/com/chat/app/controller/PresenceController.java:23 | the first non-white-space position: everything before it is Java white space and the code point at it is not |
| Text.IsBlank | src/main/java/com/chat/app/controller/PresenceController.java:23 | `String.isBlank`: the first non-white-space position is the end of the string |
| Text.BlankIff | src/main/java/com/chat/app/controller/PresenceController.java:23 | `isBlank` holds exactly when every code point is Java white space, including for the empty string |
| Json.EncodeMessage | src/App.jsx:246-249 | `JSON.stringify` of `{sender, content}`: keys in insertion order, each string quoted by QuoteJSONString; what it means is the round trip below |
| Json.DecodeEncode | src/App.jsx:246-249 | the `JSON.stringify` body of `{sender, content}` decodes back to the same pair |
| Json.EncodeInjective | src/App.jsx:246-249 | distinct messages are published as distinct bodies |
| ChatSession.JoinFrames | src/App.jsx:219-226 | joinChat publishes one frame to `/app/join` exactly when connected and the name is not all space; the body is the trimmed name, non-empty and already trimmed; otherwise nothing |
| ChatSession.TypingFrames | src/App.jsx:229-238 | sendTyping publishes one frame to `/app/typing` with the name verbatim exactly when connected, the name is non-empty and the publish did not throw; otherwise nothing |
| ChatSession.TypingAsWritten | src/App.jsx:232 | as written, sendTyping never publishes, and it throws exactly when its guard passes |
| ChatSession.SendFrames | src/App.jsx:241-253 | sendMessage publishes one frame to `/app/sendMessage` exactly when connected and neither the name nor the draft is all space; the body is the JSON encoding of the trimmed name and the trimmed draft |
| ChatSession.SentBodyDecodes | src/App.jsx:244-250 | the body sendMessage publishes decodes back to the trimmed name and the trimmed draft |
| ChatSession.ShowTyping | src/App.jsx:313 | the typing banner shows exactly when someone is typing and it is not the local name |
| ChatSession.TypingGuardDoesNotTrim | src/App.jsx:230 | a non-empty, all-space name publishes typing while connected, but joinChat and sendMessage refuse it |
| ChatSession.TypingTypoLosesPublish | src/App.jsx:232 | wherever the intended sendTyping publishes, the code as written throws a ReferenceError and publishes nothing |
| ChatSession.Session.constructor | src/App.jsx:7-18 | initial state: disconnected, empty inputs, log, roster and indicator, no pending timer, no subscriptions, empty outbox |
| ChatSession.Session.OnConnect | src/App.jsx:172-199 | connected becomes true and the subscriptions are exactly messages, users and typing, whose wire names are `/topic/messages`, `/topic/users` and `/topic/typing`; nothing else changes |
| ChatSession.Session.OnDisconnect | src/App.jsx:201-204 | connected becomes false; the log, roster, indicator, inputs and outbox are untouched |
| ChatSession.Session.OnMessagesFrame | src/App.jsx:177-180 | a decodable body is appended at the end of the log (the old log is a prefix, one longer); an undecodable one leaves the log and everything else unchanged |
| ChatSession.Session.OnUsersFrame | src/App.jsx:183-186 | the roster becomes exactly the decoded list, whatever it was before; an undecodable body changes nothing |
| ChatSession.Session.OnTypingFrame | src/App.jsx:190-198 | the typing user becomes the raw body, and the only pending expiry is at now + 1500, replacing any earlier one |
| ChatSession.Session.Tick | src/App.jsx:192-197 | time advances; if the pending expiry is due it fires once, clearing the typing user and nothing else; after a whole quiet period the indicator is always clear, since the invariant keeps an expiry pending whenever a typing user is shown |
| ChatSession.Session.EditSender | src/App.jsx:341 | the name input takes the new value |
| ChatSession.Session.EditDraft | src/App.jsx:350-353 | the draft takes the new value, then sendTyping runs |
| ChatSession.Session.JoinChat | src/App.jsx:219-226 | the outbox grows by exactly JoinFrames; nothing else changes |
| ChatSession.Session.PublishSafely | src/App.jsx:256-260 | the frame is published unless the publish throws; a throw is swallowed |
| ChatSession.Session.SendTyping | src/App.jsx:229-238 | the outbox grows by exactly TypingFrames; nothing else changes |
| ChatSession.Session.SendMessage | src/App.jsx:241-253 | the outbox grows by exactly SendFrames of the name, draft and flag before the call; the draft is cleared exactly when a frame was published and kept otherwise |
| Presence.Admits | src/main/java/com/chat/app/controller/PresenceController.java:23 | join's guard: the name is neither null nor blank |
| Presence.AdmitsIff | src/main/java/com/chat/app/controller/PresenceController.java:23 | join admits a name exactly when it is non-null and holds a code point that is not Java white space |
| Presence.Registry.constructor | src/main/java/com/chat/app/controller/PresenceController.java:14 | the set starts empty and nothing has been broadcast |
| Presence.Registry.Join | src/main/java/com/chat/app/controller/PresenceController.java:22-27 | a null or blank name changes neither the set nor the broadcasts; any other name makes the set old + {name} and broadcasts the new set once on `/topic/online` |
| Presence.Registry.Leave | src/main/java/com/chat/app/controller/PresenceController.java:31-34 | the set becomes old - {name} with every other member kept, and the new set is broadcast even when the name was absent |
| Presence.Registry.Typing | src/main/java/com/chat/app/controller/PresenceController.java:38-40 | one broadcast of the unchanged name on `/topic/typing`; the set is untouched |
| Scenarios.TypingDebounce | src/App.jsx:190-198 | typing events at 0 and 1000 ms: the indicator survives the first deadline and clears at 2500 ms |
| Scenarios.OwnEchoStoredNotShown | src/App.jsx:313 | a typing frame carrying the local name is stored as the typing user, yet the banner does not show it |
| Scenarios.TypingClearsAfterActions | src/App.jsx:190-198 | after a typing frame, sendMessage, joinChat and a draft edit leave the invariant and the pending expiry in place, so one quiet period later the indicator is clear |
| Scenarios.ConnectScenario | src/App.jsx:172-204 | connect, roster, message, disconnect: the roster is the payload, the log holds the message, and both survive the disconnect |
| Scenarios.ArrivalOrder | src/App.jsx:177-180 | valid messages are logged in arrival order, and a malformed one in between leaves no trace |
| Scenarios.SendTwice | src/App.jsx:241-253 | a second sendMessage right after a successful one publishes nothing, because the draft is empty |
| Scenarios.JoinThenLeave | src/main/java/com/chat/app/controller/PresenceController.java:22-34 | join then leave of a name not online restores the set, with two broadcasts |
| Scenarios.JoinTwice | src/main/java/com/chat/app/controller/PresenceController.java:22-27 | join is idempotent on the set but broadcasts every time |
| Scenarios.JoinBodyBlankOnServer | src/main/java/com/chat/app/controller/PresenceController.java:23 | a name joinChat publishes is blank to the server only if it starts with one of U+001C..U+001F |
| Scenarios.SeparatorNameIsRefused | src/main/java/com/chat/app/controller/PresenceController.java:23 | a lone U+001C is published by joinChat and refused by join |

## Left out

- The 3D canvas, particles, cubes, camera orbit and GSAP entrance (src/App.jsx:25-163) are animation with no data dependency on the session.
- Auto-scroll (src/App.jsx:214-216), `console.log` calls and the JSX layout are left out. The one exception is the typing-banner test of src/App.jsx:313 (`ShowTyping`).
- STOMP client internals are left out: the handshake, framing, `activate`/`deactivate` (src/App.jsx:207-210) and the reconnect scheduler. The 3000 ms delay survives only as the constant `ReconnectDelay`. Connect, disconnect and frame delivery are events the environment calls. A frame handler may run only while its topic is subscribed.
- Two connection flags are merged into one. The source has React's `connected` and the client's `stompClient.current.connected`. The window where they disagree is not modelled, nor is the exception that `publish` would then raise in `sendMessage`, which leaves the draft uncleared.
- `JSON.parse` on `/topic/messages` and `/topic/users` is not modelled: each is a decoder given to the constructor, and `None` stands for "it threw". A parsed value that is not a `{sender, content}` record on `/topic/messages`, or not an array of strings on `/topic/users`, is outside the model.
- `Json.DecodeMessage` reads only the exact shape that `JSON.stringify` writes. It is there to show that the body loses nothing; it is not a JSON parser. It refuses a `\u` escape naming a surrogate.
- Publish failures are a parameter (`publishRaised`), and only for `sendTyping`, the one action the source wraps. Given their guards, `joinChat` and `sendMessage` are modelled as publishing without fault.
- Strings are sequences of Unicode scalar values. A JavaScript or Java string holding a lone UTF-16 surrogate is not represented, so `JSON.stringify`'s `\udXXX` escape for such a code unit does not occur in the model.
- The typing timer is not cancelled on unmount (src/App.jsx:210 only deactivates the client). Unmount is outside the model.
- The registry's `ConcurrentHashMap` key set is modelled as a plain set that one handler at a time updates, and the static field as one `Registry` object. The iteration order of the broadcast set is not modelled.
- A null argument to `leave` or `typing` is not modelled. Both take a plain string, because Spring's payload resolver supplies the argument. Only `join`, which tests for null, takes an optional name.
- `ChatController.java`, `ChatMessageRepository.java` and `WebSocketEvents.java` are left out: a persistence wrapper, an empty JPA interface, and logging. `ChatMessage.java` contributes only its `sender` and `content` fields; the generated `id` is left out.

## Findings

| source | as written | input that shows it | evidently intended | confidence | as-written member | corrected member |
|---|---|---|---|---|---|---|
| src/App.jsx:232 | `sendTyping` calls the undefined name `stompClientompClientSafe`, so once the guard passes it throws a ReferenceError before publishing | connected, sender `"alice"`, any keystroke in the draft | call `StompClientSafe` (src/App.jsx:256-260): publish to `/app/typing`, swallow any error | high, not executed | ChatSession.TypingAsWritten | ChatSession.TypingFrames |
