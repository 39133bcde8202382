/**
 * The client-side chat session of src/App.jsx: the component state of lines
 * 7-18, the inbound STOMP handlers registered in onConnect and onDisconnect
 * (lines 172-204), and the guarded outbound actions joinChat, sendTyping and
 * sendMessage (lines 219-260).
 *
 * The broker link itself is outside the model: connect, disconnect and frame
 * delivery are events the environment calls, timers are a logical clock
 * advanced by Tick, every publish is recorded in an outbox, and JSON.parse on
 * the two structured topics is a decoder the session is constructed with.
 *
 * Two notes on the source.
 * - joinChat and sendTyping test the STOMP client's own flag
 *   (stompClient.current?.connected, lines 220 and 230) while sendMessage tests
 *   the React state set by onConnect/onDisconnect (line 242). The model keeps
 *   one flag, `connected`, for both.
 * - sendTyping as written (line 232) calls `stompClientompClientSafe`, a name
 *   that is not defined, so once its guard passes it raises a ReferenceError
 *   and never publishes. The session models the evidently intended call of
 *   the wrapper StompClientSafe (lines 256-260): publish, and swallow any
 *   error. TypingAsWritten below states what the code as written does.
 */
module ChatSession {
  import opened Wrappers
  import opened Text
  import opened ChatMessage
  import Json

  /** The three topics subscribed on connect. */
  datatype Topic = MessagesTopic | UsersTopic | TypingTopic

  /** The body argument of a publish call: a text given as it is, or the
      `JSON.stringify` of a message (line 246), which is serialised into
      the frame. */
  datatype Body = Plain(text: string) | Stringified(message: Message)

  /** One call of publish: a destination and a body. */
  datatype Frame = Frame(destination: string, body: Body)

  /** The text a body puts on the wire. */
  function Wire(b: Body): string
  {
    match b
    case Plain(text) => text
    case Stringified(m) => Json.EncodeMessage(m)
  }

  function TopicName(t: Topic): string
  {
    match t
    case MessagesTopic => "/topic/messages"
    case UsersTopic => "/topic/users"
    case TypingTopic => "/topic/typing"
  }

  const AllTopics: set<Topic> := {MessagesTopic, UsersTopic, TypingTopic}

  const JoinDestination: string := "/app/join"
  const TypingDestination: string := "/app/typing"
  const SendDestination: string := "/app/sendMessage"

  /** Milliseconds after the last typing event before the indicator clears (line 197). */
  const TypingQuietPeriod: nat := 1500

  /** The client's fixed reconnect delay in milliseconds (line 169); the
      reconnect scheduler that uses it belongs to the STOMP library. */
  const ReconnectDelay: nat := 3000

  /** What joinChat publishes (lines 219-226): the trimmed name, once, when the
      name is not all space and the client is connected; nothing otherwise. */
  function JoinFrames(sender: string, connected: bool): (r: seq<Frame>)
    ensures |r| <= 1
    ensures r != [] <==> connected && !AllJsSpace(sender)
    ensures r != [] ==> r[0].destination == JoinDestination && r[0].body == Plain(Trim(sender))
    ensures r != [] ==> Wire(r[0].body) != [] && Trim(Wire(r[0].body)) == Wire(r[0].body)
  {
    TrimIdempotent(sender);
    TrimEmptyIff(sender);
    if Trim(sender) == [] || !connected then [] else [Frame(JoinDestination, Plain(Trim(sender)))]
  }

  /** What sendTyping publishes with the intended wrapper (lines 229-238,
      256-260). The guard tests the raw name without trimming, so a name made
      only of spaces passes; the body is the name verbatim. `publishRaised`
      says that the publish call threw, which the wrapper swallows. */
  function TypingFrames(sender: string, connected: bool, publishRaised: bool): (r: seq<Frame>)
    ensures r != [] <==> connected && sender != [] && !publishRaised
    ensures r != [] ==> r == [Frame(TypingDestination, Plain(sender))]
  {
    if sender == [] || !connected then []
    else if publishRaised then []
    else [Frame(TypingDestination, Plain(sender))]
  }

  /** How a call of an action ended: normally, or with an uncaught exception. */
  datatype Outcome = Returned | Threw(error: string)

  /** sendTyping exactly as written: past the guard, the call of the undefined
      name `stompClientompClientSafe` throws before the publish is reached. */
  function TypingAsWritten(sender: string, connected: bool): (r: (seq<Frame>, Outcome))
    ensures r.0 == []
    ensures r.1.Threw? <==> connected && sender != []
  {
    if sender == [] || !connected then ([], Returned)
    else ([], Threw("ReferenceError: stompClientompClientSafe is not defined"))
  }

  /** What sendMessage publishes (lines 241-253): when connected and both the
      trimmed name and the trimmed draft are non-empty, one body encoding the
      trimmed pair; nothing otherwise. */
  function SendFrames(sender: string, draft: string, connected: bool): (r: seq<Frame>)
    ensures r != [] <==> connected && !AllJsSpace(sender) && !AllJsSpace(draft)
    ensures r != [] ==> |r| == 1 && r[0].destination == SendDestination
    ensures r != [] ==> r[0].body == Stringified(Message(Trim(sender), Trim(draft)))
  {
    TrimEmptyIff(sender);
    TrimEmptyIff(draft);
    if !connected || Trim(sender) == [] || Trim(draft) == [] then []
    else [Frame(SendDestination, Stringified(Message(Trim(sender), Trim(draft))))]
  }

  /** The body sendMessage publishes reads back as the trimmed name and the
      trimmed draft. */
  lemma SentBodyDecodes(sender: string, draft: string, connected: bool)
    requires SendFrames(sender, draft, connected) != []
    ensures Json.DecodeMessage(Wire(SendFrames(sender, draft, connected)[0].body))
      == Some(Message(Trim(sender), Trim(draft)))
  {
    Json.DecodeEncode(Message(Trim(sender), Trim(draft)));
  }

  /** The "is typing" banner condition (line 313): someone is typing and it is
      not the local name. The dispatcher stores the local user's own echo;
      only this display test hides it. */
  predicate ShowTyping(typingUser: string, sender: string)
  {
    typingUser != [] && typingUser != sender
  }

  class Session {
    /** JSON.parse on a /topic/messages body (line 178); None when it throws. */
    const decodeMessage: string -> Option<Message>
    /** JSON.parse on a /topic/users body (line 184); None when it throws. */
    const decodeUsers: string -> Option<seq<string>>

    var connected: bool
    /** The name input. */
    var sender: string
    /** The message draft input. */
    var draft: string
    /** The message log, append-only, in arrival order. */
    var log: seq<Message>
    /** The online roster, as last received. */
    var roster: seq<string>
    var typingUser: string
    /** The deadline of the one pending typing-expiry timer, if any. */
    var typingExpiry: Option<nat>
    /** The logical time in milliseconds. */
    var clock: nat
    /** The topics with a live handler on the current link. */
    var subscriptions: set<Topic>
    /** Every publish, in order. */
    var outbox: seq<Frame>

    /** A pending expiry lies in the future, at most one quiet period ahead,
        and a shown typing user always has one pending: every setTypingUser
        at line 192 is followed by a setTimeout at line 195. */
    ghost predicate Valid()
      reads this
    {
      (typingExpiry.Some? ==> clock < typingExpiry.value <= clock + TypingQuietPeriod)
      && (typingUser != [] ==> typingExpiry.Some?)
    }

    /** The state of lines 7-18 at mount. */
    constructor (decodeMessage: string -> Option<Message>, decodeUsers: string -> Option<seq<string>>)
      ensures Valid()
      ensures this.decodeMessage == decodeMessage && this.decodeUsers == decodeUsers
      ensures !connected && sender == [] && draft == [] && log == [] && roster == []
      ensures typingUser == [] && typingExpiry == None && clock == 0
      ensures subscriptions == {} && outbox == []
    {
      this.decodeMessage := decodeMessage;
      this.decodeUsers := decodeUsers;
      connected, sender, draft, log, roster := false, [], [], [], [];
      typingUser, typingExpiry, clock := [], None, 0;
      subscriptions, outbox := {}, [];
    }

    /** onConnect (lines 172-199): connected, and exactly the three topics
        subscribed, on every (re)connect. Nothing else changes. */
    method OnConnect()
      requires Valid()
      modifies this`connected, this`subscriptions
      ensures Valid()
      ensures connected && subscriptions == AllTopics
      ensures (set t | t in subscriptions :: TopicName(t)) == {"/topic/messages", "/topic/users", "/topic/typing"}
    {
      connected := true;
      subscriptions := {};
      subscriptions := subscriptions + {MessagesTopic};
      subscriptions := subscriptions + {UsersTopic};
      subscriptions := subscriptions + {TypingTopic};
    }

    /** onDisconnect (lines 201-204): only `connected` of the session state
        changes; the subscriptions went with the link. */
    method OnDisconnect()
      requires Valid()
      modifies this`connected, this`subscriptions
      ensures Valid()
      ensures !connected && subscriptions == {}
    {
      connected := false;
      subscriptions := {};
    }

    /** A /topic/messages frame (lines 177-180): a decodable body is appended
        at the end of the log; a body JSON.parse rejects throws before
        setMessages and leaves the log as it was. */
    method OnMessagesFrame(body: string) returns (applied: bool)
      requires Valid() && MessagesTopic in subscriptions
      modifies this`log
      ensures Valid()
      ensures applied <==> decodeMessage(body).Some?
      ensures applied ==> log == old(log) + [decodeMessage(body).value]
      ensures !applied ==> log == old(log)
    {
      var data := decodeMessage(body);
      if data.None? {
        return false;
      }
      log := log + [data.value];
      applied := true;
    }

    /** A /topic/users frame (lines 183-186): the roster becomes the decoded
        list, whatever it was before; an undecodable body changes nothing. */
    method OnUsersFrame(body: string) returns (applied: bool)
      requires Valid() && UsersTopic in subscriptions
      modifies this`roster
      ensures Valid()
      ensures applied <==> decodeUsers(body).Some?
      ensures applied ==> roster == decodeUsers(body).value
      ensures !applied ==> roster == old(roster)
    {
      var users := decodeUsers(body);
      if users.None? {
        return false;
      }
      roster := users.value;
      applied := true;
    }

    /** A /topic/typing frame (lines 190-198): the raw body becomes the typing
        user, any pending expiry is cancelled and exactly one is scheduled one
        quiet period from now. */
    method OnTypingFrame(body: string)
      requires Valid() && TypingTopic in subscriptions
      modifies this`typingUser, this`typingExpiry
      ensures Valid()
      ensures typingUser == body && typingExpiry == Some(clock + TypingQuietPeriod)
    {
      typingUser := body;
      typingExpiry := None;
      typingExpiry := Some(clock + TypingQuietPeriod);
    }

    /** Time passes. If the pending expiry falls due, its callback (line 196)
        clears the typing user and nothing else; after a whole quiet period
        the indicator is always clear. */
    method Tick(elapsed: nat) returns (fired: bool)
      requires Valid()
      modifies this`clock, this`typingUser, this`typingExpiry
      ensures Valid()
      ensures clock == old(clock) + elapsed
      ensures fired <==> old(typingExpiry).Some? && old(typingExpiry).value <= clock
      ensures fired ==> typingUser == [] && typingExpiry == None
      ensures !fired ==> typingUser == old(typingUser) && typingExpiry == old(typingExpiry)
      ensures elapsed >= TypingQuietPeriod ==> typingUser == []
    {
      clock := clock + elapsed;
      fired := typingExpiry.Some? && typingExpiry.value <= clock;
      if fired {
        typingUser := [];
        typingExpiry := None;
      }
    }

    /** The name input's onChange (line 341). */
    method EditSender(value: string)
      requires Valid()
      modifies this`sender
      ensures Valid()
      ensures sender == value
    {
      sender := value;
    }

    /** The draft input's onChange (lines 350-353): store the draft, then sendTyping. */
    method EditDraft(value: string, publishRaised: bool)
      requires Valid()
      modifies this`draft, this`outbox
      ensures Valid()
      ensures draft == value
      ensures outbox == old(outbox) + TypingFrames(sender, connected, publishRaised)
    {
      draft := value;
      SendTyping(publishRaised);
    }

    /** joinChat (lines 219-226). */
    method JoinChat()
      requires Valid()
      modifies this`outbox
      ensures Valid()
      ensures outbox == old(outbox + JoinFrames(sender, connected))
    {
      var name := Trim(sender);
      if name == [] || !connected {
        return;
      }
      outbox := outbox + [Frame(JoinDestination, Plain(name))];
    }

    /** StompClientSafe (lines 256-260) around a publish: the frame is sent
        unless the publish throws, and a throw is swallowed. */
    method PublishSafely(frame: Frame, publishRaised: bool)
      requires Valid()
      modifies this`outbox
      ensures Valid()
      ensures outbox == old(outbox) + (if publishRaised then [] else [frame])
    {
      if !publishRaised {
        outbox := outbox + [frame];
      }
    }

    /** sendTyping (lines 229-238) with the intended wrapper call. */
    method SendTyping(publishRaised: bool)
      requires Valid()
      modifies this`outbox
      ensures Valid()
      ensures outbox == old(outbox) + TypingFrames(sender, connected, publishRaised)
    {
      if sender == [] || !connected {
        return;
      }
      PublishSafely(Frame(TypingDestination, Plain(sender)), publishRaised);
    }

    /** sendMessage (lines 241-253): publish the trimmed pair and clear the
        draft, or do nothing at all. The guard and the body are SendFrames. */
    method SendMessage() returns (sent: bool)
      requires Valid()
      modifies this`outbox, this`draft
      ensures Valid()
      ensures sent <==> old(SendFrames(sender, draft, connected)) != []
      ensures outbox == old(outbox + SendFrames(sender, draft, connected))
      ensures draft == if sent then [] else old(draft)
    {
      var frames := SendFrames(sender, draft, connected);
      if frames == [] {
        return false;
      }
      outbox := outbox + frames;
      draft := [];
      sent := true;
    }
  }

  /** The typing guard does not trim: a name made only of spaces announces
      typing, though joinChat and sendMessage refuse it. */
  lemma TypingGuardDoesNotTrim(sender: string, draft: string)
    requires sender != [] && AllJsSpace(sender)
    ensures TypingFrames(sender, true, false) == [Frame(TypingDestination, Plain(sender))]
    ensures JoinFrames(sender, true) == [] && SendFrames(sender, draft, true) == []
  {
  }

  /** Wherever the intended sendTyping publishes, the code as written throws
      instead and publishes nothing. */
  lemma TypingTypoLosesPublish(sender: string)
    requires sender != []
    ensures TypingFrames(sender, true, false) == [Frame(TypingDestination, Plain(sender))]
    ensures TypingAsWritten(sender, true) == ([], Threw("ReferenceError: stompClientompClientSafe is not defined"))
  {
  }
}
