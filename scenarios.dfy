/**
 * Clients of the two state machines: sequences of events whose outcome
 * follows from the operations' contracts alone, and one fact relating what
 * the client publishes to what the server admits.
 */
module Scenarios {
  import opened Wrappers
  import opened Text
  import opened ChatMessage
  import opened ChatSession
  import opened Presence

  /** Debounce by restart: "alice" types, "bob" types 1000 ms later; the
      indicator still shows "bob" at the first event's deadline (1500 ms) and
      clears only at 1000 + 1500 ms. */
  method TypingDebounce(s: Session)
    requires s.Valid() && TypingTopic in s.subscriptions
    modifies s
    ensures s.Valid() && s.clock == old(s.clock) + 2500
    ensures s.typingUser == [] && s.typingExpiry == None
    ensures s.log == old(s.log) && s.roster == old(s.roster) && s.connected == old(s.connected)
  {
    var start := s.clock;
    s.OnTypingFrame("alice");
    var fired := s.Tick(1000);
    assert !fired && s.typingUser == "alice";
    s.OnTypingFrame("bob");
    fired := s.Tick(500);
    assert !fired && s.typingUser == "bob" && s.clock == start + 1500;
    fired := s.Tick(999);
    assert !fired && ShowTyping(s.typingUser, "alice") && !ShowTyping(s.typingUser, "bob");
    fired := s.Tick(1);
    assert fired && !ShowTyping(s.typingUser, "alice");
  }

  /** The local user's own typing echo is stored by the dispatcher but not
      shown: the banner test alone filters it out. */
  method OwnEchoStoredNotShown(s: Session)
    requires s.Valid() && TypingTopic in s.subscriptions
    modifies s`typingUser, s`typingExpiry
    ensures s.Valid()
    ensures s.typingUser == s.sender && !ShowTyping(s.typingUser, s.sender)
  {
    s.OnTypingFrame(s.sender);
  }

  /** Actions interleaved with a typing event: sending, joining and editing
      neither keep the indicator alive nor cancel its expiry, so one quiet
      period after the typing frame the indicator is clear. */
  method TypingClearsAfterActions(s: Session, typer: string)
    requires s.Valid()
    modifies s
    ensures s.Valid() && s.typingUser == [] && s.typingExpiry == None
  {
    s.OnConnect();
    s.OnTypingFrame(typer);
    var sent := s.SendMessage();
    s.JoinChat();
    s.EditDraft("again", false);
    var fired := s.Tick(TypingQuietPeriod);
  }

  /** Connect, a roster, a message, a lost link: the roster is the payload,
      the log holds the one message, and the disconnect keeps both. */
  method ConnectScenario(s: Session, usersBody: string, messageBody: string)
    requires s.Valid() && s.log == []
    requires s.decodeUsers(usersBody) == Some(["alice", "bob"])
    requires s.decodeMessage(messageBody) == Some(Message("alice", "hi"))
    modifies s
    ensures !s.connected && s.subscriptions == {}
    ensures s.roster == ["alice", "bob"] && s.log == [Message("alice", "hi")]
  {
    s.OnConnect();
    var ok := s.OnUsersFrame(usersBody);
    ok := s.OnMessagesFrame(messageBody);
    s.OnDisconnect();
  }

  /** Messages decoded one after another are logged in arrival order, and a
      malformed one in between leaves no trace. */
  method ArrivalOrder(s: Session, first: string, bad: string, second: string)
    requires s.Valid() && MessagesTopic in s.subscriptions
    requires s.decodeMessage(first).Some? && s.decodeMessage(second).Some?
    requires s.decodeMessage(bad).None?
    modifies s
    ensures s.log == old(s.log) + [s.decodeMessage(first).value, s.decodeMessage(second).value]
  {
    var ok := s.OnMessagesFrame(first);
    ok := s.OnMessagesFrame(bad);
    assert !ok;
    ok := s.OnMessagesFrame(second);
  }

  /** A sent message clears the draft, so pressing Enter again publishes nothing. */
  method SendTwice(s: Session)
    requires s.Valid()
    modifies s
    ensures |s.outbox| <= |old(s.outbox)| + 1
    ensures s.draft == [] || s.outbox == old(s.outbox)
  {
    var sent := s.SendMessage();
    var again := s.SendMessage();
    assert !again;
  }

  /** join then leave of a name that was not online restores the set, after
      two broadcasts. */
  method JoinThenLeave(r: Registry, name: string)
    requires !IsBlank(name) && name !in r.online
    modifies r
    ensures r.online == old(r.online)
    ensures |r.sent| == |old(r.sent)| + 2
  {
    r.Join(Some(name));
    r.Leave(name);
  }

  /** join is idempotent on the set, yet broadcasts every time. */
  method JoinTwice(r: Registry, name: string)
    requires !IsBlank(name)
    modifies r
    ensures r.online == old(r.online) + {name}
    ensures r.sent == old(r.sent) + [Broadcast(OnlineTopic, Users(r.online)), Broadcast(OnlineTopic, Users(r.online))]
  {
    r.Join(Some(name));
    r.Join(Some(name));
  }

  /** Every name the client's joinChat publishes has no JavaScript space at
      either end, yet the server may still find it blank: only when it begins
      with one of the separators U+001C..U+001F, which Java counts as white
      space and String.prototype.trim keeps. */
  lemma JoinBodyBlankOnServer(sender: string)
    requires JoinFrames(sender, true) != []
    ensures var name := Wire(JoinFrames(sender, true)[0].body);
      !Admits(Some(name)) ==> 0x1C <= name[0] as int <= 0x1F
  {
    var name := Wire(JoinFrames(sender, true)[0].body);
    BlankIff(name);
  }

  /** Such a name exists: a lone U+001C is published by joinChat and refused by join. */
  lemma SeparatorNameIsRefused()
    ensures JoinFrames([0x1C as char], true) == [Frame(JoinDestination, Plain([0x1C as char]))]
    ensures !Admits(Some([0x1C as char]))
  {
    var s := [0x1C as char];
    assert !AllJsSpace(s) by { assert !IsJsSpace(s[0]); }
    assert TrimStart(s) == s;
    assert TrimEnd(s) == s;
  }
}
