/**
 * The server-side presence registry of
 * src/main/java/com/chat/app/controller/PresenceController.java: the static set
 * of online usernames (line 14) and the three message handlers join, leave and
 * typing, each of which broadcasts through the messaging template.
 *
 * The set is static, so every controller instance shares one; the model holds
 * it in one Registry object. ConcurrentHashMap.newKeySet only adds thread
 * safety, and the handlers are modelled as running one at a time.
 *
 * The registry broadcasts presence on /topic/online, while the client of
 * src/App.jsx listens for its roster on /topic/users: the two sides do not
 * meet, and the model keeps them apart.
 */
module Presence {
  import opened Wrappers
  import opened Text

  const OnlineTopic: string := "/topic/online"
  const TypingRelayTopic: string := "/topic/typing"

  /** What a broadcast carries: a snapshot of the whole set, or one name. */
  datatype Payload = Users(names: set<string>) | Username(name: string)

  /** One convertAndSend call. */
  datatype Broadcast = Broadcast(destination: string, payload: Payload)

  /** join's guard (line 23): the name is neither null (None) nor blank. */
  predicate Admits(username: Option<string>)
  {
    username.Some? && !IsBlank(username.value)
  }

  /** A name is admitted exactly when it holds a code point Java does not
      count as white space. */
  lemma AdmitsIff(username: Option<string>)
    ensures Admits(username) <==>
      username.Some? && exists i :: 0 <= i < |username.value| && !IsJavaWhitespace(username.value[i])
  {
    if username.Some? {
      BlankIff(username.value);
    }
  }

  class Registry {
    /** The static onlineUsers set. */
    var online: set<string>
    /** Every broadcast, in order. */
    var sent: seq<Broadcast>

    constructor ()
      ensures online == {} && sent == []
    {
      online, sent := {}, [];
    }

    /** join (lines 22-27): a null or blank name changes nothing and sends
        nothing; any other name is added (a name already present leaves the
        set as it was) and the whole new set is broadcast once. */
    method Join(username: Option<string>)
      modifies this
      ensures Admits(username) ==> online == old(online) + {username.value}
      ensures Admits(username) ==> sent == old(sent) + [Broadcast(OnlineTopic, Users(online))]
      ensures !Admits(username) ==> online == old(online) && sent == old(sent)
    {
      if username.None? || IsBlank(username.value) {
        return;
      }
      online := online + {username.value};
      sent := sent + [Broadcast(OnlineTopic, Users(online))];
    }

    /** leave (lines 31-34): the name is removed, every other member stays,
        and the set is broadcast even when the name was absent; there is no
        blank check. */
    method Leave(username: string)
      modifies this
      ensures online == old(online) - {username}
      ensures sent == old(sent) + [Broadcast(OnlineTopic, Users(online))]
    {
      online := online - {username};
      sent := sent + [Broadcast(OnlineTopic, Users(online))];
    }

    /** typing (lines 38-40): a pure relay of the name, unchecked, to
        /topic/typing; the set is untouched. */
    method Typing(username: string)
      modifies this
      ensures online == old(online)
      ensures sent == old(sent) + [Broadcast(TypingRelayTopic, Username(username))]
    {
      sent := sent + [Broadcast(TypingRelayTopic, Username(username))];
    }
  }
}
