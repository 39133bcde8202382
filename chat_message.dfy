/**
 * A chat message as both sides exchange it: the sender and content fields of
 * src/main/java/com/chat/app/model/ChatMessage.java, which the client builds
 * at src/App.jsx:246-249 and renders at src/App.jsx:327-330.
 */
module ChatMessage {

  /** No identifier, no timestamp: two equal values are indistinguishable,
      and the client log keeps duplicates as they arrive. */
  datatype Message = Message(sender: string, content: string)
}
