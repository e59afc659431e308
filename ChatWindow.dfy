/** The send state machine of src/components/ChatWindow.tsx. `handleSend`
    awaits generateResponse; the model splits it at that `await` into
    BeginSend (the guard, the optimistic user message, clearing the input,
    raising the typing flag) and CompleteSend (lowering the flag and
    appending the AI message), and HandleSend runs the two around the
    response generator. One send is in flight at a time. */
module ChatWindow {
  import opened Wrappers
  import opened Strings
  import opened Catalog
  import Ai

  datatype Sender = FromUser | FromAi

  /** A chat message. Its id and timestamp are wall-clock values and are left out. */
  datatype Message = Message(content: string, sender: Sender)

  /** The reply shown when the awaited call rejects. */
  const FallbackApology := "I apologize, but I am unable to respond at the moment. Please try again later."

  /** The call handleSend makes: `generateResponse(personality.id, message)`. */
  datatype Request = Request(personalityId: string, text: string)

  /** How the awaited promise settles. */
  datatype Settled = Resolved(reply: string) | Rejected

  /** The component's state: `message` (the input box), `messages` and `isTyping`. */
  class ChatView {
    var message: string
    var messages: seq<Message>
    var isTyping: bool

    constructor ()
      ensures message == "" && messages == [] && !isTyping
    {
      message := "";
      messages := [];
      isTyping := false;
    }

    /** The input's onChange: `setMessage(e.target.value)`. */
    method SetInput(text: string)
      modifies this
      ensures message == text && messages == old(messages) && isTyping == old(isTyping)
    {
      message := text;
    }

    /** handleSend up to the `await`. A blank input or no personality leaves
        everything as it was and makes no request; otherwise the untrimmed
        input becomes a user message at the end, the input is cleared, the
        typing flag is raised, and the request carries the text as it was
        before clearing. */
    method BeginSend(personality: Option<Personality>) returns (request: Option<Request>)
      modifies this
      ensures request.None? <==> Trim(old(message)) == [] || personality.None?
      ensures request.None? ==>
        message == old(message) && messages == old(messages) && isTyping == old(isTyping)
      ensures request.Some? ==>
        && request.value == Request(personality.value.id, old(message))
        && messages == old(messages) + [Message(old(message), FromUser)]
        && message == ""
        && isTyping
    {
      if Trim(message) == [] || personality.None? {
        return None;
      }
      var text := message;
      messages := messages + [Message(text, FromUser)];
      message := "";
      isTyping := true;
      request := Some(Request(personality.value.id, text));
    }

    /** handleSend after the `await`: the flag is lowered and exactly one AI
        message is appended, the reply or the fixed apology. */
    method CompleteSend(settled: Settled)
      modifies this
      ensures !isTyping
      ensures messages == old(messages) +
        [Message(if settled.Resolved? then settled.reply else FallbackApology, FromAi)]
      ensures message == old(message)
    {
      isTyping := false;
      var text := if settled.Resolved? then settled.reply else FallbackApology;
      messages := messages + [Message(text, FromAi)];
    }
  }

  /** handleSend with generateResponse in between. `hasKey` and `outcome` are
      what the response generator needs (the configured key and the SDK's
      behaviour). Nothing happens for a blank input or no personality;
      otherwise the list grows by the user's message then the reply, and the
      generator is called with the personality's id and the original text. */
  method HandleSend(view: ChatView, store: Ai.SessionStore, personality: Option<Personality>,
                    hasKey: bool, outcome: Ai.SendOutcome)
    requires store.Valid()
    modifies view, store
    ensures store.Valid()
    ensures Trim(old(view.message)) == [] || personality.None? ==>
      && view.message == old(view.message) && view.messages == old(view.messages)
      && view.isTyping == old(view.isTyping)
    ensures Trim(old(view.message)) != [] && personality.Some? ==>
      && view.messages == old(view.messages) + [
           Message(old(view.message), FromUser),
           Message(Ai.Reply(hasKey, personality.value.id, outcome), FromAi)]
      && view.message == ""
      && !view.isTyping
    // the store is touched only when a send gets past both guards
    ensures Trim(old(view.message)) == [] || personality.None? || !hasKey
            || personality.value.id !in Ai.Configs ==>
      store.chats == old(store.chats) && store.sent == old(store.sent)
    ensures Trim(old(view.message)) != [] && personality.Some? && hasKey
            && personality.value.id in Ai.Configs ==>
      && personality.value.id in store.chats
      && store.chats == old(store.chats)[personality.value.id := store.chats[personality.value.id]]
      && (personality.value.id in old(store.chats) ==> store.chats == old(store.chats))
      && (personality.value.id !in old(store.chats) ==> fresh(store.chats[personality.value.id]))
      && store.sent == old(store.sent)
           + [Ai.SentMessage(store.chats[personality.value.id], old(view.message))]
  {
    ghost var text := view.message;
    var request := view.BeginSend(personality);
    if request.Some? {
      assert request.value == Request(personality.value.id, text);
      var reply := store.GenerateResponse(hasKey, request.value.personalityId, request.value.text, outcome);
      view.CompleteSend(Resolved(reply));
    }
  }
}
