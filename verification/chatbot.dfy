/** The chat assistant (`Chatbot`): the conversation, the input box and the
    loading flag. Sending is asynchronous: the first half appends the user's
    message and issues the request, the second half runs when the reply (or the
    service's fallback text) arrives and appends it. */
module Chatbot {
  import opened Types
  import opened Text

  const Greeting: ChatMessage :=
    ChatMessage(Model, "Hi! I'm SeikoBot. How can I help you find your next favorite movie?")

  datatype ChatState = ChatState(messages: seq<ChatMessage>, input: string, isLoading: bool)

  /** The guard of `handleSend`: something besides whitespace typed and no reply
      outstanding. */
  predicate CanSend(s: ChatState)
    ensures CanSend(s) <==> !AllWhitespace(s.input) && !s.isLoading
  {
    Trim(s.input) != "" && !s.isLoading
  }

  /** The first half of `handleSend`. */
  function Send(s: ChatState): (r: ChatState)
    ensures !CanSend(s) ==> r == s
    ensures CanSend(s) ==>
      (r.messages == s.messages + [ChatMessage(User, s.input)] && r.input == "" && r.isLoading)
  {
    if !CanSend(s) then s
    else ChatState(s.messages + [ChatMessage(User, s.input)], "", true)
  }

  /** The second half of `handleSend`, once the service answers with `reply`. */
  function Reply(s: ChatState, reply: string): (r: ChatState)
    ensures r.messages == s.messages + [ChatMessage(Model, reply)] && !r.isLoading && r.input == s.input
  {
    s.(messages := s.messages + [ChatMessage(Model, reply)], isLoading := false)
  }

  /** A send is refused exactly when the box is blank or a reply is outstanding.
      An accepted send followed by its reply keeps the earlier conversation as a
      prefix and adds exactly the user's message and then the reply; while the
      reply is outstanding a second send changes nothing. */
  lemma {:induction false} SendThenReply(s: ChatState, reply: string)
    ensures Send(s) == s <==> AllWhitespace(s.input) || s.isLoading
    ensures CanSend(s) ==>
      && Send(Send(s)) == Send(s)
      && Reply(Send(s), reply).messages == s.messages + [ChatMessage(User, s.input), ChatMessage(Model, reply)]
      && Reply(Send(s), reply).messages[..|s.messages|] == s.messages
      && Reply(Send(s), reply).input == ""
      && !Reply(Send(s), reply).isLoading
  {
    if CanSend(s) {
      assert Send(s).isLoading;
      var r := Reply(Send(s), reply);
      assert r.messages == s.messages + [ChatMessage(User, s.input)] + [ChatMessage(Model, reply)];
      assert r.messages[..|s.messages|] == s.messages;
    }
  }

  class Chat {
    var isOpen: bool
    var messages: seq<ChatMessage>
    var input: string
    var isLoading: bool

    function Snapshot(): ChatState
      reads this
    {
      ChatState(messages, input, isLoading)
    }

    constructor ()
      ensures !isOpen && Snapshot() == ChatState([Greeting], "", false)
    {
      isOpen := false;
      messages := [Greeting];
      input := "";
      isLoading := false;
    }

    /** The launcher button. */
    method ToggleOpen()
      modifies this
      ensures isOpen == !old(isOpen) && Snapshot() == old(Snapshot())
    {
      isOpen := !isOpen;
    }

    /** The input box's `onChange`. */
    method SetInput(text: string)
      modifies this
      ensures input == text && messages == old(messages) && isLoading == old(isLoading)
      ensures isOpen == old(isOpen)
    {
      input := text;
    }

    /** The first half of `handleSend`; `request` is the text handed to the
      chat service, if any. */
    method HandleSend() returns (request: Option<string>)
      modifies this
      ensures Snapshot() == Send(old(Snapshot())) && isOpen == old(isOpen)
      ensures request == if CanSend(old(Snapshot())) then Some(old(input)) else None
    {
      if Trim(input) == "" || isLoading {
        return None;
      }
      request := Some(input);
      messages := messages + [ChatMessage(User, input)];
      input := "";
      isLoading := true;
    }

    /** The second half of `handleSend`, reached only after the first half
      issued a request. */
    method ReceiveReply(responseText: string)
      requires isLoading
      modifies this
      ensures Snapshot() == Reply(old(Snapshot()), responseText) && isOpen == old(isOpen)
    {
      messages := messages + [ChatMessage(Model, responseText)];
      isLoading := false;
    }
  }
}
