// components/InvestExpertChat.tsx: the chat log that `sendMessage` appends
// to, its loading flag and input box, and the Enter key handler.

module InvestExpertChat {
  import opened Common
  import Strs

  datatype Role = User | Assistant
  datatype Message = Message(role: Role, content: string)

  const ErrorReply: string := "오류가 발생했습니다."

  /** How the `/api/llm` request ended: a JSON body and its `answer`, or a
      request or parse that threw. */
  datatype Reply = Answered(answer: string) | Failed

  /** The assistant message a reply gives. */
  function AssistantMessage(reply: Reply): (m: Message)
    ensures m.role == Assistant
    ensures reply.Answered? ==> m.content == reply.answer
    ensures reply.Failed? ==> m.content == ErrorReply
  {
    match reply
    case Answered(a) => Message(Assistant, a)
    case Failed => Message(Assistant, ErrorReply)
  }

  /** The log is a sequence of exchanges: user and assistant messages
      alternate, starting with a user message, and every question has its
      answer. */
  ghost predicate Exchanges(log: seq<Message>)
  {
    |log| % 2 == 0 && forall i :: 0 <= i < |log| ==> (log[i].role == User <==> i % 2 == 0)
  }

  /** `handleKeyDown`: Enter without Shift sends. */
  predicate SendsOnKey(key: string, shiftKey: bool)
  {
    key == "Enter" && !shiftKey
  }

  class Chat {
    var input: string
    var messages: seq<Message>
    var loading: bool

    ghost predicate Valid()
      reads this
    {
      Exchanges(messages)
    }

    constructor()
      ensures Valid() && input == [] && messages == [] && !loading
    {
      input := [];
      messages := [];
      loading := false;
    }

    /** `sendMessage`. Blank input changes nothing and sends nothing.
        Otherwise the input as typed (not trimmed) is the request and the
        user message, the reply adds exactly one assistant message, and
        afterwards loading is off and the input empty. Earlier messages are
        never touched. */
    method Send(reply: Reply) returns (request: Option<string>)
      requires Valid()
      modifies this
      ensures Valid()
      ensures Strs.IsBlank(old(input)) ==>
        request == None && messages == old(messages) && input == old(input) && loading == old(loading)
      ensures !Strs.IsBlank(old(input)) ==>
        request == Some(old(input))
        && messages == old(messages) + [Message(User, old(input)), AssistantMessage(reply)]
        && !loading && input == []
      ensures old(messages) <= messages
    {
      Strs.TrimEmptyIffBlank(input);
      if Strs.Trim(input) == [] {
        return None;
      }
      var question := input;
      ExchangesAppend(messages, question, AssistantMessage(reply));
      messages := messages + [Message(User, question)];
      loading := true;
      request := Some(question);
      assert messages + [AssistantMessage(reply)] == old(messages) + [Message(User, question), AssistantMessage(reply)];
      messages := messages + [AssistantMessage(reply)];
      loading := false;
      input := [];
    }

    /** `handleKeyDown`: only Enter without Shift sends. */
    method KeyDown(key: string, shiftKey: bool, reply: Reply) returns (request: Option<string>)
      requires Valid()
      modifies this
      ensures Valid()
      ensures !SendsOnKey(key, shiftKey) || Strs.IsBlank(old(input)) ==>
        request == None && messages == old(messages) && input == old(input) && loading == old(loading)
      ensures SendsOnKey(key, shiftKey) && !Strs.IsBlank(old(input)) ==>
        request == Some(old(input))
        && messages == old(messages) + [Message(User, old(input)), AssistantMessage(reply)]
        && !loading && input == []
      ensures old(messages) <= messages
    {
      request := None;
      if SendsOnKey(key, shiftKey) {
        request := Send(reply);
      }
    }
  }

  /** Two more messages, a question and then an answer, keep the log a
      sequence of exchanges. */
  lemma {:induction false} ExchangesAppend(log: seq<Message>, q: string, a: Message)
    requires Exchanges(log) && a.role == Assistant
    ensures Exchanges(log + [Message(User, q), a])
  {
    var r := log + [Message(User, q), a];
    forall i | 0 <= i < |r| ensures r[i].role == User <==> i % 2 == 0 {
      if i < |log| {
        assert r[i] == log[i];
      }
    }
  }
}
