/** The assistant chat of frontend/src/components/ChatbotWidget.jsx: an
    append-only conversation, one request at a time, and the short history
    window sent with each question. */
module ChatbotWidget {
  import opened Common
  import opened Seqs
  import opened ClientData

  const Greeting: string := "Hello Administrator. I am the SUVIDHA Engine, monitoring the district telemetry in real-time. How can I assist you with the drought assessment today?"
  const ChatError: string := "\U{26A0}\U{FE0F} **System Error**: Lost connection to the AI Insight Engine. Please check if the Deepseek model is running."
  const HistoryWindow: nat := 5

  datatype Role = User | Assistant

  /** A chat message; an assistant reply may lack its text (`response.data.response` undefined). */
  datatype Message = Message(role: Role, content: Option<string>)

  /** `messages.slice(-5).concat(userMessage)`: the last five messages, at most,
      followed by the new question. */
  function History(messages: seq<Message>, user: Message): (r: seq<Message>)
    ensures |r| == MinInt(|messages|, HistoryWindow) + 1
    ensures r[|r| - 1] == user
    ensures r[..|r| - 1] == messages[|messages| - MinInt(|messages|, HistoryWindow)..]
  {
    Slice(messages, -(HistoryWindow as int), |messages|) + [user]
  }

  class Widget {
    var messages: seq<Message>
    var input: string
    var isLoading: bool
    var isOpen: bool

    /** The conversation always begins with the greeting. */
    predicate Valid()
      reads this
    {
      |messages| > 0 && messages[0] == Message(Assistant, Some(Greeting))
    }

    constructor ()
      ensures Valid()
      ensures messages == [Message(Assistant, Some(Greeting))] && input == "" && !isLoading && !isOpen
    {
      messages := [Message(Assistant, Some(Greeting))];
      input := "";
      isLoading := false;
      isOpen := false;
    }

    method SetInput(text: string)
      modifies this
      requires Valid()
      ensures Valid() && input == text
      ensures messages == old(messages) && isLoading == old(isLoading) && isOpen == old(isOpen)
    {
      input := text;
    }

    method SetOpen(open: bool)
      modifies this
      requires Valid()
      ensures Valid() && isOpen == open
      ensures messages == old(messages) && isLoading == old(isLoading) && input == old(input)
    {
      isOpen := open;
    }

    /** `handleSend` up to its await. Nothing happens for blank input or while a
        reply is pending; otherwise the trimmed question is appended, the input
        cleared, and the history window returned as the request body. */
    method Send() returns (history: Option<seq<Message>>)
      modifies this
      requires Valid()
      ensures Valid() && isOpen == old(isOpen)
      ensures history.None? <==> Trim(old(input), true) == "" || old(isLoading)
      ensures history.None? ==> messages == old(messages) && input == old(input) && isLoading == old(isLoading)
      ensures history.Some? ==>
        var user := Message(User, Some(Trim(old(input), true)));
        messages == old(messages) + [user] && input == "" && isLoading
        && history.value == History(old(messages), user)
    {
      var text := Trim(input, true);
      if text == "" || isLoading {
        history := None;
      } else {
        var user := Message(User, Some(text));
        history := Some(History(messages, user));
        messages := messages + [user];
        input := "";
        isLoading := true;
      }
    }

    /** The reply settles: exactly one assistant message is appended, the reply
        text or the fixed error, and loading stops. */
    method Complete(outcome: Response<Option<string>>)
      modifies this
      requires Valid() && isLoading
      ensures Valid() && !isLoading && input == old(input) && isOpen == old(isOpen)
      ensures outcome.Success? ==> messages == old(messages) + [Message(Assistant, outcome.data)]
      ensures outcome.Failure? ==> messages == old(messages) + [Message(Assistant, Some(ChatError))]
    {
      if outcome.Success? {
        messages := messages + [Message(Assistant, outcome.data)];
      } else {
        messages := messages + [Message(Assistant, Some(ChatError))];
      }
      isLoading := false;
    }
  }
}
