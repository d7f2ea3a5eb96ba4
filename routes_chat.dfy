/** The chat endpoint of backend/app/api/routes_chat.py: a telemetry snapshot
    of the village status list is spliced into a fixed persona prompt, the
    conversation is flattened into one text prompt, and the model's answer is
    returned stripped. Every failure, including the model's own "Error:" text,
    reaches the client as one generic 500. The model call is a function input,
    and `fmt` stands for Python's rendering of a number in an f-string. */
module RoutesChat {
  import opened Common
  import opened ServerData
  import opened WeatherService
  import opened RoutesVillages
  import opened Sorting
  import opened Seqs

  /** The persona prompt around its `{live_context}` slot. */
  const PromptHead: string :=
    "You are the 'SUVIDHA Engine', an elite AI Assistant embedded in the Integrated Drought Warning & Smart Tanker Management System.\n"
    + "You speak clearly, professionally, and concisely to district administrators.\n"
    + "You have access to live telemetry about water stress (WSI), rainfall, groundwater drops, and critical alerts.\n\n"
    + "Here is the LIVE DATA SNAPSHOT of the district right now:\n"
  const PromptTail: string :=
    "\n\nWhen answering questions:\n"
    + "- Use the live data directly to support your answers.\n"
    + "- If asked about critical villages, look for WSI > 70.\n"
    + "- If asked about safe villages, look for WSI < 40.\n"
    + "- Keep your answers highly relevant, formatting with markdown (bullet points, bolding) for readability.\n"
    + "- DO NOT invent data. If the dashboard data is empty or missing, state that you don't have telemetry for it.\n"

  const NoTelemetry: string := "No village telemetry is currently available."
  const ChatFailure: string := "Internal Server Error during chat generation."
  const LinePrefix: string := "- Village: "

  /** A message of the request body. */
  datatype ChatMessage = ChatMessage(role: string, content: string)

  /** The snapshot line for one village. */
  function ContextLine(r: StatusRow, fmt: real -> string): (line: string)
    ensures |line| > |LinePrefix| && line[..|LinePrefix|] == LinePrefix && line[|line| - 1] == '\n'
  {
    LinePrefix + r.village.name + " (ID: " + r.village.id + ") | "
    + "WSI: " + fmt(r.wsi) + " (Priority: " + fmt(r.priorityScore) + ") | "
    + "Rainfall Dev: " + fmt(r.rainfallDevPct) + "% | "
    + "Live Weather: " + fmt(r.liveWeather.rainfallMmLastHour) + "mm rain, " + fmt(r.liveWeather.temperatureCelsius) + "\U{00B0}C | "
    + "GW Drop: " + fmt(r.village.gwCurrentLevel) + "m\n"
  }

  /** The snapshot lines one after another, in the order of the status list;
      a non-empty snapshot opens with the first village's line. */
  function Lines(rows: seq<StatusRow>, fmt: real -> string): (r: string)
    ensures rows == [] <==> r == ""
    ensures rows != [] ==> |r| >= |LinePrefix| && r[..|LinePrefix|] == LinePrefix
  {
    if rows == [] then ""
    else
      var init := Lines(rows[..|rows| - 1], fmt);
      var line := ContextLine(rows[|rows| - 1], fmt);
      assert (init + line)[..|LinePrefix|] == (if init == "" then line else init)[..|LinePrefix|];
      init + line
  }

  /** The snapshot, falling back to a notice when there are no villages. */
  function Context(rows: seq<StatusRow>, fmt: real -> string): (r: string)
    ensures r == NoTelemetry <==> rows == []
    ensures rows != [] ==> r == Lines(rows, fmt)
  {
    var lines := Lines(rows, fmt);
    if lines == "" then NoTelemetry
    else
      assert lines[0] == LinePrefix[0];
      assert NoTelemetry[0] != LinePrefix[0];
      lines
  }

  lemma LinesStep(rows: seq<StatusRow>, i: nat, fmt: real -> string)
    requires i < |rows|
    ensures Lines(rows[..i + 1], fmt) == Lines(rows[..i], fmt) + ContextLine(rows[i], fmt)
  {
    assert rows[..i + 1][..i] == rows[..i];
  }

  /** The loop that accumulates the snapshot. */
  method BuildContext(rows: seq<StatusRow>, fmt: real -> string) returns (context: string)
    ensures context == Context(rows, fmt)
  {
    context := "";
    var i := 0;
    while i < |rows|
      invariant 0 <= i <= |rows|
      invariant context == Lines(rows[..i], fmt)
    {
      LinesStep(rows, i, fmt);
      context := context + ContextLine(rows[i], fmt);
      i := i + 1;
    }
    assert rows[..i] == rows;
    if context == "" {
      context := NoTelemetry;
    }
  }

  /** `SYSTEM_PROMPT.format(live_context=...)`. */
  function SystemPrompt(context: string): (r: string)
    ensures |r| == |PromptHead| + |context| + |PromptTail|
    ensures r[..|PromptHead|] == PromptHead && r[|PromptHead|..|PromptHead| + |context|] == context
    ensures r[|PromptHead| + |context|..] == PromptTail
  {
    var r := PromptHead + context + PromptTail;
    assert (PromptHead + context)[..|PromptHead|] == PromptHead;
    r
  }

  /** Who a message is attributed to: only the role "user" is the administrator. */
  function Speaker(role: string): (r: string)
    ensures r == "Admin" <==> role == "user"
    ensures r != "Admin" ==> r == "SUVIDHA AI"
  {
    if role == "user" then "Admin" else "SUVIDHA AI"
  }

  /** The line of one message. */
  function MessageLine(m: ChatMessage): string {
    Speaker(m.role) + ": " + m.content + "\n"
  }

  /** The history, one line per message in the order given; each line ends
      with a newline, so the text is empty only for an empty history. */
  function Transcript(messages: seq<ChatMessage>): (r: string)
    ensures r == "" <==> messages == []
    ensures messages != [] ==> r[|r| - 1] == '\n'
  {
    if messages == [] then ""
    else Transcript(messages[..|messages| - 1]) + MessageLine(messages[|messages| - 1])
  }

  /** The history is rendered one line per message, in the order given. */
  lemma TranscriptAppend(messages: seq<ChatMessage>, m: ChatMessage)
    ensures Transcript(messages + [m]) == Transcript(messages) + MessageLine(m)
  {
    assert (messages + [m])[..|messages + [m]| - 1] == messages;
  }

  /** The system turn that opens the conversation. */
  function ConversationHead(systemPrompt: string): string {
    "System: " + systemPrompt + "\n\n"
  }

  /** The loop that flattens the conversation into one prompt for the model. */
  method BuildConversation(systemPrompt: string, messages: seq<ChatMessage>) returns (conversation: string)
    ensures conversation == ConversationHead(systemPrompt) + Transcript(messages) + "SUVIDHA AI:"
  {
    var head := ConversationHead(systemPrompt);
    conversation := head;
    var i := 0;
    while i < |messages|
      invariant 0 <= i <= |messages|
      invariant conversation == head + Transcript(messages[..i])
    {
      var role := Speaker(messages[i].role);
      var line := role + ": " + messages[i].content + "\n";
      TranscriptStep(messages, i);
      AppendAssoc(head, Transcript(messages[..i]), line);
      conversation := conversation + line;
      i := i + 1;
    }
    assert messages[..i] == messages;
    conversation := conversation + "SUVIDHA AI:";
  }

  lemma TranscriptStep(messages: seq<ChatMessage>, i: nat)
    requires i < |messages|
    ensures Transcript(messages[..i + 1]) == Transcript(messages[..i]) + MessageLine(messages[i])
  {
    assert messages[..i + 1][..i] == messages[..i];
  }

  /** What the client receives for the model's outcome. */
  function Answer(outcome: Result<string>): (r: Reply<string>)
    ensures r.Fail? <==> outcome.Err? || "Error:" <= outcome.value
    ensures r.Fail? ==> r == Fail(500, ChatFailure)
    ensures r.Body? ==> r.value == Trim(outcome.value, false)
  {
    if outcome.Err? || "Error:" <= outcome.value then Fail(500, ChatFailure)
    else Body(Trim(outcome.value, false))
  }

  /** `chat_with_assistant`: the status list is rebuilt from the rows and the
      weather readings, and `model` answers the flattened conversation. */
  method ChatWithAssistant(villages: seq<Joined>, weather: seq<Weather>, messages: seq<ChatMessage>,
                           fmt: real -> string, model: string -> Result<string>) returns (r: Reply<string>)
    requires |weather| == |villages|
    ensures var rows := SortBy(ScoredAll(villages, weather), PriorityOf, false);
      r == Answer(model(ConversationHead(SystemPrompt(Context(rows, fmt))) + Transcript(messages) + "SUVIDHA AI:"))
    ensures r.Fail? ==> r.status == 500
  {
    var rows := GetVillagesStatus(villages, weather);
    var context := BuildContext(rows, fmt);
    var conversation := BuildConversation(SystemPrompt(context), messages);
    r := Answer(model(conversation));
  }
}
