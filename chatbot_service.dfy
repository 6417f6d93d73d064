/** The prompt construction of `generate_chat_response` in
    python/services/chatbot_service.py: one `role: text` line per message,
    joined by newlines, between a fixed header and footer. The structured
    OpenAI call is a function parameter. */
module ChatbotService {
  import opened Common
  import opened ChatbotModels

  const Header: string := "You are a helpful travel planning assistant chatbot.\nConversation history:\n"
  const Footer: string := "\n\nRespond with a single concise message."

  /** `f"{msg.role}: {msg.text}"`: the role is copied as given, unchecked. */
  function MessageLine(m: ChatMessage): string
  {
    m.role + ": " + m.text
  }

  function HistoryLines(conversation: seq<ChatMessage>): (lines: seq<string>)
    ensures |lines| == |conversation|
    ensures forall i :: 0 <= i < |conversation| ==> lines[i] == MessageLine(conversation[i])
  {
    seq(|conversation|, i requires 0 <= i < |conversation| => MessageLine(conversation[i]))
  }

  /** The lines joined by newlines. Splitting the history on "\n" gives
      back each message's line, oldest first, provided no role or text
      contains a newline. */
  function History(conversation: seq<ChatMessage>): (h: string)
    ensures conversation == [] ==> h == ""
    ensures conversation != [] && NoNewlines(conversation) ==>
      |Split(h, '\n')| == |conversation|
      && forall i :: 0 <= i < |conversation| ==>
           Split(h, '\n')[i] == conversation[i].role + ": " + conversation[i].text
  {
    var lines := HistoryLines(conversation);
    if conversation != [] && NoNewlines(conversation) then
      assert forall i :: 0 <= i < |lines| ==> '\n' !in lines[i];
      SplitJoin(lines, '\n');
      Join("\n", lines)
    else Join("\n", lines)
  }

  predicate NoNewlines(conversation: seq<ChatMessage>)
  {
    forall i :: 0 <= i < |conversation| ==> '\n' !in conversation[i].role && '\n' !in conversation[i].text
  }

  /** The prompt is the fixed header, then the history, then the fixed
      footer. */
  function ChatPrompt(conversation: seq<ChatMessage>): (p: string)
    ensures p == Header + History(conversation) + Footer
  {
    var h := History(conversation);
    assert [Header, Footer][1..] == [Footer] && [h][1..] == [];
    assert Interleave([Footer], []) == Footer;
    assert Interleave([Header, Footer], [h]) == Header + (h + Footer);
    Interleave([Header, Footer], [h])
  }

  /** The reply is whatever the structured call returns for the prompt; the
      conversation is only read. */
  function GenerateChatResponse(request: ChatRequest, structuredOutput: string -> ChatResponse): (r: ChatResponse)
    ensures r == structuredOutput(ChatPrompt(request.conversation))
  {
    structuredOutput(ChatPrompt(request.conversation))
  }
}
