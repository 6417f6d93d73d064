/** The pydantic schemas of python/models/chatbot.py. Every field is declared
    with `Field(...)`, that is required with no default. */
module ChatbotModels {
  import opened Common
  import opened Json

  /** `role` is free text: the frontend sends "user" and "bot". */
  datatype ChatMessage = ChatMessage(role: string, text: string)

  datatype ChatRequest = ChatRequest(conversation: seq<ChatMessage>)

  datatype ChatResponse = ChatResponse(reply: string)

  function ParseChatMessage(o: Object): (r: Result<ChatMessage, seq<FieldError>>)
    ensures r.Ok? <==> "role" in o && o["role"].JStr? && "text" in o && o["text"].JStr?
    ensures r.Ok? ==> r.value == ChatMessage(o["role"].s, o["text"].s)
  {
    var role := RequiredStr(o, "role");
    var text := RequiredStr(o, "text");
    if role.Ok? && text.Ok? then Ok(ChatMessage(role.value, text.value))
    else Err(Errors(role) + Errors(text))
  }

  function ParseChatMessages(items: seq<Json>): (r: Result<seq<ChatMessage>, seq<FieldError>>)
    ensures r.Ok? <==> forall i :: 0 <= i < |items| ==> items[i].JObj? && ParseChatMessage(items[i].fields).Ok?
    ensures r.Ok? ==> |r.value| == |items|
    ensures r.Ok? ==> forall i :: 0 <= i < |items| ==> r.value[i] == ParseChatMessage(items[i].fields).value
  {
    if items == [] then Ok([])
    else
      var head :=
        if items[0].JObj? then
          match ParseChatMessage(items[0].fields)
          case Ok(m) => Ok(m)
          case Err(_) => Err([FieldError("conversation", WrongType)])
        else Err([FieldError("conversation", WrongType)]);
      var tail := ParseChatMessages(items[1..]);
      if head.Ok? && tail.Ok? then Ok([head.value] + tail.value)
      else Err((if head.Err? then head.error else []) + (if tail.Err? then tail.error else []))
  }

  function ParseChatRequest(o: Object): (r: Result<ChatRequest, seq<FieldError>>)
    ensures r.Ok? <==> "conversation" in o && o["conversation"].JArr? && ParseChatMessages(o["conversation"].items).Ok?
    ensures r.Ok? ==> |r.value.conversation| == |o["conversation"].items|
    ensures r.Ok? ==> forall i :: 0 <= i < |r.value.conversation| ==>
      r.value.conversation[i] == ChatMessage(o["conversation"].items[i].fields["role"].s,
                                             o["conversation"].items[i].fields["text"].s)
  {
    match RequiredArray(o, "conversation")
    case Err(e) => Err([e])
    case Ok(items) =>
      match ParseChatMessages(items)
      case Ok(ms) => Ok(ChatRequest(ms))
      case Err(es) => Err(es)
  }

  function ParseChatResponse(o: Object): (r: Result<ChatResponse, seq<FieldError>>)
    ensures r.Ok? <==> "reply" in o && o["reply"].JStr?
    ensures r.Ok? ==> r.value.reply == o["reply"].s
  {
    match RequiredStr(o, "reply")
    case Ok(s) => Ok(ChatResponse(s))
    case Err(e) => Err([e])
  }

  // ---------------------------------------------------------------------
  // Properties of the schemas.

  /** An empty conversation is a valid request. */
  lemma EmptyConversationAccepted()
    ensures ParseChatRequest(map["conversation" := JArr([])]) == Ok(ChatRequest([]))
  {
  }

  /** Any role string is accepted and kept. */
  lemma AnyRoleAccepted(role: string, text: string)
    ensures ParseChatMessage(map["role" := JStr(role), "text" := JStr(text)]) == Ok(ChatMessage(role, text))
  {
  }

  /** No field has a default: the empty object is rejected by every model,
      with one missing-field error per declared field. */
  lemma NoDefaults()
    ensures ParseChatMessage(map[]) == Err([FieldError("role", MissingField), FieldError("text", MissingField)])
    ensures ParseChatRequest(map[]) == Err([FieldError("conversation", MissingField)])
    ensures ParseChatResponse(map[]) == Err([FieldError("reply", MissingField)])
  {
    var empty: Object := map[];
    assert Errors(RequiredStr(empty, "role")) == [FieldError("role", MissingField)];
    assert Errors(RequiredStr(empty, "text")) == [FieldError("text", MissingField)];
    assert ParseChatMessage(empty).error
        == [FieldError("role", MissingField)] + [FieldError("text", MissingField)];
    var missing := [FieldError("role", MissingField), FieldError("text", MissingField)];
    assert [FieldError("role", MissingField)] + [FieldError("text", MissingField)] == missing;
  }

  /** A response has exactly one field: nothing but `reply` is read. */
  lemma ResponseReadsOnlyReply(o: Object, k: string, v: Json)
    requires k != "reply"
    ensures ParseChatResponse(o[k := v]) == ParseChatResponse(o)
  {
  }
}
