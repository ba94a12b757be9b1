/** Provider-safe assistant messages (nexus/llm/content_tool_calls.py). */
module LlmMessages {
  import opened Text
  import opened Sessions

  const EMPTY_ASSISTANT_PLACEHOLDER: string := "(prior step omitted)"
  const REASONING_ONLY_PLACEHOLDER: string := "(no response)"

  predicate HasAssistantSubstance(text: Option<string>, callIds: seq<string>) {
    callIds != [] || (text.Some? && !Blank(text.value))
  }

  /** An assistant message that a provider would reject: neither text nor tool calls. */
  predicate EmptyAssistant(m: Message) {
    m.Assistant? && !HasAssistantSubstance(m.text, m.callIds)
  }

  function SanitizeAssistant(m: Message, placeholder: string): (r: Message)
    requires !Blank(placeholder)
    ensures !EmptyAssistant(r)
    ensures m.Assistant? <==> r.Assistant?
    ensures m.Assistant? ==> r.callIds == m.callIds
    ensures !EmptyAssistant(m) ==> r == m
    ensures EmptyAssistant(m) ==> r.text == Some(placeholder) && r.callIds == []
  {
    if m.Assistant? && !HasAssistantSubstance(m.text, m.callIds) then Assistant(Some(placeholder), []) else m
  }

  function BuildAssistant(content: Option<string>, callIds: seq<string>): (r: Message)
    ensures r.Assistant? && !EmptyAssistant(r) && r.callIds == callIds
    ensures HasAssistantSubstance(content, callIds) ==> r.text == content
    ensures !HasAssistantSubstance(content, callIds) ==> r.text == Some(REASONING_ONLY_PLACEHOLDER)
  {
    assert '(' in REASONING_ONLY_PLACEHOLDER && !IsSpace('(');
    SanitizeAssistant(Assistant(content, callIds), REASONING_ONLY_PLACEHOLDER)
  }
}
