/** Building the message list for a model call within a token budget (nexus/context/builder.py). */
module ContextWindow {
  import opened Text
  import opened Sessions
  import opened LlmMessages

  const FALLBACK_USER_MESSAGE: string := "Continue."

  /** The parts of rendering that depend on configuration; an empty signature means signatures are switched off. */
  datatype RenderConfig = RenderConfig(
    rcsEnabled: bool,
    tag: nat -> string,
    signature: ToolCallRecord -> string,
    overflowNotice: nat -> string,
    countString: string -> nat)

  /** The usable summary of a call; white space and the legacy "[]" count as none. */
  function SummaryText(tc: ToolCallRecord): string {
    var summary := if tc.summarizedResponse.Some? then Strip(tc.summarizedResponse.value) else "";
    if summary == "[]" then "" else summary
  }

  function Prefix(tc: ToolCallRecord, cfg: RenderConfig): string {
    if cfg.signature(tc) != "" then cfg.tag(tc.tcIndex) + " " + cfg.signature(tc) + "\n" else cfg.tag(tc.tcIndex) + "\n"
  }

  function RenderToolMessage(tc: ToolCallRecord, cfg: RenderConfig, degraded: bool): string {
    if degraded then
      var tokens := if tc.tokensRaw != 0 then tc.tokensRaw else cfg.countString(tc.rawResponse);
      if cfg.rcsEnabled then Prefix(tc, cfg) + cfg.overflowNotice(tokens) else cfg.overflowNotice(tokens)
    else if SummaryText(tc) != "" then
      if cfg.signature(tc) != "" then cfg.signature(tc) + "\n" + SummaryText(tc) else SummaryText(tc)
    else if cfg.rcsEnabled then Prefix(tc, cfg) + tc.rawResponse
    else tc.rawResponse
  }

  /** `list.index`: the first position holding an equal record. */
  function IndexOf(calls: seq<ToolCallRecord>, tc: ToolCallRecord): (k: nat)
    requires tc in calls
    ensures k < |calls| && calls[k] == tc && tc !in calls[..k]
  {
    if calls[0] == tc then 0
    else
      var k := IndexOf(calls[1..], tc);
      assert calls[..k + 1] == [calls[0]] + calls[1..][..k];
      k + 1
  }

  /** The provider id a tool result answers: the last assistant message with an entry at its position decides. */
  function ToolCallId(llmMessages: seq<Message>, position: nat, fallback: string): string {
    if llmMessages == [] then fallback
    else
      var last := llmMessages[|llmMessages| - 1];
      if last.Assistant? && position < |last.callIds| then last.callIds[position]
      else ToolCallId(llmMessages[..|llmMessages| - 1], position, fallback)
  }

  function SanitizedMessages(llmMessages: seq<Message>): (r: seq<Message>)
    ensures |r| == |llmMessages|
  {
    assert '(' in EMPTY_ASSISTANT_PLACEHOLDER && !IsSpace('(');
    seq(|llmMessages|, k requires 0 <= k < |llmMessages| =>
      SanitizeAssistant(llmMessages[k], EMPTY_ASSISTANT_PLACEHOLDER))
  }

  function ToolMessages(turn: TurnRecord, cfg: RenderConfig, degraded: set<string>): (r: seq<Message>)
    ensures |r| == |turn.toolCalls|
    ensures forall j :: 0 <= j < |r| ==> r[j].Tool?
  {
    seq(|turn.toolCalls|, j requires 0 <= j < |turn.toolCalls| =>
      var tc := turn.toolCalls[j];
      Tool(ToolCallId(turn.llmMessages, IndexOf(turn.toolCalls, tc), "call_" + tc.tcId),
           RenderToolMessage(tc, cfg, tc.tcId in degraded)))
  }

  function UserMessages(turn: TurnRecord): seq<Message> {
    if turn.userMessage.Some? && turn.userMessage.value != "" then [User(turn.userMessage.value)] else []
  }

  function TurnToMessages(turn: TurnRecord, cfg: RenderConfig, degraded: set<string>): seq<Message> {
    UserMessages(turn)
    + SanitizedMessages(turn.llmMessages)
    + ToolMessages(turn, cfg, degraded)
  }

  function FlatHistory(window: seq<TurnRecord>, cfg: RenderConfig, degraded: set<string>): seq<Message> {
    if window == [] then []
    else
      FlatHistory(window[..|window| - 1], cfg, degraded) + TurnToMessages(window[|window| - 1], cfg, degraded)
  }

  // ---------- Coalescing ----------

  /** An assistant message with text and no tool calls. */
  predicate Plain(m: Message) {
    m.Assistant? && m.callIds == [] && m.text.Some?
  }

  function JoinTexts(a: string, b: string): string {
    var joined := if Strip(a) != "" && Strip(b) != "" then Strip(a) + "\n\n" + Strip(b) else Strip(a) + Strip(b);
    if joined != "" then joined else a
  }

  function PushCoalesced(out: seq<Message>, m: Message): seq<Message> {
    if out != [] && Plain(out[|out| - 1]) && Plain(m)
    then out[|out| - 1 := Assistant(Some(JoinTexts(out[|out| - 1].text.value, m.text.value)), [])]
    else out + [m]
  }

  function Coalesced(messages: seq<Message>): seq<Message> {
    if messages == [] then []
    else PushCoalesced(Coalesced(messages[..|messages| - 1]), messages[|messages| - 1])
  }

  ghost predicate NoPlainPair(messages: seq<Message>) {
    forall i :: 0 <= i < |messages| - 1 ==> !(Plain(messages[i]) && Plain(messages[i + 1]))
  }

  /** Everything but the plain assistant messages. */
  ghost function Others(messages: seq<Message>): seq<Message> {
    if messages == [] then []
    else Others(messages[..|messages| - 1]) + if Plain(messages[|messages| - 1]) then [] else [messages[|messages| - 1]]
  }

  /** No two adjacent plain assistant messages remain. */
  lemma {:induction false} CoalescedHasNoPair(messages: seq<Message>)
    ensures NoPlainPair(Coalesced(messages))
  {
    if messages != [] {
      CoalescedHasNoPair(messages[..|messages| - 1]);
    }
  }

  lemma {:induction false} CoalesceFixpoint(messages: seq<Message>)
    requires NoPlainPair(messages)
    ensures Coalesced(messages) == messages
  {
    hide *;
    if messages == [] {
      NothingToCoalesce();
    } else {
      var n := |messages| - 1;
      NoPairBefore(messages);
      CoalesceFixpoint(messages[..n]);
      CoalescedLast(messages);
      NoPush(messages[..n], messages[n]);
      assert messages == messages[..n] + [messages[n]];
    }
  }

  lemma NoPairBefore(messages: seq<Message>)
    requires NoPlainPair(messages) && messages != []
    ensures
      var n := |messages| - 1;
      NoPlainPair(messages[..n]) && (n > 0 ==> !(Plain(messages[..n][n - 1]) && Plain(messages[n])))
  {
    hide Plain;
    var n := |messages| - 1;
    forall i | 0 <= i < n - 1
      ensures !(Plain(messages[..n][i]) && Plain(messages[..n][i + 1]))
    {
      assert messages[..n][i + 1] == messages[i + 1];
    }
    assert n > 0 ==> messages[..n][n - 1] == messages[n - 1] && messages[n] == messages[n - 1 + 1];
  }

  lemma NoPush(out: seq<Message>, m: Message)
    requires out != [] ==> !(Plain(out[|out| - 1]) && Plain(m))
    ensures PushCoalesced(out, m) == out + [m]
  {
  }

  /** Coalescing twice is coalescing once. */
  lemma CoalesceIdempotent(messages: seq<Message>)
    ensures Coalesced(Coalesced(messages)) == Coalesced(messages)
  {
    CoalescedHasNoPair(messages);
    CoalesceFixpoint(Coalesced(messages));
  }

  lemma OthersPush(out: seq<Message>, m: Message)
    ensures Others(PushCoalesced(out, m)) == Others(out) + if Plain(m) then [] else [m]
  {
    hide JoinTexts;
    var all := PushCoalesced(out, m);
    var n := |all| - 1;
    if |all| == |out| {
      assert all[..n] == out[..n];
    } else {
      assert all[..n] == out;
    }
  }

  /** Every message that is not plain assistant text survives unchanged and in order. */
  lemma {:induction false} CoalesceKeepsOthers(messages: seq<Message>)
    ensures Others(Coalesced(messages)) == Others(messages)
  {
    if messages != [] {
      var n := |messages| - 1;
      CoalesceKeepsOthers(messages[..n]);
      OthersPush(Coalesced(messages[..n]), messages[n]);
      hide PushCoalesced;
    }
  }

  /** The visible characters of a text. */
  ghost function Ink(s: string): string {
    if s == "" then "" else Ink(s[..|s| - 1]) + if IsSpace(s[|s| - 1]) then "" else [s[|s| - 1]]
  }

  ghost function MessageText(m: Message): string {
    match m
    case System(content) => content
    case User(content) => content
    case Assistant(text, _) => if text.Some? then text.value else ""
    case Tool(_, content) => content
  }

  ghost function InkOf(messages: seq<Message>): string {
    if messages == [] then "" else InkOf(messages[..|messages| - 1]) + Ink(MessageText(messages[|messages| - 1]))
  }

  lemma {:induction false} InkConcat(a: string, b: string)
    ensures Ink(a + b) == Ink(a) + Ink(b)
  {
    if b == "" {
      assert a + b == a;
    } else {
      var n := |b| - 1;
      assert (a + b)[..|a + b| - 1] == a + b[..n];
      InkConcat(a, b[..n]);
    }
  }

  lemma {:induction false} InkBlank(s: string)
    requires Blank(s)
    ensures Ink(s) == ""
  {
    if s != "" {
      InkBlank(s[..|s| - 1]);
    }
  }

  lemma InkStrip(s: string)
    ensures Ink(Strip(s)) == Ink(s)
  {
    var l := StripLeft(s);
    var r := StripRight(l);
    hide Ink, Blank, StripLeft, StripRight;
    assert s == s[..|s| - |l|] + l && l == r + l[|r|..];
    InkConcat(s[..|s| - |l|], l);
    InkBlank(s[..|s| - |l|]);
    InkConcat(r, l[|r|..]);
    InkBlank(l[|r|..]);
  }

  lemma InkJoin(a: string, b: string)
    ensures Ink(JoinTexts(a, b)) == Ink(a) + Ink(b)
  {
    InkStrip(a);
    InkStrip(b);
    InkOfJoin(Strip(a), Strip(b));
    hide Strip, Ink, Blank;
    var joined := if Strip(a) != "" && Strip(b) != "" then Strip(a) + "\n\n" + Strip(b) else Strip(a) + Strip(b);
    assert joined == "" ==> Strip(a) == "" && Strip(b) == "";
  }

  /** Two texts are joined by an empty line; a blank one adds nothing to the other. */
  lemma JoinMeans(a: string, b: string, x: string, y: string)
    requires IsStripped(a, x) && IsStripped(b, y)
    ensures x != "" && y != "" ==>
              && |JoinTexts(a, b)| == |x| + 2 + |y| && x <= JoinTexts(a, b)
              && JoinTexts(a, b)[|x|..] == "\n\n" + y
    ensures x == "" && y != "" ==> JoinTexts(a, b) == y
    ensures y == "" ==> JoinTexts(a, b) == if x != "" then x else a
  {
    StripMeans(a);
    StripMeans(b);
    hide Strip, IsStripped;
  }

  lemma InkOfJoin(x: string, y: string)
    ensures Ink("") == ""
    ensures Ink(if x != "" && y != "" then x + "\n\n" + y else x + y) == Ink(x) + Ink(y)
  {
    var separator := "\n\n";
    InkBlank(separator);
    InkBlank("");
    hide Ink, Blank;
    if x != "" && y != "" {
      InkConcat(x, separator);
      InkConcat(x + separator, y);
      assert Ink(x) + Ink(separator) == Ink(x);
    } else {
      InkConcat(x, y);
    }
  }

  lemma NothingToCoalesce()
    ensures Coalesced([]) == []
  {
  }

  lemma CoalescedLast(messages: seq<Message>)
    requires messages != []
    ensures Coalesced(messages) == PushCoalesced(Coalesced(messages[..|messages| - 1]), messages[|messages| - 1])
  {
  }

  lemma InkPush(out: seq<Message>, m: Message)
    ensures InkOf(PushCoalesced(out, m)) == InkOf(out) + Ink(MessageText(m))
  {
    hide JoinTexts, Ink;
    var all := PushCoalesced(out, m);
    if out != [] && Plain(out[|out| - 1]) && Plain(m) {
      assert all[..|all| - 1] == out[..|out| - 1];
      InkJoin(out[|out| - 1].text.value, m.text.value);
    } else {
      assert all[..|all| - 1] == out;
    }
  }

  /** No visible character is lost, duplicated or moved by merging. */
  lemma {:induction false} CoalesceKeepsInk(messages: seq<Message>)
    ensures InkOf(Coalesced(messages)) == InkOf(messages)
  {
    hide JoinTexts, Ink, Coalesced, MessageText;
    if messages == [] {
      NothingToCoalesce();
    } else {
      var n := |messages| - 1;
      CoalesceKeepsInk(messages[..n]);
      CoalescedLast(messages);
      InkPush(Coalesced(messages[..n]), messages[n]);
    }
  }

  ghost predicate NoEmptyAssistant(messages: seq<Message>) {
    forall i :: 0 <= i < |messages| ==> !EmptyAssistant(messages[i])
  }

  lemma {:induction false} CoalesceKeepsSubstance(messages: seq<Message>)
    requires NoEmptyAssistant(messages)
    ensures NoEmptyAssistant(Coalesced(messages))
  {
    hide JoinTexts, Blank;
    if messages != [] {
      var n := |messages| - 1;
      CoalesceKeepsSubstance(messages[..n]);
      var out := Coalesced(messages[..n]);
      if out != [] && Plain(out[|out| - 1]) && Plain(messages[n]) {
        assert !EmptyAssistant(out[|out| - 1]);
        JoinNotBlank(out[|out| - 1].text.value, messages[n].text.value);
      }
    }
  }

  lemma JoinNotBlank(a: string, b: string)
    requires !Blank(a)
    ensures !Blank(JoinTexts(a, b))
  {
    StripNotBlank(a);
    hide Strip;
    var c :| c in Strip(a) && !IsSpace(c);
    assert Strip(a) <= JoinTexts(a, b);
  }

  // ---------- Tool results answer their calls ----------

  /** The call ids a tool result may answer after `m`: those asked for since the last user or system message. */
  ghost function OpenAfter(open: set<string>, m: Message): set<string> {
    match m
    case System(_) => {}
    case User(_) => {}
    case Assistant(_, callIds) => open + (set id | id in callIds)
    case Tool(_, _) => open
  }

  ghost function OpenAfterAll(open: set<string>, messages: seq<Message>): set<string> {
    if messages == [] then open
    else OpenAfter(OpenAfterAll(open, messages[..|messages| - 1]), messages[|messages| - 1])
  }

  /** Every tool message answers a call that is open where it stands. */
  ghost predicate Answered(open: set<string>, messages: seq<Message>) {
    messages != [] ==>
      var n := |messages| - 1;
      && Answered(open, messages[..n])
      && (messages[n].Tool? ==> messages[n].toolCallId in OpenAfterAll(open, messages[..n]))
  }

  lemma {:induction false} OpenAfterConcat(open: set<string>, a: seq<Message>, b: seq<Message>)
    ensures OpenAfterAll(open, a + b) == OpenAfterAll(OpenAfterAll(open, a), b)
    ensures Answered(open, a + b) <==> Answered(open, a) && Answered(OpenAfterAll(open, a), b)
  {
    if b == [] {
      assert a + b == a;
    } else {
      var n := |b| - 1;
      assert (a + b)[..|a + b| - 1] == a + b[..n];
      OpenAfterConcat(open, a, b[..n]);
    }
  }

  lemma {:induction false} AnsweredMonotone(open: set<string>, wider: set<string>, messages: seq<Message>)
    requires open <= wider && Answered(open, messages)
    ensures Answered(wider, messages) && OpenAfterAll(open, messages) <= OpenAfterAll(wider, messages)
  {
    if messages != [] {
      AnsweredMonotone(open, wider, messages[..|messages| - 1]);
    }
  }

  lemma AnsweredSnoc(open: set<string>, messages: seq<Message>, m: Message)
    ensures OpenAfterAll(open, messages + [m]) == OpenAfter(OpenAfterAll(open, messages), m)
    ensures Answered(open, messages + [m])
            <==> Answered(open, messages) && (m.Tool? ==> m.toolCallId in OpenAfterAll(open, messages))
  {
    assert (messages + [m])[..|messages|] == messages;
  }

  /** Plain assistant messages neither open nor answer calls. */
  lemma {:induction false} AnsweredOthers(open: set<string>, messages: seq<Message>)
    ensures Answered(open, messages) <==> Answered(open, Others(messages))
    ensures OpenAfterAll(open, messages) == OpenAfterAll(open, Others(messages))
  {
    if messages != [] {
      var n := |messages| - 1;
      AnsweredOthers(open, messages[..n]);
      AnsweredSnoc(open, messages[..n], messages[n]);
      AnsweredSnoc(open, Others(messages[..n]), messages[n]);
      assert messages[..n] + [messages[n]] == messages;
      hide Answered, OpenAfterAll;
      if Plain(messages[n]) {
        assert (set id | id in messages[n].callIds) == {};
        assert Others(messages[..n]) + [] == Others(messages[..n]);
      }
    }
  }

  /** What `Answered` means position by position. */
  lemma {:induction false} AnsweredMeans(messages: seq<Message>, i: nat)
    requires Answered({}, messages) && i < |messages| && messages[i].Tool?
    ensures exists j :: 0 <= j < i && messages[j].Assistant? && messages[i].toolCallId in messages[j].callIds
                        && forall k :: j < k < i ==> messages[k].Assistant? || messages[k].Tool?
  {
    var n := |messages| - 1;
    if i < n {
      AnsweredMeans(messages[..n], i);
      var j :| 0 <= j < i && messages[..n][j].Assistant? && messages[i].toolCallId in messages[..n][j].callIds
               && forall k :: j < k < i ==> messages[..n][k].Assistant? || messages[..n][k].Tool?;
      assert forall k :: j < k < i ==> messages[..n][k] == messages[k];
    } else {
      OpenMeans(messages[..n], messages[n].toolCallId);
      var j :| 0 <= j < n && messages[..n][j].Assistant? && messages[n].toolCallId in messages[..n][j].callIds
               && forall k :: j < k < n ==> messages[..n][k].Assistant? || messages[..n][k].Tool?;
      assert forall k :: j < k < i ==> messages[..n][k] == messages[k];
    }
  }

  lemma {:induction false} OpenMeans(messages: seq<Message>, id: string)
    requires id in OpenAfterAll({}, messages)
    ensures exists j :: 0 <= j < |messages| && messages[j].Assistant? && id in messages[j].callIds
                        && forall k :: j < k < |messages| ==> messages[k].Assistant? || messages[k].Tool?
  {
    var n := |messages| - 1;
    if messages[n].Assistant? && id in messages[n].callIds {
    } else {
      OpenMeans(messages[..n], id);
      var j :| 0 <= j < n && messages[..n][j].Assistant? && id in messages[..n][j].callIds
               && forall k :: j < k < n ==> messages[..n][k].Assistant? || messages[..n][k].Tool?;
      assert forall k :: j < k < n ==> messages[..n][k] == messages[k];
    }
  }
}
