/** What the messages built for a turn say (nexus/context/builder.py), told apart from how they are put together. */
module ContextMeanings {
  import opened Text
  import opened Sessions
  import opened LlmMessages
  import opened ContextWindow

  // ---------- One tool message ----------

  /** A summary that stands in for the result: some text, and not the mark older versions left. */
  ghost predicate HasSummary(tc: ToolCallRecord) {
    && tc.summarizedResponse.Some?
    && !Blank(tc.summarizedResponse.value)
    && !IsStripped(tc.summarizedResponse.value, "[]")
  }

  lemma SummaryTextMeans(tc: ToolCallRecord)
    ensures SummaryText(tc) != "" <==> HasSummary(tc)
    ensures HasSummary(tc) ==> forall s :: IsStripped(tc.summarizedResponse.value, s) <==> s == SummaryText(tc)
  {
    hide Strip, Blank, IsStripped;
    if tc.summarizedResponse.Some? {
      StripMeans(tc.summarizedResponse.value);
      StripEmptyIffBlank(tc.summarizedResponse.value);
    }
  }

  /** What a call contributes: the notice when degraded, else its summary if it has one, else its result. */
  ghost predicate IsBody(body: string, tc: ToolCallRecord, cfg: RenderConfig, degraded: bool) {
    && (degraded && tc.tokensRaw != 0 ==> body == cfg.overflowNotice(tc.tokensRaw))
    && (degraded && tc.tokensRaw == 0 ==> body == cfg.overflowNotice(cfg.countString(tc.rawResponse)))
    && (!degraded && HasSummary(tc) ==> IsStripped(tc.summarizedResponse.value, body))
    && (!degraded && !HasSummary(tc) ==> body == tc.rawResponse)
  }

  /** The tag makes a call eligible for a summary: it is there with RCS on, unless a summary is shown. */
  ghost predicate Tagged(tc: ToolCallRecord, cfg: RenderConfig, degraded: bool) {
    cfg.rcsEnabled && (degraded || !HasSummary(tc))
  }

  /** The signature, if there is one, goes with the tag and with the summary. */
  ghost predicate Signed(tc: ToolCallRecord, cfg: RenderConfig, degraded: bool) {
    cfg.signature(tc) != "" && (Tagged(tc, cfg, degraded) || (!degraded && HasSummary(tc)))
  }

  /** One line holding the tag and the signature, or nothing. */
  ghost predicate IsHead(head: string, tc: ToolCallRecord, cfg: RenderConfig, degraded: bool) {
    var tagged, signed := Tagged(tc, cfg, degraded), Signed(tc, cfg, degraded);
    && (!tagged && !signed ==> head == "")
    && (tagged && !signed ==> head == cfg.tag(tc.tcIndex) + "\n")
    && (!tagged && signed ==> head == cfg.signature(tc) + "\n")
    && (tagged && signed ==> head == cfg.tag(tc.tcIndex) + " " + cfg.signature(tc) + "\n")
  }

  ghost predicate Shows(content: string, tc: ToolCallRecord, cfg: RenderConfig, degraded: bool) {
    exists head, body :: content == head + body && IsHead(head, tc, cfg, degraded) && IsBody(body, tc, cfg, degraded)
  }

  /** The rendered text is the only one that shows the call. */
  lemma RenderMeans(tc: ToolCallRecord, cfg: RenderConfig, degraded: bool)
    ensures forall content :: Shows(content, tc, cfg, degraded) <==> content == RenderToolMessage(tc, cfg, degraded)
  {
    SummaryTextMeans(tc);
    hide SummaryText, HasSummary, IsStripped;
    var rendered := RenderToolMessage(tc, cfg, degraded);
    var body :=
      if degraded then cfg.overflowNotice(if tc.tokensRaw != 0 then tc.tokensRaw else cfg.countString(tc.rawResponse))
      else if HasSummary(tc) then SummaryText(tc)
      else tc.rawResponse;
    var head :=
      if Tagged(tc, cfg, degraded) then Prefix(tc, cfg)
      else if Signed(tc, cfg, degraded) then cfg.signature(tc) + "\n"
      else "";
    assert IsHead(head, tc, cfg, degraded) && IsBody(body, tc, cfg, degraded) && rendered == head + body;
    forall content | Shows(content, tc, cfg, degraded)
      ensures content == rendered
    {
      var h, b :| content == h + b && IsHead(h, tc, cfg, degraded) && IsBody(b, tc, cfg, degraded);
      assert h == head && b == body;
    }
  }

  ghost predicate EndsIn(text: string, part: string) {
    |part| <= |text| && text[|text| - |part|..] == part
  }

  /** A summarized call is shown without its result and without its number, and ends in its summary. */
  lemma SummaryReplacesResult(tc: ToolCallRecord, other: ToolCallRecord, cfg: RenderConfig)
    requires HasSummary(tc) && other.summarizedResponse == tc.summarizedResponse
    requires cfg.signature(other) == cfg.signature(tc)
    ensures RenderToolMessage(other, cfg, false) == RenderToolMessage(tc, cfg, false)
    ensures exists s :: IsStripped(tc.summarizedResponse.value, s) && EndsIn(RenderToolMessage(tc, cfg, false), s)
  {
    RenderMeans(tc, cfg, false);
    SummaryTextMeans(tc);
    hide IsStripped;
    var s := SummaryText(tc);
    assert EndsIn(RenderToolMessage(tc, cfg, false), s);
  }

  /** A call without a summary is shown with its whole result, and with its tag when RCS is on. */
  lemma ResultIsShown(tc: ToolCallRecord, cfg: RenderConfig)
    requires !HasSummary(tc)
    ensures EndsIn(RenderToolMessage(tc, cfg, false), tc.rawResponse)
    ensures cfg.rcsEnabled ==> cfg.tag(tc.tcIndex) <= RenderToolMessage(tc, cfg, false)
    ensures !cfg.rcsEnabled ==> RenderToolMessage(tc, cfg, false) == tc.rawResponse
  {
    SummaryTextMeans(tc);
  }

  /** A degraded call ends in the notice; its result matters only through the number of its tokens. */
  lemma NoticeReplacesResult(tc: ToolCallRecord, raw: string, cfg: RenderConfig)
    requires tc.tokensRaw != 0 || cfg.countString(raw) == cfg.countString(tc.rawResponse)
    requires cfg.signature(tc.(rawResponse := raw)) == cfg.signature(tc)
    ensures RenderToolMessage(tc.(rawResponse := raw), cfg, true) == RenderToolMessage(tc, cfg, true)
    ensures exists n :: EndsIn(RenderToolMessage(tc, cfg, true), cfg.overflowNotice(n))
                        && n == if tc.tokensRaw != 0 then tc.tokensRaw else cfg.countString(tc.rawResponse)
  {
    var n := if tc.tokensRaw != 0 then tc.tokensRaw else cfg.countString(tc.rawResponse);
    assert EndsIn(RenderToolMessage(tc, cfg, true), cfg.overflowNotice(n));
  }

  // ---------- The messages of a turn ----------

  predicate AsksAt(m: Message, position: nat) {
    m.Assistant? && position < |m.callIds|
  }

  ghost predicate LastAsking(llmMessages: seq<Message>, position: nat, k: int) {
    && 0 <= k < |llmMessages| && AsksAt(llmMessages[k], position)
    && forall l :: k < l < |llmMessages| ==> !AsksAt(llmMessages[l], position)
  }

  ghost predicate NoneAsking(llmMessages: seq<Message>, position: nat) {
    forall k :: 0 <= k < |llmMessages| ==> !AsksAt(llmMessages[k], position)
  }

  /** A result answers the call at its position in the last message that asks for so many; else it has an id of its own. */
  ghost predicate IsCallId(id: string, llmMessages: seq<Message>, position: nat, own: string) {
    && (forall k :: LastAsking(llmMessages, position, k) ==> id == llmMessages[k].callIds[position])
    && (NoneAsking(llmMessages, position) ==> id == own)
  }

  lemma AskedLast(llmMessages: seq<Message>, position: nat, k: nat, own: string)
    requires LastAsking(llmMessages, position, k)
    ensures forall id :: IsCallId(id, llmMessages, position, own) <==> id == llmMessages[k].callIds[position]
  {
    assert forall l :: LastAsking(llmMessages, position, l) ==> l == k;
    hide AsksAt;
  }

  lemma SameAsking(llmMessages: seq<Message>, position: nat)
    requires llmMessages != [] && !AsksAt(llmMessages[|llmMessages| - 1], position)
    ensures var front := llmMessages[..|llmMessages| - 1];
            && (forall k :: LastAsking(llmMessages, position, k) <==> LastAsking(front, position, k))
            && (NoneAsking(llmMessages, position) <==> NoneAsking(front, position))
  {
    hide AsksAt;
    var n := |llmMessages| - 1;
    var front := llmMessages[..n];
    assert forall k :: 0 <= k < n ==> front[k] == llmMessages[k];
    assert forall k :: 0 <= k < n ==> (AsksAt(llmMessages[k], position) <==> AsksAt(front[k], position));
  }

  lemma AskedBefore(llmMessages: seq<Message>, position: nat, own: string)
    requires llmMessages != [] && !AsksAt(llmMessages[|llmMessages| - 1], position)
    ensures
      forall id ::
        IsCallId(id, llmMessages, position, own) <==> IsCallId(id, llmMessages[..|llmMessages| - 1], position, own)
  {
    SameAsking(llmMessages, position);
    hide NoneAsking;
    var front := llmMessages[..|llmMessages| - 1];
    forall k | LastAsking(front, position, k)
      ensures front[k] == llmMessages[k] && AsksAt(front[k], position)
    {
    }
  }

  lemma {:induction false} ToolCallIdMeans(llmMessages: seq<Message>, position: nat, own: string)
    ensures forall id :: IsCallId(id, llmMessages, position, own) <==> id == ToolCallId(llmMessages, position, own)
  {
    if llmMessages != [] {
      var n := |llmMessages| - 1;
      if AsksAt(llmMessages[n], position) {
        AskedLast(llmMessages, position, n, own);
      } else {
        ToolCallIdMeans(llmMessages[..n], position, own);
        AskedBefore(llmMessages, position, own);
      }
      hide IsCallId;
    }
  }

  ghost predicate UserShown(user: seq<Message>, said: Option<string>) {
    if said.Some? && said.value != "" then |user| == 1 && user[0] == User(said.value) else user == []
  }

  /** Every recorded message is there; only one without text and calls is replaced. */
  ghost predicate OwnShown(own: seq<Message>, llmMessages: seq<Message>) {
    && |own| == |llmMessages|
    && forall k :: 0 <= k < |own| ==>
         && (!EmptyAssistant(llmMessages[k]) ==> own[k] == llmMessages[k])
         && (EmptyAssistant(llmMessages[k]) ==> own[k] == Assistant(Some(EMPTY_ASSISTANT_PLACEHOLDER), []))
  }

  /** The position of a call among those of its turn; equal records share the first. */
  ghost predicate IsPlace(calls: seq<ToolCallRecord>, j: nat, k: nat)
    requires j < |calls|
  {
    k <= j && calls[k] == calls[j] && calls[j] !in calls[..k]
  }

  ghost predicate ToolShown(m: Message, turn: TurnRecord, j: nat, cfg: RenderConfig, degraded: set<string>)
    requires j < |turn.toolCalls|
  {
    var tc := turn.toolCalls[j];
    && m.Tool? && Shows(m.content, tc, cfg, tc.tcId in degraded)
    && forall k :: IsPlace(turn.toolCalls, j, k) ==> IsCallId(m.toolCallId, turn.llmMessages, k, "call_" + tc.tcId)
  }

  ghost predicate ToolsShown(tools: seq<Message>, turn: TurnRecord, cfg: RenderConfig, degraded: set<string>) {
    && |tools| == |turn.toolCalls|
    && forall j :: 0 <= j < |tools| ==> ToolShown(tools[j], turn, j, cfg, degraded)
  }

  /** A turn is shown as its user message, its model messages and one tool message for each of its calls. */
  ghost predicate TurnShown(messages: seq<Message>, turn: TurnRecord, cfg: RenderConfig, degraded: set<string>) {
    exists user, own, tools ::
      && messages == user + own + tools
      && UserShown(user, turn.userMessage) && OwnShown(own, turn.llmMessages) && ToolsShown(tools, turn, cfg, degraded)
  }

  lemma OwnMeans(llmMessages: seq<Message>)
    ensures OwnShown(SanitizedMessages(llmMessages), llmMessages)
  {
  }

  lemma ToolsMean(turn: TurnRecord, cfg: RenderConfig, degraded: set<string>)
    ensures ToolsShown(ToolMessages(turn, cfg, degraded), turn, cfg, degraded)
  {
    hide Shows, RenderToolMessage, IsCallId, ToolCallId;
    var tools := ToolMessages(turn, cfg, degraded);
    forall j | 0 <= j < |tools|
      ensures ToolShown(tools[j], turn, j, cfg, degraded)
    {
      var tc := turn.toolCalls[j];
      var place := IndexOf(turn.toolCalls, tc);
      RenderMeans(tc, cfg, tc.tcId in degraded);
      ToolCallIdMeans(turn.llmMessages, place, "call_" + tc.tcId);
      forall k | IsPlace(turn.toolCalls, j, k)
        ensures k == place
      {
        OnePlace(turn.toolCalls, tc, k, place);
      }
    }
  }

  lemma OnePlace(calls: seq<ToolCallRecord>, tc: ToolCallRecord, k: nat, l: nat)
    requires k < |calls| && l < |calls| && calls[k] == tc == calls[l]
    requires tc !in calls[..k] && tc !in calls[..l]
    ensures k == l
  {
    assert forall x :: 0 <= x < k ==> calls[..k][x] == calls[x];
    assert forall x :: 0 <= x < l ==> calls[..l][x] == calls[x];
    assert forall x :: 0 <= x < k || 0 <= x < l ==> calls[x] != tc;
  }

  lemma TurnMeans(turn: TurnRecord, cfg: RenderConfig, degraded: set<string>)
    ensures TurnShown(TurnToMessages(turn, cfg, degraded), turn, cfg, degraded)
  {
    OwnMeans(turn.llmMessages);
    ToolsMean(turn, cfg, degraded);
    hide OwnShown, ToolsShown, SanitizedMessages, ToolMessages;
  }

  // ---------- The turn without its plain text ----------

  /** The messages that ask for something, or that no assistant sent. */
  ghost function Asking(llmMessages: seq<Message>): (asking: seq<Message>) {
    if llmMessages == [] then []
    else
      var last := llmMessages[|llmMessages| - 1];
      Asking(llmMessages[..|llmMessages| - 1]) + if last.Assistant? && last.callIds == [] then [] else [last]
  }

  lemma {:induction false} OthersOfOwn(own: seq<Message>, llmMessages: seq<Message>)
    requires OwnShown(own, llmMessages)
    ensures Others(own) == Asking(llmMessages)
  {
    if own != [] {
      var n := |own| - 1;
      OthersOfOwn(own[..n], llmMessages[..n]);
    }
  }

  lemma {:induction false} NothingPlain(messages: seq<Message>)
    requires forall k :: 0 <= k < |messages| ==> !Plain(messages[k])
    ensures Others(messages) == messages
  {
    if messages != [] {
      NothingPlain(messages[..|messages| - 1]);
    }
  }
}
