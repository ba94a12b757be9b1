/** The trimming loop of nexus/context/builder.py and what holds of the list it returns. */
module ContextBuilder {
  import opened Text
  import opened Sessions
  import opened LlmMessages
  import opened ContextWindow
  import opened ContextMeanings

  predicate BareUser(m: Message) {
    m.User? && !Blank(m.content)
  }

  predicate HasBareUserMessage(messages: seq<Message>) {
    exists i :: 0 <= i < |messages| && BareUser(messages[i])
  }

  /** What the user said last if that is anything, else the fixed text. */
  ghost predicate IsUserText(text: string, anchor: Option<string>) {
    && (anchor.Some? && !Blank(anchor.value) ==> IsStripped(anchor.value, text))
    && (anchor.None? || Blank(anchor.value) ==> text == FALLBACK_USER_MESSAGE)
  }

  lemma StrippedText(s: string)
    ensures Strip(s) != "" <==> !Blank(s)
    ensures !Blank(s) ==> !Blank(Strip(s)) && IsStripped(s, Strip(s))
  {
    StripEmptyIffBlank(s);
    StripNotBlank(s);
    StripMeans(s);
    hide Strip, Blank, IsStripped;
  }

  lemma FallbackIsText()
    ensures !Blank(FALLBACK_USER_MESSAGE)
  {
    assert 'C' in FALLBACK_USER_MESSAGE && !IsSpace('C');
  }

  function UserText(anchor: Option<string>): (text: string)
    ensures !Blank(text) && IsUserText(text, anchor)
  {
    hide Strip, Blank, IsStripped;
    FallbackIsText();
    if anchor.Some? then
      StrippedText(anchor.value);
      if Strip(anchor.value) != "" then Strip(anchor.value) else FALLBACK_USER_MESSAGE
    else FALLBACK_USER_MESSAGE
  }

  /** Inserts a user message, after the system message if there is one, when no bare user message is left. */
  function EnsureUserQuery(messages: seq<Message>, anchor: Option<string>): seq<Message> {
    if HasBareUserMessage(messages) then messages
    else if messages != [] && messages[0].System? then [messages[0], User(UserText(anchor))] + messages[1..]
    else [User(UserText(anchor))] + messages
  }

  // ---------- Replayable turns ----------

  /** A turn whose assistant messages ask for at least as many calls as were recorded. */
  ghost predicate Replayable(turn: TurnRecord) {
    && (forall k :: 0 <= k < |turn.llmMessages| ==> turn.llmMessages[k].Assistant?)
    && (turn.toolCalls != [] ==>
          exists k :: 0 <= k < |turn.llmMessages| && |turn.llmMessages[k].callIds| >= |turn.toolCalls|)
  }

  lemma {:induction false} ToolCallIdIsAsked(llmMessages: seq<Message>, position: nat, fallback: string, k: nat)
    requires k < |llmMessages| && llmMessages[k].Assistant? && position < |llmMessages[k].callIds|
    ensures exists m :: 0 <= m < |llmMessages| && llmMessages[m].Assistant?
                        && ToolCallId(llmMessages, position, fallback) in llmMessages[m].callIds
  {
    var n := |llmMessages| - 1;
    var last := llmMessages[n];
    if last.Assistant? && position < |last.callIds| {
      assert last.callIds[position] in last.callIds;
    } else {
      ToolCallIdIsAsked(llmMessages[..n], position, fallback, k);
    }
  }

  lemma {:induction false} AssistantsOpen(open: set<string>, messages: seq<Message>)
    requires forall k :: 0 <= k < |messages| ==> messages[k].Assistant?
    ensures Answered(open, messages)
    ensures forall k, id :: 0 <= k < |messages| && id in messages[k].callIds ==> id in OpenAfterAll(open, messages)
  {
    if messages != [] {
      AssistantsOpen(open, messages[..|messages| - 1]);
    }
  }

  lemma {:induction false} ToolsAnswered(open: set<string>, tools: seq<Message>)
    requires forall j :: 0 <= j < |tools| ==> tools[j].Tool? && tools[j].toolCallId in open
    ensures Answered(open, tools) && OpenAfterAll(open, tools) == open
  {
    if tools != [] {
      ToolsAnswered(open, tools[..|tools| - 1]);
    }
  }

  lemma ToolMessagesAsked(turn: TurnRecord, cfg: RenderConfig, degraded: set<string>, j: nat)
    requires Replayable(turn) && j < |turn.toolCalls|
    ensures var own := SanitizedMessages(turn.llmMessages);
            exists m :: 0 <= m < |own| && own[m].Assistant?
                        && ToolMessages(turn, cfg, degraded)[j].toolCallId in own[m].callIds
  {
    hide RenderToolMessage;
    var tc := turn.toolCalls[j];
    var k :| 0 <= k < |turn.llmMessages| && |turn.llmMessages[k].callIds| >= |turn.toolCalls|;
    ToolCallIdIsAsked(turn.llmMessages, IndexOf(turn.toolCalls, tc), "call_" + tc.tcId, k);
    var m :| 0 <= m < |turn.llmMessages| && turn.llmMessages[m].Assistant?
             && ToolMessages(turn, cfg, degraded)[j].toolCallId in turn.llmMessages[m].callIds;
    assert SanitizedMessages(turn.llmMessages)[m].callIds == turn.llmMessages[m].callIds;
  }

  lemma OnlyTools(turn: TurnRecord, cfg: RenderConfig, degraded: set<string>)
    ensures |ToolMessages(turn, cfg, degraded)| == |turn.toolCalls|
    ensures forall m :: m in ToolMessages(turn, cfg, degraded) ==> m.Tool?
  {
  }

  /** The messages of one replayable turn answer only calls of that very turn. */
  lemma TurnAnswersItself(turn: TurnRecord, cfg: RenderConfig, degraded: set<string>)
    requires Replayable(turn)
    ensures Answered({}, TurnToMessages(turn, cfg, degraded))
    ensures NoEmptyAssistant(TurnToMessages(turn, cfg, degraded))
  {
    hide SanitizedMessages, ToolMessages, UserMessages, OpenAfterAll, Answered, Replayable;
    var user, own, tools := UserMessages(turn), SanitizedMessages(turn.llmMessages), ToolMessages(turn, cfg, degraded);
    OwnMessages(turn);
    OnlyTools(turn, cfg, degraded);
    forall j | 0 <= j < |tools|
      ensures tools[j].toolCallId in OpenAfterAll({}, own)
    {
      ToolMessagesAsked(turn, cfg, degraded, j);
    }
    ToolsAnswered(OpenAfterAll({}, own), tools);
    OpenAfterConcat({}, user, own);
    OpenAfterConcat({}, user + own, tools);
  }

  lemma OwnMessages(turn: TurnRecord)
    requires Replayable(turn)
    ensures var user, own := UserMessages(turn), SanitizedMessages(turn.llmMessages);
            && NoEmptyAssistant(user) && NoEmptyAssistant(own)
            && Answered({}, user) && OpenAfterAll({}, user) == {} && Answered({}, own)
            && forall k, id :: 0 <= k < |own| && id in own[k].callIds ==> id in OpenAfterAll({}, own)
  {
    hide OpenAfterAll, Answered, OpenAfter;
    AssistantsOpen({}, SanitizedMessages(turn.llmMessages));
    NothingOpen();
    var user := UserMessages(turn);
    if user != [] {
      AnsweredSnoc({}, [], user[0]);
      UserOpensNone({}, user[0]);
      assert [] + [user[0]] == user;
    }
  }

  lemma NothingOpen()
    ensures Answered({}, []) && OpenAfterAll({}, []) == {}
  {
  }

  lemma UserOpensNone(open: set<string>, m: Message)
    ensures m.User? || m.System? ==> OpenAfter(open, m) == {}
  {
  }

  lemma {:induction false} HistoryAnswered(
    open: set<string>, window: seq<TurnRecord>, cfg: RenderConfig, degraded: set<string>)
    requires forall i :: 0 <= i < |window| ==> Replayable(window[i])
    ensures Answered(open, FlatHistory(window, cfg, degraded))
    ensures NoEmptyAssistant(FlatHistory(window, cfg, degraded))
  {
    hide TurnToMessages, OpenAfterAll, Replayable;
    if window != [] {
      var n := |window| - 1;
      HistoryAnswered(open, window[..n], cfg, degraded);
      TurnAnswersItself(window[n], cfg, degraded);
      var before, block := FlatHistory(window[..n], cfg, degraded), TurnToMessages(window[n], cfg, degraded);
      AnsweredMonotone({}, OpenAfterAll(open, before), block);
      OpenAfterConcat(open, before, block);
    }
  }

  // ---------- One block a turn ----------

  /** What the turns contribute besides plain assistant text, turn by turn. */
  ghost function TurnBlocks(window: seq<TurnRecord>, cfg: RenderConfig, degraded: set<string>)
    : (blocks: seq<seq<Message>>)
    ensures |blocks| == |window|
  {
    seq(|window|, i requires 0 <= i < |window| => Others(TurnToMessages(window[i], cfg, degraded)))
  }

  ghost function Joined(blocks: seq<seq<Message>>): seq<Message> {
    if blocks == [] then [] else Joined(blocks[..|blocks| - 1]) + blocks[|blocks| - 1]
  }

  lemma {:induction false} OthersConcat(a: seq<Message>, b: seq<Message>)
    ensures Others(a + b) == Others(a) + Others(b)
    decreases |b|
  {
    if b == [] {
      assert a + b == a;
    } else {
      assert (a + b)[..|a + b| - 1] == a + b[..|b| - 1];
      OthersConcat(a, b[..|b| - 1]);
    }
  }

  lemma {:induction false} HistoryInBlocks(window: seq<TurnRecord>, cfg: RenderConfig, degraded: set<string>)
    ensures Others(FlatHistory(window, cfg, degraded)) == Joined(TurnBlocks(window, cfg, degraded))
  {
    hide TurnToMessages;
    if window != [] {
      var n := |window| - 1;
      HistoryInBlocks(window[..n], cfg, degraded);
      OthersConcat(FlatHistory(window[..n], cfg, degraded), TurnToMessages(window[n], cfg, degraded));
      assert TurnBlocks(window, cfg, degraded)[..n] == TurnBlocks(window[..n], cfg, degraded);
    }
  }

  /** A block is the turn's user message, its messages that ask for calls and what is shown of each call. */
  ghost predicate BlockShown(block: seq<Message>, turn: TurnRecord, cfg: RenderConfig, degraded: set<string>) {
    exists user, tools ::
      && block == user + Asking(turn.llmMessages) + tools
      && UserShown(user, turn.userMessage) && ToolsShown(tools, turn, cfg, degraded)
  }

  lemma BlockShows(window: seq<TurnRecord>, cfg: RenderConfig, degraded: set<string>, i: nat)
    requires i < |window|
    ensures BlockShown(TurnBlocks(window, cfg, degraded)[i], window[i], cfg, degraded)
  {
    hide *;
    var turn := window[i];
    var user, own, tools := UserMessages(turn), SanitizedMessages(turn.llmMessages), ToolMessages(turn, cfg, degraded);
    UserIsShown(turn);
    OwnMeans(turn.llmMessages);
    OthersOfOwn(own, turn.llmMessages);
    ToolsMean(turn, cfg, degraded);
    ToolsStay(turn, cfg, degraded);
    OthersConcat(user, own);
    OthersConcat(user + own, tools);
    BlockParts(window, cfg, degraded, i);
    BlockIs(user, tools, turn, cfg, degraded);
  }

  lemma UserIsShown(turn: TurnRecord)
    ensures UserShown(UserMessages(turn), turn.userMessage) && Others(UserMessages(turn)) == UserMessages(turn)
  {
    hide Others;
    var user := UserMessages(turn);
    OthersOfOne(if user != [] then user[0] else User(""));
    assert user != [] ==> user == [user[0]];
  }

  lemma ToolsStay(turn: TurnRecord, cfg: RenderConfig, degraded: set<string>)
    ensures Others(ToolMessages(turn, cfg, degraded)) == ToolMessages(turn, cfg, degraded)
  {
    hide ToolMessages, Others;
    NothingPlain(ToolMessages(turn, cfg, degraded));
  }

  lemma BlockParts(window: seq<TurnRecord>, cfg: RenderConfig, degraded: set<string>, i: nat)
    requires i < |window|
    ensures TurnBlocks(window, cfg, degraded)[i]
            == Others(UserMessages(window[i]) + SanitizedMessages(window[i].llmMessages)
                      + ToolMessages(window[i], cfg, degraded))
  {
    hide UserMessages, SanitizedMessages, ToolMessages, Others;
  }

  lemma BlockIs(
    user: seq<Message>, tools: seq<Message>, turn: TurnRecord, cfg: RenderConfig, degraded: set<string>)
    requires UserShown(user, turn.userMessage) && ToolsShown(tools, turn, cfg, degraded)
    ensures BlockShown(user + Asking(turn.llmMessages) + tools, turn, cfg, degraded)
  {
    hide UserShown, ToolsShown;
  }

  /** Every tool result of a block answers an assistant message of the same block. */
  lemma BlockAnswersItself(window: seq<TurnRecord>, cfg: RenderConfig, degraded: set<string>, i: nat, k: nat)
    requires i < |window| && Replayable(window[i])
    ensures Answered({}, TurnBlocks(window, cfg, degraded)[i])
    ensures
      var block := TurnBlocks(window, cfg, degraded)[i];
      k < |block| && block[k].Tool? ==>
        exists j :: 0 <= j < k && block[j].Assistant? && block[k].toolCallId in block[j].callIds
  {
    hide TurnToMessages;
    TurnAnswersItself(window[i], cfg, degraded);
    AnsweredOthers({}, TurnToMessages(window[i], cfg, degraded));
    var block := TurnBlocks(window, cfg, degraded)[i];
    if k < |block| && block[k].Tool? {
      AnsweredMeans(block, k);
    }
  }

  /** The user message inserted when no bare one is left. */
  ghost function AnchorPart(messages: seq<Message>, anchor: Option<string>): seq<Message> {
    if HasBareUserMessage(messages) then [] else [User(UserText(anchor))]
  }

  lemma EnsuredSplit(system: Message, rest: seq<Message>, anchor: Option<string>)
    requires system.System?
    ensures EnsureUserQuery([system] + rest, anchor) == [system] + AnchorPart([system] + rest, anchor) + rest
  {
    hide UserText, HasBareUserMessage;
    var listed := [system] + rest;
    assert listed[0] == system && listed[1..] == rest;
    if HasBareUserMessage(listed) {
      assert [system] + [] == [system];
    } else {
      var user := User(UserText(anchor));
      assert [system, user] == [system] + [user];
    }
  }

  /**
   The list sent is, but for plain assistant text, the system message, the inserted user message if one was needed, the
   blocks of the turns that were kept, one after the other, and the current message.
   */
  lemma FinalBlocks(
    turns: seq<TurnRecord>, stage: nat, system: Message, current: seq<Message>, cfg: RenderConfig,
    anchor: Option<string>)
    requires system.System? && stage <= LastStage(turns)
    requires current == [] || (|current| == 1 && current[0].User?)
    ensures
      var listed := StageMessages(system, turns, stage, current, cfg);
      Others(Coalesced(EnsureUserQuery(listed, anchor)))
      == [system] + AnchorPart(listed, anchor) + Joined(TurnBlocks(Window(turns, stage), cfg, Degraded(turns, stage)))
         + current
  {
    assert stage <= |UnsummarizedIds(turns)| + |turns|;
    hide *;
    var window, degraded := Window(turns, stage), Degraded(turns, stage);
    var history, listed := FlatHistory(window, cfg, degraded), StageMessages(system, turns, stage, current, cfg);
    var part := AnchorPart(listed, anchor);
    OthersOfOne(system);
    SystemIsOther(system);
    AnchorIsOther(listed, anchor);
    CurrentIsOther(current);
    StageSplit(system, turns, stage, current, cfg);
    EnsuredSplit(system, history + current, anchor);
    CoalesceKeepsOthers(EnsureUserQuery(listed, anchor));
    OthersConcat([system] + part, history + current);
    OthersConcat([system], part);
    OthersConcat(history, current);
    HistoryInBlocks(window, cfg, degraded);
    AssocFour([system] + part, Joined(TurnBlocks(window, cfg, degraded)), current);
  }

  lemma SystemIsOther(m: Message)
    requires m.System? || m.User?
    ensures !Plain(m)
  {
  }

  lemma AnchorIsOther(messages: seq<Message>, anchor: Option<string>)
    ensures Others(AnchorPart(messages, anchor)) == AnchorPart(messages, anchor)
  {
    hide HasBareUserMessage, UserText;
    OthersOfOne(User(UserText(anchor)));
  }

  lemma CurrentIsOther(current: seq<Message>)
    requires current == [] || (|current| == 1 && current[0].User?)
    ensures Others(current) == current
  {
    if current != [] {
      OthersOfOne(current[0]);
      assert current == [current[0]];
    }
  }

  lemma OthersOfOne(m: Message)
    ensures Others([m]) == (if Plain(m) then [] else [m]) && Others([]) == []
  {
    assert [m][..0] == [];
  }

  lemma AssocFour(a: seq<Message>, b: seq<Message>, c: seq<Message>)
    ensures a + (b + c) == a + b + c
  {
  }

  // ---------- The stages of trimming ----------

  function UnsummarizedIdsIn(calls: seq<ToolCallRecord>): seq<string> {
    if calls == [] then []
    else (if SummaryText(calls[0]) == "" then [calls[0].tcId] else []) + UnsummarizedIdsIn(calls[1..])
  }

  /** The ids of all calls rendered with their raw result, oldest first. */
  function UnsummarizedIds(turns: seq<TurnRecord>): seq<string> {
    if turns == [] then [] else UnsummarizedIdsIn(turns[0].toolCalls) + UnsummarizedIds(turns[1..])
  }

  /** One of these calls has this id and no summary. */
  ghost predicate RawIn(calls: seq<ToolCallRecord>, id: string) {
    exists j :: 0 <= j < |calls| && calls[j].tcId == id && !HasSummary(calls[j])
  }

  ghost predicate RawInSome(turns: seq<TurnRecord>, id: string) {
    exists i :: 0 <= i < |turns| && RawIn(turns[i].toolCalls, id)
  }

  lemma {:induction false} UnsummarizedInMeans(calls: seq<ToolCallRecord>, id: string)
    ensures id in UnsummarizedIdsIn(calls) <==> RawIn(calls, id)
  {
    hide SummaryText, HasSummary;
    if calls != [] {
      UnsummarizedInMeans(calls[1..], id);
      SummaryTextMeans(calls[0]);
      FirstRaw(calls, id);
      hide RawIn;
    }
  }

  lemma FirstRaw(calls: seq<ToolCallRecord>, id: string)
    requires calls != []
    ensures RawIn(calls, id) <==> (calls[0].tcId == id && !HasSummary(calls[0])) || RawIn(calls[1..], id)
  {
    hide HasSummary;
    assert forall j :: 1 <= j < |calls| ==> calls[j] == calls[1..][j - 1];
    assert forall j :: 0 <= j < |calls| - 1 ==> calls[1..][j] == calls[j + 1];
  }

  lemma FirstRawTurn(turns: seq<TurnRecord>, id: string)
    requires turns != []
    ensures RawInSome(turns, id) <==> RawIn(turns[0].toolCalls, id) || RawInSome(turns[1..], id)
  {
    hide RawIn;
    assert forall i :: 1 <= i < |turns| ==> turns[i] == turns[1..][i - 1];
    assert forall i :: 0 <= i < |turns| - 1 ==> turns[1..][i] == turns[i + 1];
  }

  /** The ids that can be degraded are those of the calls without a summary. */
  lemma {:induction false} UnsummarizedMeans(turns: seq<TurnRecord>, id: string)
    ensures id in UnsummarizedIds(turns) <==> RawInSome(turns, id)
  {
    hide UnsummarizedIdsIn;
    if turns != [] {
      UnsummarizedMeans(turns[1..], id);
      UnsummarizedInMeans(turns[0].toolCalls, id);
      FirstRawTurn(turns, id);
      hide RawInSome, RawIn;
    }
  }

  ghost function Members(ids: seq<string>): set<string> {
    set id | id in ids
  }

  ghost predicate AllIn(ids: seq<string>, marked: set<string>) {
    forall k :: 0 <= k < |ids| ==> ids[k] in marked
  }

  /** `m` is the position of the oldest unmarked id. */
  ghost predicate OldestUnmarked(ids: seq<string>, marked: set<string>, m: int) {
    0 <= m < |ids| && ids[m] !in marked && AllIn(ids[..m], marked)
  }

  /** Trimming has `|ids| + |turns|` steps: first the oldest raw bodies go one by one, then the oldest turns. */
  ghost function Degraded(turns: seq<TurnRecord>, stage: nat): set<string> {
    var ids := UnsummarizedIds(turns);
    Members(if stage <= |ids| then ids[..stage] else ids)
  }

  ghost function Window(turns: seq<TurnRecord>, stage: nat): seq<TurnRecord>
    requires stage <= |UnsummarizedIds(turns)| + |turns|
  {
    var ids := UnsummarizedIds(turns);
    if stage <= |ids| then turns else turns[stage - |ids|..]
  }

  ghost function LastStage(turns: seq<TurnRecord>): nat {
    |UnsummarizedIds(turns)| + |turns|
  }

  /** The message list that is counted at a stage. */
  ghost function StageMessages(
    system: Message, turns: seq<TurnRecord>, stage: nat, current: seq<Message>, cfg: RenderConfig): seq<Message>
    requires stage <= LastStage(turns)
  {
    [system] + FlatHistory(Window(turns, stage), cfg, Degraded(turns, stage)) + current
  }

  /** None of the first `n` stages fits. */
  ghost predicate TooLong(
    system: Message, turns: seq<TurnRecord>, n: nat, current: seq<Message>, cfg: RenderConfig,
    count: seq<Message> -> nat, budget: int)
    requires n <= LastStage(turns) + 1
  {
    forall k :: 0 <= k < n ==> count(StageMessages(system, turns, k, current, cfg)) > budget
  }

  lemma {:induction false} SuffixIds(turns: seq<TurnRecord>, j: nat)
    requires j <= |turns|
    ensures forall id :: id in UnsummarizedIds(turns[j..]) ==> id in UnsummarizedIds(turns)
  {
    if j == 0 {
      assert turns[0..] == turns;
    } else {
      assert turns[j..] == turns[1..][j - 1..];
      SuffixIds(turns[1..], j - 1);
    }
  }

  predicate Says(turn: TurnRecord) {
    turn.userMessage.Some? && turn.userMessage.value != ""
  }

  function LastUserMessage(turns: seq<TurnRecord>): (said: Option<string>)
    ensures said.None? ==> forall i :: 0 <= i < |turns| ==> !Says(turns[i])
    ensures said.Some? ==>
              exists i :: 0 <= i < |turns| && Says(turns[i]) && turns[i].userMessage == said
                          && forall k :: i < k < |turns| ==> !Says(turns[k])
  {
    if turns == [] then None
    else
      var last := turns[|turns| - 1].userMessage;
      if last.Some? && last.value != "" then last else LastUserMessage(turns[..|turns| - 1])
  }

  class ContextWindowBuilder {
    var lastUntrimmedTokens: nat

    constructor ()
      ensures lastUntrimmedTokens == 0
    {
      lastUntrimmedTokens := 0;
    }

    /** Marks the oldest unsummarized call of the window that is not yet marked. */
    method DegradeOldestTool(window: seq<TurnRecord>, degraded: set<string>)
      returns (found: bool, marked: set<string>, ghost oldest: nat)
      ensures !found ==> marked == degraded && AllIn(UnsummarizedIds(window), degraded)
      ensures found ==> OldestUnmarked(UnsummarizedIds(window), degraded, oldest)
                        && marked == degraded + {UnsummarizedIds(window)[oldest]}
    {
      ghost var ids := UnsummarizedIds(window);
      ghost var seen: seq<string> := [];
      hide AllIn, OldestUnmarked, UnsummarizedIdsIn;
      NothingUnmarked(degraded);
      for i := 0 to |window|
        invariant ids == seen + UnsummarizedIds(window[i..])
        invariant AllIn(seen, degraded)
      {
        ghost var own, later := UnsummarizedIdsIn(window[i].toolCalls), UnsummarizedIds(window[i + 1..]);
        assert window[i..][1..] == window[i + 1..] && UnsummarizedIds(window[i..]) == own + later;
        assert seen + (own + later) == (seen + own) + later;
        var j;
        j, oldest := OldestIn(window[i].toolCalls, degraded);
        if j.Some? {
          UnmarkedAfter(seen, own, later, degraded, oldest);
          assert ids == seen + (own + later);
          return true, degraded + {window[i].toolCalls[j.value].tcId}, |seen| + oldest;
        }
        UnmarkedNone(seen, own, degraded);
        seen := seen + own;
      }
      assert window[|window|..] == [] && seen + [] == seen;
      return false, degraded, 0;
    }

    /** The first call of a turn that is neither summarized nor marked. */
    method OldestIn(calls: seq<ToolCallRecord>, degraded: set<string>)
      returns (position: Option<nat>, ghost oldest: nat)
      ensures position.None? ==> AllIn(UnsummarizedIdsIn(calls), degraded)
      ensures position.Some? ==>
                && position.value < |calls| && OldestUnmarked(UnsummarizedIdsIn(calls), degraded, oldest)
                && UnsummarizedIdsIn(calls)[oldest] == calls[position.value].tcId
    {
      hide SummaryText;
      ghost var ids := UnsummarizedIdsIn(calls);
      ghost var seen: seq<string> := [];
      for j := 0 to |calls|
        invariant ids == seen + UnsummarizedIdsIn(calls[j..])
        invariant AllIn(seen, degraded)
      {
        assert calls[j..][1..] == calls[j + 1..];
        var tc := calls[j];
        if tc.tcId in degraded {
          seen := if SummaryText(tc) == "" then seen + [tc.tcId] else seen;
          continue;
        }
        if SummaryText(tc) != "" {
          continue;
        }
        assert ids[|seen|] == tc.tcId && ids[..|seen|] == seen;
        return Some(j), |seen|;
      }
      return None, 0;
    }

    method CoalesceConsecutiveAssistants(messages: seq<Message>) returns (out: seq<Message>)
      ensures out == Coalesced(messages)
    {
      hide JoinTexts;
      out := [];
      for i := 0 to |messages|
        invariant out == Coalesced(messages[..i])
      {
        var msg := messages[i];
        assert messages[..i + 1][..i] == messages[..i];
        var mergeable := out != [] && Plain(out[|out| - 1]) && Plain(msg);
        if !mergeable {
          out := out + [msg];
          continue;
        }
        var prev := out[|out| - 1];
        out := out[|out| - 1 := Assistant(Some(JoinTexts(prev.text.value, msg.text.value)), [])];
      }
      assert messages[..|messages|] == messages;
    }

    /**
     Trims until the counted list fits or nothing is left to trim. `stage` is the number of trimming steps in terms of
     the fixed order: no earlier stage fits.
     */
    method Build(
      turns: seq<TurnRecord>, system: Message, currentUserMessage: Option<string>, cfg: RenderConfig,
      tokenBudget: int, count: seq<Message> -> nat)
      returns (final: seq<Message>, ghost stage: nat)
      requires system.System?
      modifies this
      ensures var current := if currentUserMessage.Some? && currentUserMessage.value != ""
                             then [User(currentUserMessage.value)] else [];
              var anchor := if current != [] then currentUserMessage else LastUserMessage(turns);
              && stage <= LastStage(turns)
              && final == Coalesced(EnsureUserQuery(StageMessages(system, turns, stage, current, cfg), anchor))
              && (count(StageMessages(system, turns, stage, current, cfg)) <= tokenBudget || stage == LastStage(turns))
              && SentAs(final, system, Window(turns, stage), cfg, Degraded(turns, stage), current, anchor)
              && TooLong(system, turns, stage, current, cfg, count, tokenBudget)
              && (count(StageMessages(system, turns, 0, current, cfg)) > 0 ==>
                    lastUntrimmedTokens == count(StageMessages(system, turns, 0, current, cfg)))
    {
      hide FlatHistory, UnsummarizedIds, EnsureUserQuery, Coalesced, Window, Degraded, LastUserMessage;
      hide AllIn, TooLong, OldestUnmarked, StageMessages, SentAs;
      var current := if currentUserMessage.Some? && currentUserMessage.value != ""
        then [User(currentUserMessage.value)] else [];
      var anchor := if current != [] then currentUserMessage else LastUserMessage(turns);
      var messages;
      messages, stage := Trim(turns, system, current, cfg, tokenBudget, count);
      final := CoalesceConsecutiveAssistants(EnsureUserQuery(messages, anchor));
      StageIsSent(turns, stage, system, current, cfg, anchor);
    }

    /** The trimming loop. */
    method Trim(
      turns: seq<TurnRecord>, system: Message, current: seq<Message>, cfg: RenderConfig, tokenBudget: int,
      count: seq<Message> -> nat)
      returns (messages: seq<Message>, ghost stage: nat)
      modifies this
      ensures stage <= LastStage(turns) && messages == StageMessages(system, turns, stage, current, cfg)
      ensures count(messages) <= tokenBudget || stage == LastStage(turns)
      ensures TooLong(system, turns, stage, current, cfg, count, tokenBudget)
      ensures count(StageMessages(system, turns, 0, current, cfg)) > 0 ==>
                lastUntrimmedTokens == count(StageMessages(system, turns, 0, current, cfg))
    {
      hide FlatHistory, UnsummarizedIds, Window, Degraded, LastStage, StageMessages;
      hide AllIn, TooLong, OldestUnmarked;
      var window := turns;
      var degraded: set<string> := {};
      lastUntrimmedTokens := 0;
      StageZero(turns);
      LastIsLast(turns);
      NoStageYet(system, turns, current, cfg, count, tokenBudget);
      stage := 0;
      StageIs(system, turns, stage, current, cfg);
      messages := [system] + FlatHistory(window, cfg, degraded) + current;
      while true
        invariant stage <= LastStage(turns)
        invariant window == Window(turns, stage) && degraded == Degraded(turns, stage)
        invariant messages == StageMessages(system, turns, stage, current, cfg)
        invariant TooLong(system, turns, stage, current, cfg, count, tokenBudget)
        invariant stage == 0 ==> lastUntrimmedTokens == 0
        invariant stage > 0 && count(StageMessages(system, turns, 0, current, cfg)) > 0 ==>
                    lastUntrimmedTokens == count(StageMessages(system, turns, 0, current, cfg))
        decreases LastStage(turns) - stage
      {
        LastIsLast(turns);
        var totalTokens := count(messages);
        if lastUntrimmedTokens == 0 {
          lastUntrimmedTokens := totalTokens;
        }
        if totalTokens <= tokenBudget {
          break;
        }
        StillTooLong(system, turns, stage, current, cfg, count, tokenBudget);
        var found;
        ghost var oldest;
        found, degraded, oldest := DegradeOldestTool(window, degraded);
        if found {
          stage := NextDegradeStage(turns, stage, oldest, system, current, cfg, count, tokenBudget);
        } else if window != [] {
          stage := FirstDropStage(turns, stage, system, current, cfg, count, tokenBudget);
          stage := stage + 1;
          window := window[1..];
        } else {
          stage := FirstDropStage(turns, stage, system, current, cfg, count, tokenBudget);
          FewerTooLong(system, turns, stage, current, cfg, count, tokenBudget);
          break;
        }
        LastIsLast(turns);
        StageIs(system, turns, stage, current, cfg);
        messages := [system] + FlatHistory(window, cfg, degraded) + current;
      }
    }
  }

  lemma LastIsLast(turns: seq<TurnRecord>)
    ensures LastStage(turns) == |UnsummarizedIds(turns)| + |turns|
  {
  }

  lemma StageIs(system: Message, turns: seq<TurnRecord>, stage: nat, current: seq<Message>, cfg: RenderConfig)
    requires stage <= LastStage(turns)
    ensures StageMessages(system, turns, stage, current, cfg)
            == [system] + FlatHistory(Window(turns, stage), cfg, Degraded(turns, stage)) + current
  {
    hide FlatHistory, Window, Degraded;
  }

  lemma NoStageYet(
    system: Message, turns: seq<TurnRecord>, current: seq<Message>, cfg: RenderConfig,
    count: seq<Message> -> nat, budget: int)
    ensures TooLong(system, turns, 0, current, cfg, count, budget)
  {
  }

  lemma StillTooLong(
    system: Message, turns: seq<TurnRecord>, n: nat, current: seq<Message>, cfg: RenderConfig,
    count: seq<Message> -> nat, budget: int)
    requires n <= LastStage(turns) && TooLong(system, turns, n, current, cfg, count, budget)
    requires count(StageMessages(system, turns, n, current, cfg)) > budget
    ensures TooLong(system, turns, n + 1, current, cfg, count, budget)
  {
  }

  lemma FewerTooLong(
    system: Message, turns: seq<TurnRecord>, n: nat, current: seq<Message>, cfg: RenderConfig,
    count: seq<Message> -> nat, budget: int)
    requires n <= LastStage(turns) && TooLong(system, turns, n + 1, current, cfg, count, budget)
    ensures TooLong(system, turns, n, current, cfg, count, budget)
  {
  }

  lemma NothingUnmarked(marked: set<string>)
    ensures AllIn([], marked)
  {
  }

  lemma UnmarkedNone(seen: seq<string>, own: seq<string>, marked: set<string>)
    requires AllIn(seen, marked) && AllIn(own, marked)
    ensures AllIn(seen + own, marked)
  {
  }

  lemma UnmarkedAfter(seen: seq<string>, own: seq<string>, later: seq<string>, marked: set<string>, m: nat)
    requires AllIn(seen, marked) && OldestUnmarked(own, marked, m)
    ensures OldestUnmarked(seen + (own + later), marked, |seen| + m)
    ensures (seen + (own + later))[|seen| + m] == own[m]
  {
    assert (seen + (own + later))[..|seen| + m] == seen + own[..m];
  }

  lemma StageZero(turns: seq<TurnRecord>)
    ensures Window(turns, 0) == turns && Degraded(turns, 0) == {}
  {
    assert UnsummarizedIds(turns)[..0] == [];
  }

  lemma MembersGrow(ids: seq<string>, a: nat, b: nat)
    requires a <= b <= |ids|
    ensures Members(ids[..a]) <= Members(ids[..b]) <= Members(ids)
  {
    forall id | id in ids[..a]
      ensures id in ids[..b]
    {
      var k :| 0 <= k < a && ids[k] == id;
      assert ids[..b][k] == id;
    }
  }

  /** Between the last mark and the oldest unmarked id, the marked set does not change. */
  lemma SameMarks(ids: seq<string>, stage: nat, m: nat, k: nat)
    requires stage <= |ids| && OldestUnmarked(ids, Members(ids[..stage]), m)
    ensures stage <= m
    ensures stage <= k <= m ==> Members(ids[..k]) == Members(ids[..stage])
  {
    assert forall x :: 0 <= x < stage ==> ids[..stage][x] == ids[x];
    if stage <= k <= m {
      MembersGrow(ids, stage, k);
      forall id | id in ids[..k]
        ensures id in Members(ids[..stage])
      {
        var x :| 0 <= x < k && ids[x] == id;
        assert ids[..m][x] == id;
      }
    }
  }

  /** Marking one more id moves to the stage just after that id; the stages in between render alike. */
  lemma NextDegradeStage(
    turns: seq<TurnRecord>, stage: nat, m: nat,
    system: Message, current: seq<Message>, cfg: RenderConfig, count: seq<Message> -> nat, budget: int)
    returns (next: nat)
    requires stage <= LastStage(turns)
    requires TooLong(system, turns, stage + 1, current, cfg, count, budget)
    requires OldestUnmarked(UnsummarizedIds(Window(turns, stage)), Degraded(turns, stage), m)
    ensures stage < next <= LastStage(turns)
    ensures Window(turns, next) == Window(turns, stage)
    ensures Degraded(turns, next) == Degraded(turns, stage) + {UnsummarizedIds(Window(turns, stage))[m]}
    ensures TooLong(system, turns, next, current, cfg, count, budget)
  {
    hide FlatHistory, UnsummarizedIds;
    var all := UnsummarizedIds(turns);
    var ids := UnsummarizedIds(Window(turns, stage));
    assert ids[m] in ids;
    if stage > |all| {
      SuffixIds(turns, stage - |all|);
    }
    next := m + 1;
    forall k | stage <= k <= m
      ensures StageMessages(system, turns, k, current, cfg) == StageMessages(system, turns, stage, current, cfg)
    {
      SameMarks(all, stage, m, k);
      assert Degraded(turns, k) == Degraded(turns, stage);
    }
    assert forall k :: 0 <= k < next ==> count(StageMessages(system, turns, k, current, cfg)) > budget;
    SameMarks(all, stage, m, m);
    assert all[..m + 1] == all[..m] + [all[m]];
  }

  /** With nothing left to mark, the current stage renders like the last degrading one. */
  lemma FirstDropStage(
    turns: seq<TurnRecord>, stage: nat, system: Message, current: seq<Message>, cfg: RenderConfig,
    count: seq<Message> -> nat, budget: int)
    returns (last: nat)
    requires stage <= LastStage(turns)
    requires TooLong(system, turns, stage + 1, current, cfg, count, budget)
    requires AllIn(UnsummarizedIds(Window(turns, stage)), Degraded(turns, stage))
    ensures stage <= last <= LastStage(turns)
    ensures Window(turns, last) == Window(turns, stage) && Degraded(turns, last) == Degraded(turns, stage)
    ensures Window(turns, stage) != [] ==>
              && last < LastStage(turns) && Window(turns, last + 1) == Window(turns, stage)[1..]
              && Degraded(turns, last + 1) == Degraded(turns, stage)
    ensures Window(turns, stage) == [] ==> last == LastStage(turns)
    ensures StageMessages(system, turns, last, current, cfg) == StageMessages(system, turns, stage, current, cfg)
    ensures TooLong(system, turns, last + 1, current, cfg, count, budget)
  {
    hide FlatHistory, UnsummarizedIds;
    var all := UnsummarizedIds(turns);
    last := if stage <= |all| then |all| else stage;
    assert all[..|all|] == all;
    forall k | stage <= k <= last
      ensures Degraded(turns, k) == Degraded(turns, stage)
    {
      if stage <= |all| {
        MembersGrow(all, stage, k);
      }
    }
  }

  // ---------- What the final list says ----------

  ghost predicate AllShown(
    shown: seq<seq<Message>>, window: seq<TurnRecord>, cfg: RenderConfig, degraded: set<string>)
  {
    |shown| == |window| && forall i :: 0 <= i < |shown| ==> TurnShown(shown[i], window[i], cfg, degraded)
  }

  /** A user message is inserted exactly when none with text is left. */
  ghost predicate IsInserted(part: seq<Message>, listed: seq<Message>, anchor: Option<string>) {
    if HasBareUserMessage(listed) then part == []
    else |part| == 1 && part[0].User? && IsUserText(part[0].content, anchor)
  }

  /** The list sent merges the system message, an inserted one, what each kept turn shows, and the current message. */
  ghost predicate SentAs(
    final: seq<Message>, system: Message, window: seq<TurnRecord>, cfg: RenderConfig, degraded: set<string>,
    current: seq<Message>, anchor: Option<string>)
  {
    exists part, shown ::
      && final == Coalesced([system] + part + Joined(shown) + current)
      && IsInserted(part, [system] + Joined(shown) + current, anchor)
      && AllShown(shown, window, cfg, degraded)
  }

  ghost function ShownTurns(window: seq<TurnRecord>, cfg: RenderConfig, degraded: set<string>)
    : (shown: seq<seq<Message>>)
    ensures |shown| == |window|
  {
    seq(|window|, i requires 0 <= i < |window| => TurnToMessages(window[i], cfg, degraded))
  }

  lemma {:induction false} HistoryIsShown(window: seq<TurnRecord>, cfg: RenderConfig, degraded: set<string>)
    ensures FlatHistory(window, cfg, degraded) == Joined(ShownTurns(window, cfg, degraded))
    ensures AllShown(ShownTurns(window, cfg, degraded), window, cfg, degraded)
  {
    hide TurnToMessages, TurnShown;
    if window != [] {
      var n := |window| - 1;
      HistoryIsShown(window[..n], cfg, degraded);
      assert ShownTurns(window, cfg, degraded)[..n] == ShownTurns(window[..n], cfg, degraded);
    }
    forall i | 0 <= i < |window| {
      TurnMeans(window[i], cfg, degraded);
    }
  }

  lemma StageIsSent(
    turns: seq<TurnRecord>, stage: nat, system: Message, current: seq<Message>, cfg: RenderConfig,
    anchor: Option<string>)
    requires system.System? && stage <= LastStage(turns)
    ensures SentAs(Coalesced(EnsureUserQuery(StageMessages(system, turns, stage, current, cfg), anchor)),
                   system, Window(turns, stage), cfg, Degraded(turns, stage), current, anchor)
  {
    LastIsLast(turns);
    hide *;
    var window, degraded := Window(turns, stage), Degraded(turns, stage);
    var shown := ShownTurns(window, cfg, degraded);
    HistoryIsShown(window, cfg, degraded);
    StageIs(system, turns, stage, current, cfg);
    SentFromShown(system, shown, window, cfg, degraded, current, anchor);
  }

  lemma SentFromShown(
    system: Message, shown: seq<seq<Message>>, window: seq<TurnRecord>, cfg: RenderConfig, degraded: set<string>,
    current: seq<Message>, anchor: Option<string>)
    requires system.System? && AllShown(shown, window, cfg, degraded)
    ensures SentAs(Coalesced(EnsureUserQuery([system] + Joined(shown) + current, anchor)),
                   system, window, cfg, degraded, current, anchor)
  {
    hide HasBareUserMessage, UserText, Coalesced, Joined, AllShown, IsUserText;
    var rest := Joined(shown) + current;
    assert [system] + Joined(shown) + current == [system] + rest;
    var part := AnchorPart([system] + rest, anchor);
    EnsuredSplit(system, rest, anchor);
    assert [system] + part + Joined(shown) + current == [system] + part + rest;
  }

  // ---------- What holds of the final list ----------

  /** Kept turns are always a suffix, and no turn is dropped before every raw body of the session was degraded. */
  lemma TrimmingOrder(turns: seq<TurnRecord>, stage: nat)
    requires stage <= LastStage(turns)
    ensures exists j :: 0 <= j <= |turns| && Window(turns, stage) == turns[j..]
    ensures Window(turns, stage) != turns ==> Degraded(turns, stage) == Members(UnsummarizedIds(turns))
    ensures exists n :: 0 <= n <= |UnsummarizedIds(turns)| && Degraded(turns, stage) == Members(UnsummarizedIds(turns)[..n])
  {
    var ids := UnsummarizedIds(turns);
    assert ids[..|ids|] == ids && turns[0..] == turns;
    if stage > |ids| {
      assert Window(turns, stage) == turns[stage - |ids|..];
    } else {
      assert Degraded(turns, stage) == Members(ids[..stage]);
    }
  }

  lemma {:induction false} CoalescedStart(messages: seq<Message>)
    requires messages != [] && !Plain(messages[0])
    ensures Coalesced(messages) != [] && Coalesced(messages)[0] == messages[0]
  {
    hide JoinTexts;
    if |messages| > 1 {
      CoalescedStart(messages[..|messages| - 1]);
    } else {
      assert messages[..0] == [];
    }
  }

  lemma {:induction false} OthersKeep(messages: seq<Message>, m: Message)
    requires !Plain(m)
    ensures m in Others(messages) <==> m in messages
  {
    if messages != [] {
      var n := |messages| - 1;
      OthersKeep(messages[..n], m);
      assert messages == messages[..n] + [messages[n]];
    }
  }

  ghost predicate Sound(messages: seq<Message>) {
    NoEmptyAssistant(messages) && Answered({}, messages)
  }

  lemma PrependSound(m: Message, messages: seq<Message>)
    requires (m.System? || m.User?) && Sound(messages)
    ensures Sound([m] + messages)
  {
    AnsweredSnoc({}, [], m);
    assert [] + [m] == [m];
    OpenAfterConcat({}, [m], messages);
  }

  lemma CurrentSound(history: seq<Message>, current: seq<Message>)
    requires Sound(history)
    requires current == [] || (|current| == 1 && current[0].User?)
    ensures Sound(history + current)
  {
    if current == [] {
      assert history + current == history;
    } else {
      assert current == [current[0]];
      AnsweredSnoc({}, history, current[0]);
    }
  }

  lemma EnsureKeepsSound(system: Message, rest: seq<Message>, anchor: Option<string>)
    requires system.System? && Sound(rest)
    ensures var ensured := EnsureUserQuery([system] + rest, anchor);
            ensured != [] && ensured[0] == system && HasBareUserMessage(ensured) && Sound(ensured)
  {
    hide Sound, UserText, Blank;
    PrependSound(system, rest);
    var user := User(UserText(anchor));
    PrependSound(user, rest);
    PrependSound(system, [user] + rest);
    var listed := [system] + rest;
    if !HasBareUserMessage(listed) {
      assert listed[1..] == rest;
      assert [listed[0], user] + listed[1..] == [system] + ([user] + rest);
      assert BareUser(([system] + ([user] + rest))[1]);
    }
  }

  lemma StageIsReplayable(turns: seq<TurnRecord>, stage: nat, cfg: RenderConfig)
    requires stage <= LastStage(turns)
    requires forall i :: 0 <= i < |turns| ==> Replayable(turns[i])
    ensures Sound(FlatHistory(Window(turns, stage), cfg, Degraded(turns, stage)))
  {
    var window := Window(turns, stage);
    forall i | 0 <= i < |window|
      ensures Replayable(window[i])
    {
      assert window[i] in turns;
    }
    HistoryAnswered({}, window, cfg, Degraded(turns, stage));
  }

  /**
   Whatever was trimmed, the list sent to the model starts with the system message, contains a user message with
   text, has no empty and no two adjacent plain assistant messages, and every tool result answers an assistant message
   of its own turn: but for plain text the list is made of the turns' blocks, each of which answers itself.
   */
  lemma FinalListWellFormed(
    turns: seq<TurnRecord>, stage: nat, system: Message, current: seq<Message>, cfg: RenderConfig,
    anchor: Option<string>)
    requires system.System? && stage <= LastStage(turns)
    requires forall i :: 0 <= i < |turns| ==> Replayable(turns[i])
    requires current == [] || (|current| == 1 && current[0].User?)
    ensures var final := Coalesced(EnsureUserQuery(StageMessages(system, turns, stage, current, cfg), anchor));
            && final != [] && final[0] == system
            && HasBareUserMessage(final)
            && NoEmptyAssistant(final)
            && NoPlainPair(final)
            && Answered({}, final)
    ensures var listed := StageMessages(system, turns, stage, current, cfg);
            var blocks := TurnBlocks(Window(turns, stage), cfg, Degraded(turns, stage));
            && Others(Coalesced(EnsureUserQuery(listed, anchor)))
               == [system] + AnchorPart(listed, anchor) + Joined(blocks) + current
            && forall i :: 0 <= i < |blocks| ==> Answered({}, blocks[i])
  {
    assert stage <= |UnsummarizedIds(turns)| + |turns|;
    hide *;
    StageIsReplayable(turns, stage, cfg);
    FinalBlocks(turns, stage, system, current, cfg, anchor);
    BlocksAnswer(turns, stage, cfg);
    var history := FlatHistory(Window(turns, stage), cfg, Degraded(turns, stage));
    CurrentSound(history, current);
    EnsureKeepsSound(system, history + current, anchor);
    StageSplit(system, turns, stage, current, cfg);
    FinishWellFormed(system, EnsureUserQuery(StageMessages(system, turns, stage, current, cfg), anchor));
  }

  lemma BlocksAnswer(turns: seq<TurnRecord>, stage: nat, cfg: RenderConfig)
    requires stage <= LastStage(turns)
    requires forall i :: 0 <= i < |turns| ==> Replayable(turns[i])
    ensures var blocks := TurnBlocks(Window(turns, stage), cfg, Degraded(turns, stage));
            forall i :: 0 <= i < |blocks| ==> Answered({}, blocks[i])
  {
    var window := Window(turns, stage);
    assert forall i :: 0 <= i < |window| ==> window[i] in turns;
    hide Window, Degraded, Answered;
    forall i | 0 <= i < |window|
      ensures Answered({}, TurnBlocks(window, cfg, Degraded(turns, stage))[i])
    {
      BlockAnswersItself(window, cfg, Degraded(turns, stage), i, 0);
    }
  }

  lemma StageSplit(system: Message, turns: seq<TurnRecord>, stage: nat, current: seq<Message>, cfg: RenderConfig)
    requires stage <= LastStage(turns)
    ensures StageMessages(system, turns, stage, current, cfg)
            == [system] + (FlatHistory(Window(turns, stage), cfg, Degraded(turns, stage)) + current)
  {
    hide FlatHistory, Window, Degraded;
  }

  lemma FinishWellFormed(system: Message, messages: seq<Message>)
    requires messages != [] && messages[0] == system && system.System?
    requires Sound(messages) && HasBareUserMessage(messages)
    ensures var final := Coalesced(messages);
            && final != [] && final[0] == system && HasBareUserMessage(final)
            && NoEmptyAssistant(final) && NoPlainPair(final) && Answered({}, final)
  {
    var final := Coalesced(messages);
    CoalescedStart(messages);
    CoalescedHasNoPair(messages);
    CoalesceKeepsSubstance(messages);
    CoalesceKeepsOthers(messages);
    AnsweredOthers({}, messages);
    AnsweredOthers({}, final);
    UserSurvives(messages);
  }

  lemma UserSurvives(messages: seq<Message>)
    requires HasBareUserMessage(messages)
    ensures HasBareUserMessage(Coalesced(messages))
  {
    CoalesceKeepsOthers(messages);
    var i :| 0 <= i < |messages| && BareUser(messages[i]);
    OthersKeep(messages, messages[i]);
    OthersKeep(Coalesced(messages), messages[i]);
  }

  lemma EnsuredHasUser(messages: seq<Message>, anchor: Option<string>)
    ensures HasBareUserMessage(EnsureUserQuery(messages, anchor))
  {
    hide UserText, Blank;
    var ensured := EnsureUserQuery(messages, anchor);
    if !HasBareUserMessage(messages) {
      var k := if messages != [] && messages[0].System? then 1 else 0;
      assert ensured[k] == User(UserText(anchor));
      assert BareUser(ensured[k]);
    }
  }

  /** The list that is sent is the list that was counted exactly when it needs neither a user anchor nor merging. */
  lemma SentIsCounted(counted: seq<Message>, anchor: Option<string>)
    ensures Coalesced(EnsureUserQuery(counted, anchor)) == counted
            <==> HasBareUserMessage(counted) && NoPlainPair(counted)
  {
    EnsuredHasUser(counted, anchor);
    UserSurvives(EnsureUserQuery(counted, anchor));
    CoalescedHasNoPair(EnsureUserQuery(counted, anchor));
    hide EnsureUserQuery, Coalesced, HasBareUserMessage, NoPlainPair;
    if HasBareUserMessage(counted) && NoPlainPair(counted) {
      CoalesceFixpoint(counted);
      NothingToEnsure(counted, anchor);
    }
  }

  lemma NothingToEnsure(messages: seq<Message>, anchor: Option<string>)
    requires HasBareUserMessage(messages)
    ensures EnsureUserQuery(messages, anchor) == messages
  {
  }

  /** So a list that fits can grow past the budget: here one counted message becomes two. */
  lemma AnchorCanExceedBudget(system: Message)
    requires system.System?
    ensures var counted := [system];
            |counted| <= 1 && |Coalesced(EnsureUserQuery(counted, None))| > 1
  {
    var counted := [system];
    var ensured := EnsureUserQuery(counted, None);
    EnsuredHasUser(counted, None);
    UserSurvives(ensured);
    hide HasBareUserMessage, EnsureUserQuery;
    CoalescedStart(ensured);
    var final := Coalesced(ensured);
    var i :| 0 <= i < |final| && BareUser(final[i]);
  }

  /** The builder does so: what it counted is within the budget, what it returns is not. */
  method BuildPastBudget(system: Message, cfg: RenderConfig)
    returns (final: seq<Message>, budget: nat, ghost counted: seq<Message>)
    requires system.System?
    ensures |counted| <= budget < |final| && final == Coalesced(EnsureUserQuery(counted, None))
    ensures counted == [system]
  {
    var builder := new ContextWindowBuilder();
    ghost var stage;
    budget := 1;
    final, stage := builder.Build([], system, None, cfg, budget, messages => |messages|);
    counted := StageMessages(system, [], stage, [], cfg);
    assert counted == [system] by {
      assert Window([], stage) == [];
    }
    AnchorCanExceedBudget(system);
  }
}
