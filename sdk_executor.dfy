/**
 * The unified SDK executor of server/sdk_executor.py: the response processor
 * that folds the SDK's message stream into a `ProcessedResponse`, the
 * tool-indicator line, the SDK options built from a configuration, and the
 * order in which `execute` calls the observability hooks.
 *
 * The stream is the finite sequence of messages the SDK delivered before it
 * finished or raised. Each accumulator of the processor is specified by a
 * function of the messages seen so far; the lemmas below state what those
 * functions mean.
 */
module SdkExecutor {
  import opened Wrappers
  import opened Seqs
  import opened Text
  import opened SdkTypes
  import opened Observability

  // ---------------------------------------------------------------------
  // What the processor accumulates, as functions of the message stream
  // ---------------------------------------------------------------------

  /** The text a thinking block contributes when thinking is included. */
  function ThinkingMarker(t: string): string {
    "\n[Thinking: " + t + "]\n"
  }

  /** The text parts one block contributes. */
  function BlockTextParts(b: Block, mode: ThinkingMode): seq<string> {
    match b
    case TextBlock(t) => [t]
    case ThinkingBlock(t) => if mode == Include then [ThinkingMarker(t)] else []
    case _ => []
  }

  function BlocksTextParts(bs: seq<Block>, mode: ThinkingMode): seq<string> {
    if bs == [] then [] else BlocksTextParts(bs[..|bs| - 1], mode) + BlockTextParts(bs[|bs| - 1], mode)
  }

  function BlocksToolUses(bs: seq<Block>): seq<string> {
    if bs == [] then []
    else BlocksToolUses(bs[..|bs| - 1]) + (if bs[|bs| - 1].ToolUseBlock? then [bs[|bs| - 1].name] else [])
  }

  function BlocksThinking(bs: seq<Block>): seq<string> {
    if bs == [] then []
    else BlocksThinking(bs[..|bs| - 1]) + (if bs[|bs| - 1].ThinkingBlock? then [bs[|bs| - 1].thinking] else [])
  }

  /** `text_parts` after the messages `ms`: only assistant messages contribute. */
  function TextParts(ms: seq<Message>, mode: ThinkingMode): seq<string> {
    if ms == [] then []
    else
      var m := ms[|ms| - 1];
      TextParts(ms[..|ms| - 1], mode) + (if m.AssistantMessage? then BlocksTextParts(m.content, mode) else [])
  }

  /** `tool_uses` after the messages `ms`. */
  function ToolUses(ms: seq<Message>): seq<string> {
    if ms == [] then []
    else
      var m := ms[|ms| - 1];
      ToolUses(ms[..|ms| - 1]) + (if m.AssistantMessage? then BlocksToolUses(m.content) else [])
  }

  /** `thinking_blocks` after the messages `ms`; it does not depend on the thinking mode. */
  function ThinkingBlocks(ms: seq<Message>): seq<string> {
    if ms == [] then []
    else
      var m := ms[|ms| - 1];
      ThinkingBlocks(ms[..|ms| - 1]) + (if m.AssistantMessage? then BlocksThinking(m.content) else [])
  }

  /**
   * `session_id` after the messages `ms`: `None` until a result message
   * arrives, then the session id of the last result message.
   */
  function LastSessionId(ms: seq<Message>): (r: Option<string>)
    ensures r.None? <==> forall i | 0 <= i < |ms| :: !ms[i].ResultMessage?
    ensures r.Some? ==> exists i | 0 <= i < |ms| ::
      ms[i].ResultMessage? && ms[i].sessionId == r.value && forall j | i < j < |ms| :: !ms[j].ResultMessage?
  {
    if ms == [] then None
    else
      var m := ms[|ms| - 1];
      if m.ResultMessage? then Some(m.sessionId)
      else
        var init := ms[..|ms| - 1];
        var r := LastSessionId(init);
        assert forall i | 0 <= i < |init| :: init[i] == ms[i];
        assert r.Some? ==> exists i | 0 <= i < |ms| ::
          ms[i].ResultMessage? && ms[i].sessionId == r.value && forall j | i < j < |ms| :: !ms[j].ResultMessage? by {
          if r.Some? {
            var i :| 0 <= i < |init| && init[i].ResultMessage? && init[i].sessionId == r.value
              && forall j | i < j < |init| :: !init[j].ResultMessage?;
            assert forall j | i < j < |ms| :: !ms[j].ResultMessage?;
          }
        }
        r
  }

  // ---------------------------------------------------------------------
  // The tool-indicator line
  // ---------------------------------------------------------------------

  /** The icon shown for a tool; unknown tools get the wrench. */
  function Icon(tool: string): string {
    if tool == "Read" then "\U{1F4D6}"
    else if tool == "Write" then "\U{270D}\U{FE0F}"
    else if tool == "Edit" then "\U{270F}\U{FE0F}"
    else if tool == "Bash" then "\U{1F4BB}"
    else if tool == "Glob" then "\U{1F50D}"
    else if tool == "Grep" then "\U{1F50E}"
    else "\U{1F527}"
  }

  /** One `"{icon} {tool}"` item per tool, in order. */
  function Indicators(tools: seq<string>): (r: seq<string>)
    ensures |r| == |tools|
    ensures forall i | 0 <= i < |tools| :: r[i] == Icon(tools[i]) + " " + tools[i]
  {
    if tools == [] then [] else Indicators(tools[..|tools| - 1]) + [Icon(tools[|tools| - 1]) + " " + tools[|tools| - 1]]
  }

  /** The indicator line: each distinct tool once, in first-occurrence order. */
  function ToolIndicatorLine(tools: seq<string>): string {
    if tools == [] then "" else "Tools used: " + Join(" | ", Indicators(FirstOccurrences(tools)))
  }

  /** Tools whose names end in a visible character. */
  predicate PlainNames(tools: seq<string>) {
    forall i | 0 <= i < |tools| :: tools[i] != "" && !IsSpace(tools[i][|tools[i]| - 1])
  }

  /** The line of plain tool names starts with `Tools used:` and ends in a visible character. */
  lemma ToolIndicatorLineEnds(tools: seq<string>)
    requires tools != [] && PlainNames(tools)
    ensures var l := ToolIndicatorLine(tools); l != "" && l[0] == 'T' && !IsSpace(l[|l| - 1])
  {
    var u := FirstOccurrences(tools);
    assert tools[0] in u;
    PlainLast(tools, u[|u| - 1]);
    JoinedItemsEnd(u);
    var j := Join(" | ", Indicators(u));
    var l := "Tools used: " + j;
    assert l[|l| - 1] == j[|j| - 1];
  }

  /** Joined items end with the last tool's name. */
  lemma JoinedItemsEnd(u: seq<string>)
    requires u != [] && u[|u| - 1] != ""
    ensures var j := Join(" | ", Indicators(u)); j != "" && j[|j| - 1] == u[|u| - 1][|u[|u| - 1]| - 1]
  {
    var t := u[|u| - 1];
    var items := Indicators(u);
    ItemEnd(t);
    JoinEnd(" | ", items);
  }

  /**
   * Asked for tool indicators, a response that used tools with plain names
   * ends in the `Tools used:` line, and its text is therefore never blank.
   */
  lemma IndicatedText(config: ExecutorConfig, ms: seq<Message>)
    requires config.includeToolIndicators && ToolUses(ms) != [] && PlainNames(ToolUses(ms))
    ensures var text := Response(config, ms).text;
      && text == TrimStart(Concat(TextParts(ms, config.thinkingMode)) + "\n\n") + ToolIndicatorLine(ToolUses(ms))
      && !IsBlank(text)
  {
    IndicatedFinalText(config, TextParts(ms, config.thinkingMode), ToolUses(ms));
  }

  /** The final text of plain tools ends in their indicator line. */
  lemma IndicatedFinalText(config: ExecutorConfig, parts: seq<string>, tools: seq<string>)
    requires config.includeToolIndicators && tools != [] && PlainNames(tools)
    ensures var text := FinalText(config, parts, tools);
      text == TrimStart(Concat(parts) + "\n\n") + ToolIndicatorLine(tools) && !IsBlank(text)
  {
    var line := ToolIndicatorLine(tools);
    ToolIndicatorLineEnds(tools);
    var x := Concat(parts) + "\n\n";
    StripThrough(x, line);
    var text := TrimStart(x) + line;
    assert text[|text| - 1] == line[|line| - 1];
  }

  /** A tool of a plain list has a plain name. */
  lemma PlainLast(tools: seq<string>, t: string)
    requires PlainNames(tools) && t in tools
    ensures t != "" && !IsSpace(t[|t| - 1])
  {
    var i :| 0 <= i < |tools| && tools[i] == t;
  }

  /** The item of a tool ends with the tool's name. */
  lemma ItemEnd(t: string)
    requires t != ""
    ensures var item := Icon(t) + " " + t; item != "" && item[|item| - 1] == t[|t| - 1]
  {
  }

  /** The line is empty exactly for an empty tool list. */
  lemma ToolIndicatorLineEmpty(tools: seq<string>)
    ensures ToolIndicatorLine(tools) == "" <==> tools == []
  {
    if tools != [] {
      assert |ToolIndicatorLine(tools)| >= |"Tools used: "|;
    }
  }

  /** Repeated tools do not change the line: it depends only on the distinct tools in order. */
  lemma ToolIndicatorLineDedup(tools: seq<string>)
    ensures ToolIndicatorLine(FirstOccurrences(tools)) == ToolIndicatorLine(tools)
  {
    FirstOccurrencesIdempotent(tools);
    if tools != [] {
      assert tools[0] in FirstOccurrences(tools);
    }
  }

  /** A tool used again later does not change the line. */
  lemma ToolIndicatorLineRepeat(tools: seq<string>, t: string)
    requires t in tools
    ensures ToolIndicatorLine(tools + [t]) == ToolIndicatorLine(tools)
  {
    FirstOccurrencesAppendSeen(tools, t);
  }

  // ---------------------------------------------------------------------
  // The final response
  // ---------------------------------------------------------------------

  /** The response text: the joined parts, the indicator line when asked for and tools were used, stripped. */
  function FinalText(config: ExecutorConfig, parts: seq<string>, tools: seq<string>): string {
    var text := Concat(parts);
    Strip(if config.includeToolIndicators && tools != [] then text + "\n\n" + ToolIndicatorLine(tools) else text)
  }

  /** The response `get_final_response` builds after the messages `ms`. */
  function Response(config: ExecutorConfig, ms: seq<Message>): ProcessedResponse {
    ProcessedResponse(
      FinalText(config, TextParts(ms, config.thinkingMode), ToolUses(ms)),
      ToolUses(ms),
      ThinkingBlocks(ms),
      LastSessionId(ms),
      map[],
      if config.responseMode == BufferAll then ms else [])
  }

  /**
   * `ResponseProcessor`. Its accumulators grow as messages arrive; `Valid`
   * ties each of them to the specification function of `rawMessages`.
   */
  class ResponseProcessor {
    const config: ExecutorConfig
    const hub: Hub
    var textParts: seq<string>
    var toolUses: seq<string>
    var thinkingBlocks: seq<string>
    var sessionId: Option<string>
    var rawMessages: seq<Message>

    ghost predicate Valid()
      reads this
    {
      Accumulates(rawMessages)
    }

    /** The accumulators agree with the specification functions of `ms`. */
    ghost predicate Accumulates(ms: seq<Message>)
      reads this
    {
      && textParts == TextParts(ms, config.thinkingMode)
      && toolUses == ToolUses(ms)
      && thinkingBlocks == ThinkingBlocks(ms)
      && sessionId == LastSessionId(ms)
    }

    constructor(config: ExecutorConfig, hub: Hub)
      ensures this.config == config && this.hub == hub
      ensures Valid() && rawMessages == []
    {
      this.config := config;
      this.hub := hub;
      textParts := [];
      toolUses := [];
      thinkingBlocks := [];
      sessionId := None;
      rawMessages := [];
    }

    /** Records `m`, reports it to the hub, then folds it into the accumulators. */
    method ProcessMessage(m: Message)
      requires Valid()
      modifies this, hub, hub.backends
      ensures Valid()
      ensures rawMessages == old(rawMessages) + [m]
      ensures hub.Broadcasted(MessageReceived(config, m))
    {
      var before := rawMessages;
      rawMessages := rawMessages + [m];
      hub.LogMessageReceived(config, m);
      FoldMessage(before, m);
    }

    /** The accumulator updates of `process_message`, for `m` arriving after `before`. */
    method FoldMessage(before: seq<Message>, m: Message)
      requires Accumulates(before) && rawMessages == before + [m]
      modifies this
      ensures Valid() && rawMessages == old(rawMessages)
    {
      MessageStep(before, m, config.thinkingMode);
      if m.AssistantMessage? {
        ProcessBlocks(m.content);
      } else if m.ResultMessage? {
        sessionId := Some(m.sessionId);
      }
    }

    /** The block loop of `process_message` for an assistant message. */
    method ProcessBlocks(blocks: seq<Block>)
      modifies this
      ensures textParts == old(textParts) + BlocksTextParts(blocks, config.thinkingMode)
      ensures toolUses == old(toolUses) + BlocksToolUses(blocks)
      ensures thinkingBlocks == old(thinkingBlocks) + BlocksThinking(blocks)
      ensures sessionId == old(sessionId) && rawMessages == old(rawMessages)
    {
      var i := 0;
      while i < |blocks|
        invariant 0 <= i <= |blocks|
        invariant textParts == old(textParts) + BlocksTextParts(blocks[..i], config.thinkingMode)
        invariant toolUses == old(toolUses) + BlocksToolUses(blocks[..i])
        invariant thinkingBlocks == old(thinkingBlocks) + BlocksThinking(blocks[..i])
        invariant sessionId == old(sessionId) && rawMessages == old(rawMessages)
      {
        BlockStep(blocks, i, config.thinkingMode);
        ProcessBlock(blocks[i]);
        i := i + 1;
      }
      assert blocks[..i] == blocks;
    }

    /** One pass of the block loop: `b` contributes to the accumulator of its kind. */
    method ProcessBlock(b: Block)
      modifies this
      ensures textParts == old(textParts) + BlockTextParts(b, config.thinkingMode)
      ensures toolUses == old(toolUses) + (if b.ToolUseBlock? then [b.name] else [])
      ensures thinkingBlocks == old(thinkingBlocks) + (if b.ThinkingBlock? then [b.thinking] else [])
      ensures sessionId == old(sessionId) && rawMessages == old(rawMessages)
    {
      match b {
        case TextBlock(t) =>
          textParts := textParts + [t];
        case ThinkingBlock(t) =>
          thinkingBlocks := thinkingBlocks + [t];
          if config.thinkingMode == Include {
            textParts := textParts + [ThinkingMarker(t)];
          }
        case ToolUseBlock(_, name, _) =>
          toolUses := toolUses + [name];
        case _ =>
      }
    }

    /** `get_final_response`, over the accumulators. */
    function GetFinalResponse(): (r: ProcessedResponse)
      reads this
      requires Valid()
      ensures r == Response(config, rawMessages)
    {
      ProcessedResponse(
        FinalText(config, textParts, toolUses),
        toolUses,
        thinkingBlocks,
        sessionId,
        map[],
        if config.responseMode == BufferAll then rawMessages else [])
    }
  }

  /** How one more block extends each block accumulator. */
  lemma BlockStep(bs: seq<Block>, i: nat, mode: ThinkingMode)
    requires i < |bs|
    ensures BlocksTextParts(bs[..i + 1], mode) == BlocksTextParts(bs[..i], mode) + BlockTextParts(bs[i], mode)
    ensures BlocksToolUses(bs[..i + 1]) == BlocksToolUses(bs[..i]) + (if bs[i].ToolUseBlock? then [bs[i].name] else [])
    ensures BlocksThinking(bs[..i + 1]) == BlocksThinking(bs[..i]) + (if bs[i].ThinkingBlock? then [bs[i].thinking] else [])
  {
    assert bs[..i + 1][..i] == bs[..i];
  }

  /** How one more message extends each accumulator. */
  lemma MessageStep(ms: seq<Message>, m: Message, mode: ThinkingMode)
    ensures TextParts(ms + [m], mode) == TextParts(ms, mode) + (if m.AssistantMessage? then BlocksTextParts(m.content, mode) else [])
    ensures ToolUses(ms + [m]) == ToolUses(ms) + (if m.AssistantMessage? then BlocksToolUses(m.content) else [])
    ensures ThinkingBlocks(ms + [m]) == ThinkingBlocks(ms) + (if m.AssistantMessage? then BlocksThinking(m.content) else [])
    ensures LastSessionId(ms + [m]) == if m.ResultMessage? then Some(m.sessionId) else LastSessionId(ms)
  {
    assert (ms + [m])[..|ms|] == ms;
  }

  /** `_format_tool_indicators`: deduplication with a `seen` set, then the icon items joined. */
  method FormatToolIndicators(tools: seq<string>) returns (line: string)
    ensures line == ToolIndicatorLine(tools)
  {
    if tools == [] {
      return "";
    }
    var unique: seq<string> := [];
    var seen: set<string> := {};
    var i := 0;
    while i < |tools|
      invariant 0 <= i <= |tools|
      invariant unique == FirstOccurrences(tools[..i])
      invariant forall t :: t in seen <==> t in tools[..i]
    {
      var t := tools[i];
      assert tools[..i + 1] == tools[..i] + [t];
      if t !in seen {
        FirstOccurrencesAppendNew(tools[..i], t);
        unique := unique + [t];
        seen := seen + {t};
      } else {
        FirstOccurrencesAppendSeen(tools[..i], t);
      }
      i := i + 1;
    }
    assert tools[..i] == tools;
    var items := IndicatorItems(unique);
    line := "Tools used: " + Join(" | ", items);
  }

  /** The list comprehension of `_format_tool_indicators`: one icon item per tool. */
  method IndicatorItems(unique: seq<string>) returns (items: seq<string>)
    ensures items == Indicators(unique)
  {
    items := [];
    var j := 0;
    while j < |unique|
      invariant 0 <= j <= |unique|
      invariant items == Indicators(unique[..j])
    {
      assert unique[..j + 1][..j] == unique[..j];
      items := items + [Icon(unique[j]) + " " + unique[j]];
      j := j + 1;
    }
    assert unique[..j] == unique;
  }

  // ---------------------------------------------------------------------
  // Facts about the accumulated response
  // ---------------------------------------------------------------------

  /** Text parts of consecutive stretches of blocks concatenate. */
  lemma {:induction false} BlocksTextPartsAppend(a: seq<Block>, b: seq<Block>, mode: ThinkingMode)
    ensures BlocksTextParts(a + b, mode) == BlocksTextParts(a, mode) + BlocksTextParts(b, mode)
    decreases |b|
  {
    if b != [] {
      var b' := b[..|b| - 1];
      assert (a + b)[..|a + b| - 1] == a + b';
      assert (a + b)[|a + b| - 1] == b[|b| - 1];
      BlocksTextPartsAppend(a, b', mode);
    } else {
      assert a + b == a;
    }
  }

  /** Thinking fragments of consecutive stretches of blocks concatenate. */
  lemma {:induction false} BlocksThinkingAppend(a: seq<Block>, b: seq<Block>)
    ensures BlocksThinking(a + b) == BlocksThinking(a) + BlocksThinking(b)
    decreases |b|
  {
    if b != [] {
      var b' := b[..|b| - 1];
      assert (a + b)[..|a + b| - 1] == a + b';
      assert (a + b)[|a + b| - 1] == b[|b| - 1];
      BlocksThinkingAppend(a, b');
    } else {
      assert a + b == a;
    }
  }

  /** Text parts of consecutive stretches of the stream concatenate: the processor's text is built in arrival order. */
  lemma {:induction false} TextPartsAppend(a: seq<Message>, b: seq<Message>, mode: ThinkingMode)
    ensures TextParts(a + b, mode) == TextParts(a, mode) + TextParts(b, mode)
    decreases |b|
  {
    if b != [] {
      var b' := b[..|b| - 1];
      assert (a + b)[..|a + b| - 1] == a + b';
      assert (a + b)[|a + b| - 1] == b[|b| - 1];
      TextPartsAppend(a, b', mode);
    } else {
      assert a + b == a;
    }
  }

  /** Tool names of consecutive stretches of the stream concatenate, duplicates kept. */
  lemma {:induction false} ToolUsesAppend(a: seq<Message>, b: seq<Message>)
    ensures ToolUses(a + b) == ToolUses(a) + ToolUses(b)
    decreases |b|
  {
    if b != [] {
      var b' := b[..|b| - 1];
      assert (a + b)[..|a + b| - 1] == a + b';
      assert (a + b)[|a + b| - 1] == b[|b| - 1];
      ToolUsesAppend(a, b');
    } else {
      assert a + b == a;
    }
  }

  /** Thinking fragments of consecutive stretches of the stream concatenate. */
  lemma {:induction false} ThinkingBlocksAppend(a: seq<Message>, b: seq<Message>)
    ensures ThinkingBlocks(a + b) == ThinkingBlocks(a) + ThinkingBlocks(b)
    decreases |b|
  {
    if b != [] {
      var b' := b[..|b| - 1];
      assert (a + b)[..|a + b| - 1] == a + b';
      assert (a + b)[|a + b| - 1] == b[|b| - 1];
      ThinkingBlocksAppend(a, b');
    } else {
      assert a + b == a;
    }
  }

  /**
   * A message that is neither an assistant nor a result message leaves every
   * accumulator except the raw message list unchanged.
   */
  lemma PassiveMessage(ms: seq<Message>, m: Message, mode: ThinkingMode)
    requires !m.AssistantMessage? && !m.ResultMessage?
    ensures TextParts(ms + [m], mode) == TextParts(ms, mode)
    ensures ToolUses(ms + [m]) == ToolUses(ms)
    ensures ThinkingBlocks(ms + [m]) == ThinkingBlocks(ms)
    ensures LastSessionId(ms + [m]) == LastSessionId(ms)
  {
    assert (ms + [m])[..|ms|] == ms;
  }

  /** A tool-result block (or any other non-text, non-thinking, non-tool-use block) contributes nothing. */
  lemma PassiveBlock(bs: seq<Block>, b: Block, mode: ThinkingMode)
    requires b.ToolResultBlock? || b.OtherBlock?
    ensures BlocksTextParts(bs + [b], mode) == BlocksTextParts(bs, mode)
    ensures BlocksToolUses(bs + [b]) == BlocksToolUses(bs)
    ensures BlocksThinking(bs + [b]) == BlocksThinking(bs)
  {
    assert (bs + [b])[..|bs|] == bs;
  }

  /** EXCLUDE and LOG_ONLY build the same text. */
  lemma {:induction false} BlocksExcludeIsLogOnly(bs: seq<Block>)
    ensures BlocksTextParts(bs, Exclude) == BlocksTextParts(bs, LogOnly)
  {
    if bs != [] {
      BlocksExcludeIsLogOnly(bs[..|bs| - 1]);
    }
  }

  /** EXCLUDE and LOG_ONLY give the same response: they differ from INCLUDE only in the text. */
  lemma {:induction false} ExcludeIsLogOnly(config: ExecutorConfig, ms: seq<Message>)
    requires config.thinkingMode == Exclude
    ensures Response(config, ms) == Response(config.(thinkingMode := LogOnly), ms)
  {
    ExcludeTextParts(ms);
  }

  lemma {:induction false} ExcludeTextParts(ms: seq<Message>)
    ensures TextParts(ms, Exclude) == TextParts(ms, LogOnly)
  {
    if ms != [] {
      ExcludeTextParts(ms[..|ms| - 1]);
      var m := ms[|ms| - 1];
      if m.AssistantMessage? {
        BlocksExcludeIsLogOnly(m.content);
      }
    }
  }

  /** The concatenated texts of the text blocks of a block list. */
  function BlocksText(bs: seq<Block>): string {
    if bs == [] then ""
    else BlocksText(bs[..|bs| - 1]) + (if bs[|bs| - 1].TextBlock? then bs[|bs| - 1].text else "")
  }

  /** The concatenated texts of all text blocks of all assistant messages, in arrival order. */
  function AssistantText(ms: seq<Message>): string {
    if ms == [] then ""
    else AssistantText(ms[..|ms| - 1]) + (if ms[|ms| - 1].AssistantMessage? then BlocksText(ms[|ms| - 1].content) else "")
  }

  lemma {:induction false} BlocksExcludeText(bs: seq<Block>)
    ensures Concat(BlocksTextParts(bs, Exclude)) == BlocksText(bs)
  {
    if bs != [] {
      var init := bs[..|bs| - 1];
      BlocksExcludeText(init);
      ConcatAppend(BlocksTextParts(init, Exclude), BlockTextParts(bs[|bs| - 1], Exclude));
    }
  }

  /**
   * Without thinking in the text, the joined parts are exactly the texts of
   * the text blocks of the assistant messages, in arrival order.
   */
  lemma {:induction false} ExcludeText(ms: seq<Message>)
    ensures Concat(TextParts(ms, Exclude)) == AssistantText(ms)
  {
    if ms != [] {
      var init := ms[..|ms| - 1];
      var m := ms[|ms| - 1];
      ExcludeText(init);
      var last := if m.AssistantMessage? then BlocksTextParts(m.content, Exclude) else [];
      ConcatAppend(TextParts(init, Exclude), last);
      if m.AssistantMessage? {
        BlocksExcludeText(m.content);
      }
    }
  }

  /**
   * With INCLUDE, a thinking block adds its marker to the text at its
   * position; with the other modes it adds nothing. In every mode the
   * fragment itself is recorded.
   */
  lemma ThinkingBlockEffect(ms: seq<Message>, before: seq<Block>, t: string, after: seq<Block>, mode: ThinkingMode)
    ensures var m := AssistantMessage(before + [ThinkingBlock(t)] + after);
      && TextParts(ms + [m], mode) == TextParts(ms, mode) + BlocksTextParts(before, mode)
           + (if mode == Include then [ThinkingMarker(t)] else []) + BlocksTextParts(after, mode)
      && ThinkingBlocks(ms + [m]) == ThinkingBlocks(ms) + BlocksThinking(before) + [t] + BlocksThinking(after)
  {
    var b := ThinkingBlock(t);
    var bs := before + [b] + after;
    MessageStep(ms, AssistantMessage(bs), mode);
    BlockInside(before, b, after, mode);
    var marker := BlockTextParts(b, mode);
    assert marker == (if mode == Include then [ThinkingMarker(t)] else []);
    var p, q := BlocksTextParts(before, mode), BlocksTextParts(after, mode);
    Regroup(TextParts(ms, mode), p, marker, q);
    Regroup(ThinkingBlocks(ms), BlocksThinking(before), [t], BlocksThinking(after));
  }

  /** A block between two stretches of blocks contributes its own parts at its position. */
  lemma BlockInside(before: seq<Block>, b: Block, after: seq<Block>, mode: ThinkingMode)
    ensures BlocksTextParts(before + [b] + after, mode)
      == BlocksTextParts(before, mode) + BlockTextParts(b, mode) + BlocksTextParts(after, mode)
    ensures BlocksThinking(before + [b] + after)
      == BlocksThinking(before) + (if b.ThinkingBlock? then [b.thinking] else []) + BlocksThinking(after)
  {
    BlocksTextPartsAppend(before + [b], after, mode);
    BlocksThinkingAppend(before + [b], after);
    BlockStep(before + [b], |before|, mode);
    assert (before + [b])[..|before| + 1] == before + [b];
    assert (before + [b])[..|before|] == before;
  }

  /** Without indicators, or without tools, the response text is the stripped joined parts. */
  lemma NoIndicator(config: ExecutorConfig, ms: seq<Message>)
    requires !config.includeToolIndicators || ToolUses(ms) == []
    ensures Response(config, ms).text == Strip(Concat(TextParts(ms, config.thinkingMode)))
  {
  }

  /** The response text never starts or ends with whitespace. */
  lemma ResponseTextStripped(config: ExecutorConfig, ms: seq<Message>)
    ensures Strip(Response(config, ms).text) == Response(config, ms).text
  {
    StripIdempotent(Concat(TextParts(ms, config.thinkingMode)) + "\n\n" + ToolIndicatorLine(ToolUses(ms)));
    StripIdempotent(Concat(TextParts(ms, config.thinkingMode)));
  }

  // ---------------------------------------------------------------------
  // SDK options and the execution
  // ---------------------------------------------------------------------

  /** `_build_options`: the keyword arguments passed to the SDK options. */
  method BuildOptions(config: ExecutorConfig) returns (options: map<string, Value>)
    ensures "cwd" in options <==> Truthy(config.cwd)
    ensures "cwd" in options ==> options["cwd"] == Str(config.cwd.value)
    ensures "resume" in options <==> Truthy(config.sessionId)
    ensures "resume" in options ==> options["resume"] == Str(config.sessionId.value)
    ensures "system_prompt" in options <==> Truthy(config.systemPrompt)
    ensures "system_prompt" in options ==> options["system_prompt"] == Str(config.systemPrompt.value)
    ensures "allowed_tools" in options <==> TruthyList(config.allowedTools)
    ensures "allowed_tools" in options ==> options["allowed_tools"] == StrList(config.allowedTools.value)
    ensures "setting_sources" in options && options["setting_sources"] == StrList(["project", "user", "local"])
    ensures options.Keys <= {"cwd", "resume", "system_prompt", "allowed_tools", "setting_sources"}
  {
    options := map[];
    if Truthy(config.cwd) {
      options := options["cwd" := Str(config.cwd.value)];
    }
    if Truthy(config.sessionId) {
      options := options["resume" := Str(config.sessionId.value)];
    }
    if Truthy(config.systemPrompt) {
      options := options["system_prompt" := Str(config.systemPrompt.value)];
    }
    if TruthyList(config.allowedTools) {
      options := options["allowed_tools" := StrList(config.allowedTools.value)];
    }
    options := options["setting_sources" := StrList(["project", "user", "local"])];
  }

  /** The hub events for each message of `ms`, in order. */
  function MessageEvents(config: ExecutorConfig, ms: seq<Message>): (r: seq<HubEvent>)
    ensures |r| == |ms|
    ensures forall i | 0 <= i < |ms| :: r[i] == MessageReceived(config, ms[i])
  {
    if ms == [] then [] else MessageEvents(config, ms[..|ms| - 1]) + [MessageReceived(config, ms[|ms| - 1])]
  }

  /** The response of a successful execution: the processor's response with its duration. */
  function Completed(config: ExecutorConfig, ms: seq<Message>, durationMs: int): ProcessedResponse {
    Response(config, ms).(metrics := map["duration_ms" := durationMs])
  }

  lemma MessageEventsStep(config: ExecutorConfig, ms: seq<Message>, i: nat)
    requires i < |ms|
    ensures MessageEvents(config, ms[..i + 1]) == MessageEvents(config, ms[..i]) + [MessageReceived(config, ms[i])]
    ensures ms[..i + 1] == ms[..i] + [ms[i]]
  {
    assert ms[..i + 1][..i] == ms[..i];
  }

  /** The `async for` loop of `execute`: a fresh processor fed every received message. */
  method ProcessAll(hub: Hub, config: ExecutorConfig, received: seq<Message>) returns (processor: ResponseProcessor)
    modifies hub, hub.backends
    ensures fresh(processor) && processor.Valid()
    ensures processor.config == config && processor.rawMessages == received
    ensures hub.log == old(hub.log) + MessageEvents(config, received)
  {
    processor := new ResponseProcessor(config, hub);
    var i := 0;
    while i < |received|
      invariant 0 <= i <= |received|
      invariant fresh(processor)
      invariant processor.Valid() && processor.config == config && processor.hub == hub
      invariant processor.rawMessages == received[..i]
      invariant hub.log == old(hub.log) + MessageEvents(config, received[..i])
    {
      MessageEventsStep(config, received, i);
      processor.ProcessMessage(received[i]);
      i := i + 1;
    }
    assert received[..i] == received;
  }

  /**
   * `ClaudeExecutor.execute`. The SDK delivered `received` and then either
   * finished (`failure == None`) or raised `failure`; `durationMs` is the
   * measured duration. The hub sees the request start, every message in
   * order, and then exactly one of completion (carrying the final response)
   * or error (carrying the exception, which is re-raised).
   */
  method Execute(hub: Hub, prompt: string, config: ExecutorConfig, received: seq<Message>,
                 failure: Option<Exception>, durationMs: int)
    returns (result: Result<ProcessedResponse, Exception>)
    modifies hub, hub.backends
    ensures failure.None? ==> result == Success(Completed(config, received, durationMs))
    ensures failure.Some? ==> result == Failure(failure.value)
    ensures hub.log == old(hub.log) + [RequestStart(config, prompt)] + MessageEvents(config, received)
      + [if failure.None? then Completion(config, Completed(config, received, durationMs)) else Failed(config, failure.value)]
  {
    hub.LogRequestStart(config, prompt);
    var options := BuildOptions(config);
    var processor := ProcessAll(hub, config, received);
    if failure.Some? {
      hub.LogError(config, failure.value);
      return Failure(failure.value);
    }
    var response := processor.GetFinalResponse();
    response := response.(metrics := response.metrics["duration_ms" := durationMs]);
    hub.LogCompletion(config, response);
    return Success(response);
  }
}
