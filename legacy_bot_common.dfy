/**
 * The older shared bot code in server/bot_common.py. Its save, load,
 * set-cwd and get-cwd functions and its tool-indicator formatting are the
 * same as in bot/bot_common.py and are modelled once, in `BotCommon`. What
 * differs is modelled here: clearing a session, splitting long messages
 * with a fixed 100-character reserve, and a `process_claude_message` that
 * talks to the SDK client directly and classifies the messages itself.
 */
module LegacyBotCommon {
  import opened Wrappers
  import opened Seqs
  import opened Text
  import opened SdkTypes
  import opened SdkExecutor
  import opened BotCommon

  // ---------------------------------------------------------------------
  // Clearing a session
  // ---------------------------------------------------------------------

  /** What this copy of `clear_user_session` writes: cwd, created_at and last_updated only. */
  function LegacyClearedRecord(existing: Record, now: string): Record {
    Record(Absent, Get(existing.cwd), Absent, Get(existing.createdAt), Val(now), map[])
  }

  /** `clear_user_session`: does nothing without a file, and swallows the error of a corrupt one. */
  method ClearUserSession(store: SessionStore, user: string, platform: string, now: string)
    modifies store
    ensures var k := Key(platform, user);
      if k in old(store.files) && old(store.files)[k].Parsed? then
        store.files == old(store.files)[k := Parsed(LegacyClearedRecord(old(store.files)[k].record, now))]
      else store.files == old(store.files)
  {
    var k := Key(platform, user);
    if k in store.files {
      match store.files[k] {
        case Corrupt(_) =>
        case Parsed(data) =>
          var newData := Record(Absent, Get(data.cwd), Absent, Get(data.createdAt), Val(now), map[]);
          store.files := store.files[k := Parsed(newData)];
      }
    }
  }

  /**
   * After clearing, no session is loaded and the cwd reads as before; unlike
   * the newer copy, a stored show_thinking preference is lost.
   */
  lemma LegacyClearEffect(files: Directory, k: Key, now: string, default: string)
    requires k in files && files[k].Parsed?
    ensures var after := files[k := Parsed(LegacyClearedRecord(files[k].record, now))];
      && LoadUserSession(after, k) == None
      && GetUserCwd(after, k, default) == GetUserCwd(files, k, default)
      && !GetShowThinking(after, k)
      && after[k].record.createdAt == Get(files[k].record.createdAt)
  {
  }

  // ---------------------------------------------------------------------
  // Splitting long messages
  // ---------------------------------------------------------------------

  /** The fit threshold of this copy: the maximum less a fixed 100. */
  function Threshold(maxLength: int): int {
    maxLength - 100
  }

  /**
   * One iteration of this copy's line loop. A line that does not fit while
   * no chunk is open is not kept anywhere.
   */
  function LegacyStep(s: SplitState, line: string, maxLength: int): SplitState {
    if |s.current| + |line| + 1 > Threshold(maxLength) then
      if s.current != "" then SplitState(s.chunks + [s.current], line)
      else s
    else
      if s.current != "" then SplitState(s.chunks, s.current + "\n" + line)
      else SplitState(s.chunks, line)
  }

  function LegacyFold(lines: seq<string>, maxLength: int): SplitState {
    if lines == [] then SplitState([], "")
    else LegacyStep(LegacyFold(lines[..|lines| - 1], maxLength), lines[|lines| - 1], maxLength)
  }

  /** `split_long_message` as written in server/bot_common.py. */
  function LegacySplit(text: string, maxLength: int): seq<string> {
    if |text| <= maxLength then [text]
    else Finish(LegacyFold(Lines(text), maxLength))
  }

  /** The loop of this copy of `split_long_message`. */
  method LegacySplitLongMessage(text: string, maxLength: int) returns (chunks: seq<string>)
    ensures chunks == LegacySplit(text, maxLength)
  {
    if |text| <= maxLength {
      return [text];
    }
    chunks := [];
    var current := "";
    var lines := Lines(text);
    var i := 0;
    while i < |lines|
      invariant 0 <= i <= |lines|
      invariant SplitState(chunks, current) == LegacyFold(lines[..i], maxLength)
    {
      var line := lines[i];
      assert lines[..i + 1][..i] == lines[..i];
      if |current| + |line| + 1 > maxLength - 100 {
        if current != "" {
          chunks := chunks + [current];
          current := line;
        }
      } else {
        if current != "" {
          current := current + "\n" + line;
        } else {
          current := line;
        }
      }
      i := i + 1;
    }
    assert lines[..i] == lines;
    if current != "" {
      chunks := chunks + [current];
    }
  }

  /** Finished chunks are non-empty and fit the threshold, and so does the open chunk. */
  lemma {:induction false} LegacyFoldShape(lines: seq<string>, maxLength: int)
    requires forall i | 0 <= i < |lines| :: '\n' !in lines[i]
    ensures var s := LegacyFold(lines, maxLength);
      && (forall j | 0 <= j < |s.chunks| :: s.chunks[j] != "" && Fits(s.chunks[j], Threshold(maxLength)))
      && Fits(s.current, Threshold(maxLength))
  {
    if lines != [] {
      LegacyFoldShape(lines[..|lines| - 1], maxLength);
    }
  }

  /**
   * This copy returns the text itself when it fits; otherwise every chunk is
   * non-empty, and a chunk of several lines is within the maximum less 100.
   */
  lemma LegacySplitChunks(text: string, maxLength: int)
    ensures |text| <= maxLength ==> LegacySplit(text, maxLength) == [text]
    ensures |text| > maxLength ==> forall j | 0 <= j < |LegacySplit(text, maxLength)| ::
      LegacySplit(text, maxLength)[j] != "" && Fits(LegacySplit(text, maxLength)[j], Threshold(maxLength))
  {
    if |text| > maxLength {
      LegacyFoldShape(Lines(text), maxLength);
    }
  }

  /** With a threshold of at most zero no line ever fits, so the loop never opens a chunk. */
  lemma {:induction false} LegacyFoldNothingFits(lines: seq<string>, maxLength: int)
    requires maxLength <= 100
    ensures LegacyFold(lines, maxLength) == SplitState([], "")
  {
    if lines != [] {
      LegacyFoldNothingFits(lines[..|lines| - 1], maxLength);
    }
  }

  /** For a maximum of at most 100, any text longer than the maximum is split into nothing. */
  lemma LegacySplitLosesEverything(text: string, maxLength: int)
    requires maxLength <= 100 && |text| > maxLength
    ensures LegacySplit(text, maxLength) == []
  {
    LegacyFoldNothingFits(Lines(text), maxLength);
  }

  /** A single line of 151 characters. */
  function LongLine(): (r: string)
    ensures |r| == 151 && '\n' !in r
  {
    Repeat('a', 151)
  }

  /**
   * A single line longer than the threshold is lost even when the maximum
   * leaves room for other text: at maximum 150, a 151-character line gives
   * no chunk at all, while the corrected split keeps it as a chunk of its own.
   */
  lemma LegacySplitDropsLongLine()
    ensures LegacySplit(LongLine(), 150) == []
    ensures Split(LongLine(), 150) == [LongLine()]
  {
    var text := LongLine();
    LinesOfLine(text);
    assert LegacyFold([text], 150) == LegacyStep(LegacyFold([], 150), text, 150);
    assert SplitFold([text], EffectiveLimit(150)) == SplitStep(SplitFold([], EffectiveLimit(150)), text, EffectiveLimit(150));
  }

  // ---------------------------------------------------------------------
  // Processing a chat message
  // ---------------------------------------------------------------------

  /**
   * The options this copy passes to the SDK client: cwd, system prompt and
   * tools always, and `resume` only when a stored session was loaded.
   */
  function LegacyOptions(files: Directory, k: Key, systemPrompt: Option<string>,
                         allowedTools: Option<seq<string>>, default: string): (r: map<string, Value>)
    ensures "resume" in r <==> LoadUserSession(files, k).Some?
    ensures "resume" in r ==> r["resume"] == Str(LoadUserSession(files, k).value.0)
    ensures "cwd" in r && r["cwd"] == Str(GetUserCwd(files, k, default))
    ensures "system_prompt" in r
      && r["system_prompt"] == Str(if Truthy(systemPrompt) then systemPrompt.value else DefaultSystemPrompt)
    ensures "allowed_tools" in r
      && r["allowed_tools"] == StrList(if TruthyList(allowedTools) then allowedTools.value else DefaultTools)
    ensures r.Keys <= {"cwd", "system_prompt", "allowed_tools", "resume"}
  {
    var loaded := LoadUserSession(files, k);
    var options := map[
      "cwd" := Str(MessageCwd(files, k, default)),
      "system_prompt" := Str(if Truthy(systemPrompt) then systemPrompt.value else DefaultSystemPrompt),
      "allowed_tools" := StrList(if TruthyList(allowedTools) then allowedTools.value else DefaultTools)];
    if loaded.Some? && loaded.value.0 != "" then options["resume" := Str(loaded.value.0)] else options
  }

  /** The block loop of the collection loop: texts and tool names of one assistant message. */
  method CollectBlocks(blocks: seq<Block>) returns (parts: seq<string>, tools: seq<string>)
    ensures parts == BlocksTextParts(blocks, Exclude)
    ensures tools == BlocksToolUses(blocks)
  {
    parts, tools := [], [];
    var i := 0;
    while i < |blocks|
      invariant 0 <= i <= |blocks|
      invariant parts == BlocksTextParts(blocks[..i], Exclude)
      invariant tools == BlocksToolUses(blocks[..i])
    {
      BlockStep(blocks, i, Exclude);
      match blocks[i] {
        case TextBlock(t) => parts := parts + [t];
        case ToolUseBlock(_, name, _) => tools := tools + [name];
        case _ =>
      }
      i := i + 1;
    }
    assert blocks[..i] == blocks;
  }

  /**
   * The collection loop of `process_claude_message`: the response is the
   * in-order concatenation of the text blocks, the tool names are kept in
   * order with duplicates, and the new session id is that of the last
   * result message.
   */
  method CollectResponse(received: seq<Message>) returns (response: string, tools: seq<string>, newSessionId: Option<string>)
    ensures response == AssistantText(received)
    ensures tools == ToolUses(received)
    ensures newSessionId == LastSessionId(received)
  {
    var parts: seq<string> := [];
    tools := [];
    newSessionId := None;
    var i := 0;
    while i < |received|
      invariant 0 <= i <= |received|
      invariant parts == TextParts(received[..i], Exclude)
      invariant tools == ToolUses(received[..i])
      invariant newSessionId == LastSessionId(received[..i])
    {
      var m := received[i];
      assert received[..i + 1] == received[..i] + [m];
      MessageStep(received[..i], m, Exclude);
      if m.AssistantMessage? {
        var blockParts, blockTools := CollectBlocks(m.content);
        parts := parts + blockParts;
        tools := tools + blockTools;
      } else if m.ResultMessage? {
        newSessionId := Some(m.sessionId);
      }
      i := i + 1;
    }
    assert received[..i] == received;
    response := Concat(parts);
    ExcludeText(received);
  }

  /**
   * This copy's `process_claude_message`. The SDK delivered `received` and
   * then either finished or raised `failure`, which propagates. The session
   * is saved only when a new session id exists, with the resolved cwd.
   */
  method ProcessClaudeMessage(store: SessionStore, user: string, platform: string, systemPrompt: Option<string>,
                              allowedTools: Option<seq<string>>, defaultCwd: string, now: string,
                              received: seq<Message>, failure: Option<Exception>)
    returns (options: map<string, Value>, reply: Result<(string, seq<string>, Option<string>), Exception>)
    modifies store
    ensures options == LegacyOptions(old(store.files), Key(platform, user), systemPrompt, allowedTools, defaultCwd)
    ensures failure.Some? ==> reply == Failure(failure.value) && store.files == old(store.files)
    ensures failure.None? && !Truthy(LastSessionId(received)) ==>
      reply == Success((ReplyText(AssistantText(received)), ToolUses(received), LastSessionId(received)))
      && store.files == old(store.files)
    ensures failure.None? && Truthy(LastSessionId(received)) ==>
      var k := Key(platform, user);
      if IsCorrupt(old(store.files), k) then reply == Failure(DecodeError(old(store.files)[k])) && store.files == old(store.files)
      else (reply == Success((ReplyText(AssistantText(received)), ToolUses(received), LastSessionId(received)))
        && store.files == old(store.files)[k := Parsed(SavedRecord(Stored(old(store.files), k),
             LastSessionId(received).value, Some(GetUserCwd(old(store.files), k, defaultCwd)), now))])
  {
    var k := Key(platform, user);
    var cwd := MessageCwd(store.files, k, defaultCwd);
    options := LegacyOptions(store.files, k, systemPrompt, allowedTools, defaultCwd);
    var fullResponse, toolUses, newSessionId := CollectResponse(received);
    if failure.Some? {
      return options, Failure(failure.value);
    }
    if IsBlank(fullResponse) {
      fullResponse := Placeholder;
    }
    if Truthy(newSessionId) {
      var error := store.SaveUserSession(user, newSessionId.value, Some(cwd), platform, now);
      if error.Some? {
        return options, Failure(error.value);
      }
    }
    return options, Success((fullResponse, toolUses, newSessionId));
  }
}
