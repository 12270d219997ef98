/**
 * What the Slack and the Telegram bot do alike around the shared bot code:
 * the tool-indicator suffix of a reply, the `/showthinking` decision once
 * the argument is read, and the numbering of continued messages, whose
 * marker each bot decorates in its own way.
 *
 * Both bots import `set_show_thinking` and `get_show_thinking`, which only
 * bot/bot_common.py defines, so the bots are modelled on `BotCommon`.
 */
module ChatBots {
  import opened Wrappers
  import opened Text
  import opened SdkTypes
  import opened BotCommon
  import SdkExecutor

  /**
   * `if tool_uses: response_text += format_tool_indicators(tool_uses)`:
   * guarding the suffix changes nothing, since the suffix of no tools is empty.
   */
  function WithIndicators(text: string, tools: seq<string>): (r: string)
    ensures r == text + FormatToolIndicators(tools)
    ensures tools == [] <==> r == text
  {
    FormatToolIndicatorsShape(tools);
    assert text + "" == text;
    if tools != [] then text + FormatToolIndicators(tools) else text
  }

  /**
   * What a chat message is answered with, given the outcome of the SDK call
   * and the session files before it: the reply text with its tool
   * indicators, or the exception to report. The exception is the SDK's, or
   * the decode error of a corrupt session file when the new session id has
   * to be saved.
   */
  function BotReply(outcome: Result<ProcessedResponse, Exception>, files: Directory, k: Key): (r: Result<string, Exception>)
    ensures outcome.Failure? ==> r == Failure(outcome.error)
    ensures outcome.Success? && !(Truthy(outcome.value.sessionId) && IsCorrupt(files, k)) ==>
      r == Success(ReplyText(outcome.value.text) + FormatToolIndicators(outcome.value.toolUses))
    ensures outcome.Success? && Truthy(outcome.value.sessionId) && IsCorrupt(files, k) ==>
      r == Failure(DecodeError(files[k]))
  {
    match outcome
    case Failure(e) => Failure(e)
    case Success(response) =>
      if Truthy(response.sessionId) && IsCorrupt(files, k) then Failure(DecodeError(files[k]))
      else Success(WithIndicators(ReplyText(response.text), response.toolUses))
  }

  /**
   * The session files after a chat message is answered: a successful call
   * that reports a session id saves it over the user's record, with the
   * directory the call ran in, unless that record is corrupt; every other
   * outcome writes nothing.
   */
  function FilesAfterReply(outcome: Result<ProcessedResponse, Exception>, files: Directory, k: Key,
                           default: string, now: string): Directory {
    if outcome.Success? && Truthy(outcome.value.sessionId) && !IsCorrupt(files, k)
    then files[k := Parsed(SavedRecord(Stored(files, k), outcome.value.sessionId.value, Some(GetUserCwd(files, k, default)), now))]
    else files
  }

  /**
   * After an answered message that reported a session id, the next message
   * of the same user resumes that session in the same directory, and with
   * thinking hidden, since the save drops the preference.
   */
  lemma NextMessageResumes(outcome: Result<ProcessedResponse, Exception>, files: Directory, k: Key,
                           systemPrompt: Option<string>, allowedTools: Option<seq<string>>, default: string, now: string)
    requires outcome.Success? && Truthy(outcome.value.sessionId) && BotReply(outcome, files, k).Success?
    ensures var before := MessageConfig(files, k, systemPrompt, allowedTools, default);
      var after := MessageConfig(FilesAfterReply(outcome, files, k, default, now), k, systemPrompt, allowedTools, default);
      && after.sessionId == outcome.value.sessionId
      && after.cwd == before.cwd
      && after.thinkingMode == Exclude
  {
  }

  /**
   * The chat configuration asks the executor for its own `Tools used:` line,
   * and the bot then appends its wrench suffix as well: a reply that used
   * tools with plain names lists them twice, once in each form.
   */
  lemma ToolsListedTwice(files: Directory, k: Key, systemPrompt: Option<string>, allowedTools: Option<seq<string>>,
                         default: string, ms: seq<Message>)
    requires SdkExecutor.ToolUses(ms) != [] && SdkExecutor.PlainNames(SdkExecutor.ToolUses(ms))
    requires !(Truthy(SdkExecutor.LastSessionId(ms)) && IsCorrupt(files, k))
    ensures var config := MessageConfig(files, k, systemPrompt, allowedTools, default);
      var tools := SdkExecutor.ToolUses(ms);
      BotReply(Success(SdkExecutor.Response(config, ms)), files, k) == Success(
        TrimStart(Concat(SdkExecutor.TextParts(ms, config.thinkingMode)) + "\n\n")
        + SdkExecutor.ToolIndicatorLine(tools) + FormatToolIndicators(tools))
  {
    var config := MessageConfig(files, k, systemPrompt, allowedTools, default);
    SdkExecutor.IndicatedText(config, ms);
  }

  /** What a `/showthinking` command asks for. */
  datatype ThinkingRequest = ShowStatus | Invalid | Turn(on: bool)

  /** A non-empty toggle: "on" and "off" switch, anything else is refused. */
  function DecideToggle(toggle: string): (r: ThinkingRequest)
    ensures r == Turn(true) <==> toggle == "on"
    ensures r == Turn(false) <==> toggle == "off"
    ensures r.Invalid? <==> toggle != "on" && toggle != "off"
    ensures !r.ShowStatus?
  {
    if toggle == "on" then Turn(true)
    else if toggle == "off" then Turn(false)
    else Invalid
  }

  /**
   * Carrying out a `/showthinking` request: a status request reads the
   * preference, a turn writes it, and an invalid argument touches nothing.
   */
  method ApplyThinkingRequest(store: SessionStore, user: string, platform: string, request: ThinkingRequest, now: string)
    returns (current: Option<bool>, error: Option<Exception>)
    modifies store
    ensures var k := Key(platform, user);
      && (request.ShowStatus? ==> current == Some(GetShowThinking(old(store.files), k)) && error == None && store.files == old(store.files))
      && (request.Invalid? ==> current == None && error == None && store.files == old(store.files))
      && (request.Turn? ==>
            current == None &&
            if IsCorrupt(old(store.files), k) then error == Some(DecodeError(old(store.files)[k])) && store.files == old(store.files)
            else error == None && store.files == old(store.files)[k := Parsed(ThinkingSetRecord(Stored(old(store.files), k), request.on, now))])
  {
    current, error := None, None;
    match request {
      case ShowStatus => current := Some(GetShowThinking(store.files, Key(platform, user)));
      case Invalid =>
      case Turn(on) => error := store.SetShowThinking(user, on, platform, now);
    }
  }

  predicate IsDigits(s: string) {
    forall i | 0 <= i < |s| :: '0' <= s[i] <= '9'
  }

  /** The position of the first slash of `s`, or its length when it has none. */
  function SlashPosition(s: string): (r: nat)
    ensures r <= |s|
  {
    if s == [] || s[0] == '/' then 0 else 1 + SlashPosition(s[1..])
  }

  lemma {:induction false} SlashAfterDigits(a: string, x: string)
    requires IsDigits(a)
    ensures SlashPosition(a + "/" + x) == |a|
  {
    if a != [] {
      assert (a + "/" + x)[1..] == a[1..] + "/" + x;
      SlashAfterDigits(a[1..], x);
    }
  }

  /**
   * Two numbers written in decimal after the same header and each followed
   * by a slash are equal: the slash ends the digits in both.
   */
  lemma NumberBeforeSlash(header: string, a: string, b: string, x: string, y: string)
    requires IsDigits(a) && IsDigits(b)
    requires header + a + "/" + x == header + b + "/" + y
    ensures a == b
  {
    var l := header + a + "/" + x;
    var r := header + b + "/" + y;
    assert l[|header|..] == a + "/" + x;
    assert r[|header|..] == b + "/" + y;
    var s := a + "/" + x;
    assert s == b + "/" + y;
    SlashAfterDigits(a, x);
    SlashAfterDigits(b, y);
    assert a == s[..|a|];
  }

  /**
   * The marker in front of every chunk after the first of a long reply:
   * `i` counts from one, `n` is the number of chunks, and each bot supplies
   * the text around the numbers.
   */
  function Continued(opening: string, closing: string, i: nat, n: nat): string {
    opening + NatToString(i) + "/" + NatToString(n) + closing
  }

  /** Different positions get different markers, whatever the decoration. */
  lemma ContinuedInjective(opening: string, closing: string, i: nat, j: nat, n: nat)
    requires Continued(opening, closing, i, n) == Continued(opening, closing, j, n)
    ensures i == j
  {
    var tail := NatToString(n) + closing;
    assert Continued(opening, closing, i, n) == opening + NatToString(i) + "/" + tail;
    assert Continued(opening, closing, j, n) == opening + NatToString(j) + "/" + tail;
    NumberBeforeSlash(opening, NatToString(i), NatToString(j), tail, tail);
    NatToStringInjective(i, j);
  }

  /**
   * Sending the chunks of `Split(text, maxLength)` loses no line of the
   * reply, and the markers of the messages after the first are pairwise
   * distinct, so a reader can put the chunks back in order.
   */
  lemma ContinuedMessages(text: string, maxLength: int, opening: string, closing: string)
    ensures NonEmpty(ChunkLines(Split(text, maxLength))) == NonEmpty(Lines(text))
    ensures var n := |Split(text, maxLength)|;
      forall i: nat, j: nat | 1 < i <= n && 1 < j <= n && i != j ::
        Continued(opening, closing, i, n) != Continued(opening, closing, j, n)
  {
    SplitKeepsLines(text, maxLength);
    var n := |Split(text, maxLength)|;
    forall i: nat, j: nat | 1 < i <= n && 1 < j <= n && i != j
      ensures Continued(opening, closing, i, n) != Continued(opening, closing, j, n)
    {
      if Continued(opening, closing, i, n) == Continued(opening, closing, j, n) {
        ContinuedInjective(opening, closing, i, j, n);
      }
    }
  }
}
