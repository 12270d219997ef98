/**
 * The code the Slack and Telegram bots share (bot/bot_common.py): the
 * per-user session store, the preparation of an SDK call for a chat message,
 * the splitting of long replies and the tool-indicator suffix.
 *
 * The session directory of a platform is a map from (platform, user) to the
 * content of that user's JSON file. A file that does not parse is `Corrupt`;
 * in a file that parses, each known key is absent, `null` or a value, and
 * unknown keys are kept as they are. Timestamps (`now`) and the default
 * working directory are passed in.
 */
module BotCommon {
  import opened Wrappers
  import opened Seqs
  import opened Text
  import opened SdkTypes

  // ---------------------------------------------------------------------
  // Session records
  // ---------------------------------------------------------------------

  /** A key of a JSON object: missing, present with `null`, or present with a value. */
  datatype Field<T> = Absent | Null | Val(value: T)

  /** `data.get(key)`: a missing key reads as `null`. */
  function Get<T>(f: Field<T>): Field<T> {
    if f.Absent? then Null else f
  }

  /** Python truthiness of a string field read with `get`. */
  predicate TruthyField(f: Field<string>) {
    f.Val? && f.value != ""
  }

  /** The `get` of a string field as a Python `Optional[str]`. */
  function AsOption(f: Field<string>): Option<string> {
    if f.Val? then Some(f.value) else None
  }

  /** The JSON object stored for one user. `extra` holds any other keys. */
  datatype Record = Record(
    sessionId: Field<string>,
    cwd: Field<string>,
    showThinking: Field<bool>,
    createdAt: Field<string>,
    lastUpdated: Field<string>,
    extra: map<string, string>)

  /** The `{}` a writer starts from when the user has no file. */
  const EmptyRecord: Record := Record(Absent, Absent, Absent, Absent, Absent, map[])

  /** A session file: a parsed object, or content `json.load` rejects with `error`. */
  datatype SessionFile = Parsed(record: Record) | Corrupt(error: string)

  /** The file `{platform}_sessions/{user}.json`. */
  datatype Key = Key(platform: string, user: string)

  type Directory = map<Key, SessionFile>

  /** The exception `json.load` raises on a corrupt file. */
  function DecodeError(f: SessionFile): Exception
    requires f.Corrupt?
  {
    Exception("JSONDecodeError", f.error)
  }

  /** What a writer loads before updating: the stored object, or `{}` when there is no file. */
  function Stored(files: Directory, k: Key): Record {
    if k in files && files[k].Parsed? then files[k].record else EmptyRecord
  }

  /** A writer that loads without a `try` raises on a corrupt file. */
  predicate IsCorrupt(files: Directory, k: Key) {
    k in files && files[k].Corrupt?
  }

  // ---------------------------------------------------------------------
  // Readers
  // ---------------------------------------------------------------------

  /**
   * `load_user_session`: the stored session id and cwd, or `None` when there
   * is no file, the file does not parse, or the session id is falsy.
   */
  function LoadUserSession(files: Directory, k: Key): Option<(string, Option<string>)> {
    if k !in files then None
    else match files[k]
      case Corrupt(_) => None
      case Parsed(r) => if TruthyField(r.sessionId) then Some((r.sessionId.value, AsOption(r.cwd))) else None
  }

  /** `get_user_cwd`: the stored cwd when it is truthy, otherwise the default. */
  function GetUserCwd(files: Directory, k: Key, default: string): string {
    if k in files && files[k].Parsed? && TruthyField(files[k].record.cwd) then files[k].record.cwd.value
    else default
  }

  /**
   * `get_show_thinking`: the stored preference, `False` when it is missing
   * or the file is absent or corrupt; a stored `null` is falsy.
   */
  function GetShowThinking(files: Directory, k: Key): bool {
    k in files && files[k].Parsed? && files[k].record.showThinking == Val(true)
  }

  /** `load_user_session` gives `None` exactly in its three failure cases. */
  lemma LoadNone(files: Directory, k: Key)
    ensures LoadUserSession(files, k) == None <==>
      (k !in files || files[k].Corrupt? || !TruthyField(files[k].record.sessionId))
  {
  }

  // ---------------------------------------------------------------------
  // Writers: the record each one writes
  // ---------------------------------------------------------------------

  /**
   * The object `save_user_session` writes over `existing`: only session id,
   * cwd, last_updated and created_at. A falsy `cwd` argument keeps the stored
   * cwd; created_at is kept when present (even as `null`), else it is now.
   */
  function SavedRecord(existing: Record, sessionId: string, cwd: Option<string>, now: string): Record {
    Record(
      Val(sessionId),
      if Truthy(cwd) then Val(cwd.value) else Get(existing.cwd),
      Absent,
      if existing.createdAt.Absent? then Val(now) else existing.createdAt,
      Val(now),
      map[])
  }

  /** `set_user_cwd`: only cwd, last_updated and a missing created_at change. */
  function CwdSetRecord(existing: Record, cwd: string, now: string): Record {
    existing.(cwd := Val(cwd), lastUpdated := Val(now),
              createdAt := if existing.createdAt.Absent? then Val(now) else existing.createdAt)
  }

  /** `set_show_thinking`: only show_thinking, last_updated and a missing created_at change. */
  function ThinkingSetRecord(existing: Record, show: bool, now: string): Record {
    existing.(showThinking := Val(show), lastUpdated := Val(now),
              createdAt := if existing.createdAt.Absent? then Val(now) else existing.createdAt)
  }

  /** `clear_user_session`: cwd, show_thinking (default `False`), created_at and last_updated only. */
  function ClearedRecord(existing: Record, now: string): Record {
    Record(
      Absent,
      Get(existing.cwd),
      if existing.showThinking.Absent? then Val(false) else existing.showThinking,
      Get(existing.createdAt),
      Val(now),
      map[])
  }

  /** The session store of one process: every platform's session directory. */
  class SessionStore {
    var files: Directory

    constructor(files: Directory)
      ensures this.files == files
    {
      this.files := files;
    }

    /** `save_user_session`; raises when the existing file does not parse. */
    method SaveUserSession(user: string, sessionId: string, cwd: Option<string>, platform: string, now: string)
      returns (error: Option<Exception>)
      modifies this
      ensures var k := Key(platform, user);
        if IsCorrupt(old(files), k) then error == Some(DecodeError(old(files)[k])) && files == old(files)
        else error == None && files == old(files)[k := Parsed(SavedRecord(Stored(old(files), k), sessionId, cwd, now))]
    {
      var k := Key(platform, user);
      var existing := EmptyRecord;
      if k in files {
        match files[k] {
          case Corrupt(e) => return Some(Exception("JSONDecodeError", e));
          case Parsed(r) => existing := r;
        }
      }
      var data := Record(Val(sessionId), if Truthy(cwd) then Val(cwd.value) else Get(existing.cwd),
                         Absent, Absent, Val(now), map[]);
      if !existing.createdAt.Absent? {
        data := data.(createdAt := existing.createdAt);
      } else {
        data := data.(createdAt := data.lastUpdated);
      }
      files := files[k := Parsed(data)];
      return None;
    }

    /** `set_user_cwd`; raises when the existing file does not parse. */
    method SetUserCwd(user: string, cwd: string, platform: string, now: string) returns (error: Option<Exception>)
      modifies this
      ensures var k := Key(platform, user);
        if IsCorrupt(old(files), k) then error == Some(DecodeError(old(files)[k])) && files == old(files)
        else error == None && files == old(files)[k := Parsed(CwdSetRecord(Stored(old(files), k), cwd, now))]
    {
      var k := Key(platform, user);
      var data := EmptyRecord;
      if k in files {
        match files[k] {
          case Corrupt(e) => return Some(Exception("JSONDecodeError", e));
          case Parsed(r) => data := r;
        }
      }
      data := data.(cwd := Val(cwd));
      data := data.(lastUpdated := Val(now));
      if data.createdAt.Absent? {
        data := data.(createdAt := data.lastUpdated);
      }
      files := files[k := Parsed(data)];
      return None;
    }

    /** `set_show_thinking`; raises when the existing file does not parse. */
    method SetShowThinking(user: string, show: bool, platform: string, now: string) returns (error: Option<Exception>)
      modifies this
      ensures var k := Key(platform, user);
        if IsCorrupt(old(files), k) then error == Some(DecodeError(old(files)[k])) && files == old(files)
        else error == None && files == old(files)[k := Parsed(ThinkingSetRecord(Stored(old(files), k), show, now))]
    {
      var k := Key(platform, user);
      var data := EmptyRecord;
      if k in files {
        match files[k] {
          case Corrupt(e) => return Some(Exception("JSONDecodeError", e));
          case Parsed(r) => data := r;
        }
      }
      data := data.(showThinking := Val(show));
      data := data.(lastUpdated := Val(now));
      if data.createdAt.Absent? {
        data := data.(createdAt := data.lastUpdated);
      }
      files := files[k := Parsed(data)];
      return None;
    }

    /** `clear_user_session`: does nothing without a file, and swallows the error of a corrupt one. */
    method ClearUserSession(user: string, platform: string, now: string)
      modifies this
      ensures var k := Key(platform, user);
        if k in old(files) && old(files)[k].Parsed? then files == old(files)[k := Parsed(ClearedRecord(old(files)[k].record, now))]
        else files == old(files)
    {
      var k := Key(platform, user);
      if k in files {
        match files[k] {
          case Corrupt(_) =>
          case Parsed(data) =>
            var newData := Record(Absent, Get(data.cwd),
                                  if data.showThinking.Absent? then Val(false) else data.showThinking,
                                  Get(data.createdAt), Val(now), map[]);
            files := files[k := Parsed(newData)];
        }
      }
    }

    /**
     * The decision logic of `process_claude_message`. The SDK call is
     * abstracted: `outcome` is what executing `config` produced. Returns the
     * configuration used and either the reply (text, tools, new session id)
     * or the exception that propagated.
     */
    method ProcessClaudeMessage(user: string, platform: string, systemPrompt: Option<string>,
                                allowedTools: Option<seq<string>>, defaultCwd: string, now: string,
                                outcome: Result<ProcessedResponse, Exception>)
      returns (config: ExecutorConfig, reply: Result<(string, seq<string>, Option<string>), Exception>)
      modifies this
      ensures config == MessageConfig(old(files), Key(platform, user), systemPrompt, allowedTools, defaultCwd)
      ensures outcome.Failure? ==> reply == Failure(outcome.error) && files == old(files)
      ensures outcome.Success? && !Truthy(outcome.value.sessionId) ==>
        reply == Success((ReplyText(outcome.value.text), outcome.value.toolUses, outcome.value.sessionId))
        && files == old(files)
      ensures outcome.Success? && Truthy(outcome.value.sessionId) ==>
        var k := Key(platform, user);
        if IsCorrupt(old(files), k) then reply == Failure(DecodeError(old(files)[k])) && files == old(files)
        else (reply == Success((ReplyText(outcome.value.text), outcome.value.toolUses, outcome.value.sessionId))
          && files == old(files)[k := Parsed(SavedRecord(Stored(old(files), k), outcome.value.sessionId.value, config.cwd, now))])
    {
      var k := Key(platform, user);
      var sessionData := LoadUserSession(files, k);
      var sessionId: Option<string> := None;
      var cwd: Option<string> := None;
      if sessionData.Some? {
        sessionId := Some(sessionData.value.0);
        cwd := sessionData.value.1;
      }
      if !Truthy(cwd) {
        cwd := Some(GetUserCwd(files, k, defaultCwd));
      }
      var showThinking := GetShowThinking(files, k);
      var thinkingMode := if showThinking then Include else Exclude;
      config := ExecutorConfig(
        Some(user), Some(platform), cwd, sessionId,
        Some(if Truthy(systemPrompt) then systemPrompt.value else DefaultSystemPrompt),
        Some(if TruthyList(allowedTools) then allowedTools.value else DefaultTools),
        BufferText, thinkingMode, true, map[]);
      if outcome.Failure? {
        return config, Failure(outcome.error);
      }
      var result := outcome.value;
      var responseText := if !IsBlank(result.text) then result.text else Placeholder;
      if Truthy(result.sessionId) {
        var error := SaveUserSession(user, result.sessionId.value, cwd, platform, now);
        if error.Some? {
          return config, Failure(error.value);
        }
      }
      return config, Success((responseText, result.toolUses, result.sessionId));
    }
  }

  // ---------------------------------------------------------------------
  // Facts about the session store
  // ---------------------------------------------------------------------

  /** Saving a non-empty session id and cwd, then loading, gives them back. */
  lemma SaveThenLoad(files: Directory, k: Key, sessionId: string, cwd: string, now: string)
    requires sessionId != "" && cwd != ""
    ensures LoadUserSession(files[k := Parsed(SavedRecord(Stored(files, k), sessionId, Some(cwd), now))], k)
      == Some((sessionId, Some(cwd)))
  {
  }

  /** Saving without a cwd keeps the stored one, as load and `get_user_cwd` see it. */
  lemma SaveKeepsCwd(files: Directory, k: Key, sessionId: string, cwd: Option<string>, now: string, default: string)
    requires !Truthy(cwd) && !IsCorrupt(files, k)
    ensures var after := files[k := Parsed(SavedRecord(Stored(files, k), sessionId, cwd, now))];
      GetUserCwd(after, k, default) == GetUserCwd(files, k, default)
      && (sessionId != "" ==> LoadUserSession(after, k) == Some((sessionId, AsOption(Stored(files, k).cwd))))
  {
  }

  /**
   * What saving loses and keeps: the show_thinking preference and unknown keys
   * are dropped; created_at survives when present and is `now` otherwise.
   */
  lemma SaveFields(existing: Record, sessionId: string, cwd: Option<string>, now: string)
    ensures var r := SavedRecord(existing, sessionId, cwd, now);
      && r.showThinking.Absent? && r.extra == map[]
      && (existing.createdAt.Absent? ==> r.createdAt == r.lastUpdated)
      && (!existing.createdAt.Absent? ==> r.createdAt == existing.createdAt)
  {
  }

  /** Saving over a preference switched on turns it off again. */
  lemma SaveResetsShowThinking(files: Directory, k: Key, sessionId: string, cwd: Option<string>, now: string)
    ensures !GetShowThinking(files[k := Parsed(SavedRecord(Stored(files, k), sessionId, cwd, now))], k)
  {
  }

  /** `set_user_cwd` changes what `get_user_cwd` reads and nothing a reader sees besides. */
  lemma SetCwdEffect(files: Directory, k: Key, cwd: string, now: string, default: string)
    requires !IsCorrupt(files, k)
    ensures var after := files[k := Parsed(CwdSetRecord(Stored(files, k), cwd, now))];
      && GetUserCwd(after, k, default) == (if cwd != "" then cwd else default)
      && GetShowThinking(after, k) == GetShowThinking(files, k)
      && (LoadUserSession(files, k).Some? ==> LoadUserSession(after, k) == Some((LoadUserSession(files, k).value.0, Some(cwd))))
      && (LoadUserSession(files, k).None? ==> LoadUserSession(after, k).None?)
  {
  }

  /** `set_show_thinking` changes what `get_show_thinking` reads and nothing a reader sees besides. */
  lemma SetShowThinkingEffect(files: Directory, k: Key, show: bool, now: string, default: string)
    requires !IsCorrupt(files, k)
    ensures var after := files[k := Parsed(ThinkingSetRecord(Stored(files, k), show, now))];
      && GetShowThinking(after, k) == show
      && GetUserCwd(after, k, default) == GetUserCwd(files, k, default)
      && LoadUserSession(after, k) == LoadUserSession(files, k)
  {
  }

  /** Both setters keep every stored key but their own, last_updated and a present created_at. */
  lemma SettersKeepOtherFields(existing: Record, cwd: string, show: bool, now: string)
    ensures var r := CwdSetRecord(existing, cwd, now);
      r.sessionId == existing.sessionId && r.showThinking == existing.showThinking && r.extra == existing.extra
      && (!existing.createdAt.Absent? ==> r.createdAt == existing.createdAt)
    ensures var r := ThinkingSetRecord(existing, show, now);
      r.sessionId == existing.sessionId && r.cwd == existing.cwd && r.extra == existing.extra
      && (!existing.createdAt.Absent? ==> r.createdAt == existing.createdAt)
  {
  }

  /**
   * After clearing, no session is loaded, while the cwd and the thinking
   * preference read as before and created_at is kept.
   */
  lemma ClearEffect(files: Directory, k: Key, now: string, default: string)
    requires k in files && files[k].Parsed?
    ensures var after := files[k := Parsed(ClearedRecord(files[k].record, now))];
      && LoadUserSession(after, k) == None
      && GetUserCwd(after, k, default) == GetUserCwd(files, k, default)
      && GetShowThinking(after, k) == GetShowThinking(files, k)
      && after[k].record.createdAt == Get(files[k].record.createdAt)
  {
  }

  /** Writers touch only their own user's file. */
  lemma WritersAreLocal(files: Directory, k: Key, other: Key, r: Record, default: string)
    requires other != k
    ensures LoadUserSession(files[k := Parsed(r)], other) == LoadUserSession(files, other)
    ensures GetUserCwd(files[k := Parsed(r)], other, default) == GetUserCwd(files, other, default)
    ensures GetShowThinking(files[k := Parsed(r)], other) == GetShowThinking(files, other)
  {
  }

  // ---------------------------------------------------------------------
  // Preparing the SDK call for a chat message
  // ---------------------------------------------------------------------

  const DefaultSystemPrompt: string :=
    "You are Claude Code, a helpful AI assistant powered by Claude Sonnet 4.5. You help users with code, file operations, and technical tasks."

  const DefaultTools: seq<string> := ["Read", "Write", "Bash", "Edit"]

  const Placeholder: string := "I processed your request, but I don't have a text response to show."

  /** The reply text: the response, or the placeholder when it is blank. */
  function ReplyText(text: string): (r: string)
    ensures IsBlank(text) ==> r == Placeholder
    ensures !IsBlank(text) ==> r == text
  {
    StripEmptyIffBlank(text);
    if Strip(text) != "" then text else Placeholder
  }

  /**
   * The working directory of a message: the loaded one if truthy, else what
   * `get_user_cwd` reads. Both ways read the same stored cwd, so this is
   * always what `get_user_cwd` reads.
   */
  function MessageCwd(files: Directory, k: Key, default: string): (r: string)
    ensures r == GetUserCwd(files, k, default)
  {
    var loaded := LoadUserSession(files, k);
    if loaded.Some? && Truthy(loaded.value.1) then loaded.value.1.value else GetUserCwd(files, k, default)
  }

  /** The executor configuration `process_claude_message` builds. */
  function MessageConfig(files: Directory, k: Key, systemPrompt: Option<string>,
                         allowedTools: Option<seq<string>>, default: string): ExecutorConfig {
    var loaded := LoadUserSession(files, k);
    ExecutorConfig(
      Some(k.user), Some(k.platform), Some(MessageCwd(files, k, default)),
      if loaded.Some? then Some(loaded.value.0) else None,
      Some(if Truthy(systemPrompt) then systemPrompt.value else DefaultSystemPrompt),
      Some(if TruthyList(allowedTools) then allowedTools.value else DefaultTools),
      BufferText, if GetShowThinking(files, k) then Include else Exclude, true, map[])
  }

  /**
   * The configuration resumes the stored session exactly when one loads,
   * uses the given tools or, for a falsy override, the default ones,
   * includes thinking exactly when the preference is on, always asks for
   * tool indicators, and runs in the directory `get_user_cwd` reports.
   */
  lemma MessageConfigFacts(files: Directory, k: Key, systemPrompt: Option<string>,
                           allowedTools: Option<seq<string>>, default: string)
    ensures var c := MessageConfig(files, k, systemPrompt, allowedTools, default);
      && (c.thinkingMode == Include <==> GetShowThinking(files, k))
      && (c.sessionId.Some? <==> LoadUserSession(files, k).Some?)
      && (c.sessionId.Some? ==> c.sessionId.value == LoadUserSession(files, k).value.0)
      && c.allowedTools == Some(if TruthyList(allowedTools) then allowedTools.value else DefaultTools)
      && c.includeToolIndicators && c.responseMode == BufferText
      && c.cwd == Some(GetUserCwd(files, k, default))
      && (c.systemPrompt == Some(DefaultSystemPrompt) <==> !Truthy(systemPrompt) || systemPrompt.value == DefaultSystemPrompt)
  {
  }

  // ---------------------------------------------------------------------
  // Splitting long messages
  // ---------------------------------------------------------------------

  /** `int(max_length * 0.1)`: a tenth, truncated toward zero. */
  function TenthTruncated(maxLength: int): int {
    if maxLength >= 0 then maxLength / 10 else -((-maxLength) / 10)
  }

  /** The safety buffer: a tenth of the maximum, clamped to [50, 200]. */
  function SafetyBuffer(maxLength: int): (r: int)
    ensures 50 <= r <= 200
    ensures maxLength < 500 ==> r == 50
    ensures 500 <= maxLength < 2000 ==> r == maxLength / 10
    ensures maxLength >= 2000 ==> r == 200
  {
    var tenth := TenthTruncated(maxLength);
    var atLeast := if tenth > 50 then tenth else 50;
    if atLeast < 200 then atLeast else 200
  }

  /** The chunk budget: the maximum less the buffer, but at least half the maximum (floor division). */
  function EffectiveLimit(maxLength: int): int {
    var reduced := maxLength - SafetyBuffer(maxLength);
    var half := maxLength / 2;
    if reduced > half then reduced else half
  }

  /** For a non-negative maximum the budget lies between half of it and all of it. */
  lemma EffectiveLimitBounds(maxLength: int)
    requires maxLength >= 0
    ensures maxLength / 2 <= EffectiveLimit(maxLength) <= maxLength
    ensures maxLength >= 500 ==> EffectiveLimit(maxLength) == maxLength - SafetyBuffer(maxLength)
  {
  }

  /** The loop state of `split_long_message`: the finished chunks and the open one. */
  datatype SplitState = SplitState(chunks: seq<string>, current: string)

  /** One iteration of the line loop. */
  function SplitStep(s: SplitState, line: string, limit: int): SplitState {
    if |s.current| + |line| + 1 > limit then
      if s.current != "" then SplitState(s.chunks + [s.current], line)
      else SplitState(s.chunks, line)
    else
      if s.current != "" then SplitState(s.chunks, s.current + "\n" + line)
      else SplitState(s.chunks, line)
  }

  /** The loop over `lines`, from an empty state. */
  function SplitFold(lines: seq<string>, limit: int): SplitState {
    if lines == [] then SplitState([], "")
    else SplitStep(SplitFold(lines[..|lines| - 1], limit), lines[|lines| - 1], limit)
  }

  /** The chunks after the loop: the open chunk is added when non-empty. */
  function Finish(s: SplitState): seq<string> {
    if s.current != "" then s.chunks + [s.current] else s.chunks
  }

  /** `split_long_message`. */
  function Split(text: string, maxLength: int): seq<string> {
    if |text| <= maxLength then [text]
    else Finish(SplitFold(Lines(text), EffectiveLimit(maxLength)))
  }

  /** The loop of `split_long_message`. */
  method SplitLongMessage(text: string, maxLength: int) returns (chunks: seq<string>)
    ensures chunks == Split(text, maxLength)
  {
    if |text| <= maxLength {
      return [text];
    }
    chunks := [];
    var current := "";
    var buffer := SafetyBuffer(maxLength);
    var effectiveLimit := EffectiveLimit(maxLength);
    var lines := Lines(text);
    var i := 0;
    while i < |lines|
      invariant 0 <= i <= |lines|
      invariant SplitState(chunks, current) == SplitFold(lines[..i], effectiveLimit)
    {
      var line := lines[i];
      assert lines[..i + 1][..i] == lines[..i];
      if |current| + |line| + 1 > effectiveLimit {
        if current != "" {
          chunks := chunks + [current];
          current := line;
        } else {
          current := line;
        }
      } else {
        if current != "" {
          current := current + "\n" + line;
        } else {
          current := line;
        }
      }
      i := i + 1;
    }
    assert lines[..i] == lines;
    if current != "" {
      chunks := chunks + [current];
    }
  }

  /** A chunk either holds a single line or keeps within the budget. */
  predicate Fits(chunk: string, limit: int) {
    '\n' !in chunk || |chunk| <= limit
  }

  /** The lines of the chunks, chunk after chunk. */
  function ChunkLines(chunks: seq<string>): seq<string> {
    if chunks == [] then [] else ChunkLines(chunks[..|chunks| - 1]) + Lines(chunks[|chunks| - 1])
  }

  lemma ChunkLinesSnoc(chunks: seq<string>, c: string)
    ensures ChunkLines(chunks + [c]) == ChunkLines(chunks) + Lines(c)
  {
    assert (chunks + [c])[..|chunks|] == chunks;
  }

  /** The non-empty lines of `a + [""]` are those of `a`. */
  lemma NonEmptyDropBlank(a: seq<string>)
    ensures NonEmpty(a + [""]) == NonEmpty(a)
  {
    NonEmptyAppend(a, [""]);
    assert NonEmpty([""]) == NonEmpty([]) + [];
  }

  /** The non-empty lines of `a + [l]` extend those of `a` by `l` when `l` is not empty. */
  lemma NonEmptySnoc(a: seq<string>, l: string)
    ensures NonEmpty(a + [l]) == NonEmpty(a) + NonEmpty([l])
  {
    NonEmptyAppend(a, [l]);
  }

  /** The lines held by a loop state: those of the finished chunks, then those of the open one. */
  function HeldLines(s: SplitState): seq<string> {
    ChunkLines(s.chunks) + Lines(s.current)
  }

  /** One step of the loop adds the new line to the non-empty lines held. */
  lemma SplitStepLines(s: SplitState, line: string, limit: int)
    requires '\n' !in line
    ensures NonEmpty(HeldLines(SplitStep(s, line, limit))) == NonEmpty(HeldLines(s)) + NonEmpty([line])
  {
    LinesOfLine(line);
    var t := SplitStep(s, line, limit);
    if s.current != "" {
      if |s.current| + |line| + 1 > limit {
        ChunkLinesSnoc(s.chunks, s.current);
        assert HeldLines(t) == HeldLines(s) + [line];
      } else {
        LinesOfNewline(s.current, line);
        assert HeldLines(t) == HeldLines(s) + [line];
      }
      NonEmptySnoc(HeldLines(s), line);
    } else {
      assert t.chunks == s.chunks && t.current == line;
      assert HeldLines(s) == ChunkLines(s.chunks) + [""];
      NonEmptyDropBlank(ChunkLines(s.chunks));
      NonEmptySnoc(ChunkLines(s.chunks), line);
    }
  }

  /** The loop holds exactly the non-empty lines seen so far, in order. */
  lemma {:induction false} SplitFoldLines(lines: seq<string>, limit: int)
    requires forall i | 0 <= i < |lines| :: '\n' !in lines[i]
    ensures NonEmpty(HeldLines(SplitFold(lines, limit))) == NonEmpty(lines)
  {
    if lines == [] {
      assert HeldLines(SplitFold(lines, limit)) == [""];
    } else {
      var init := lines[..|lines| - 1];
      var line := lines[|lines| - 1];
      calc {
        NonEmpty(HeldLines(SplitFold(lines, limit)));
      ==  { SplitStepLines(SplitFold(init, limit), line, limit); }
        NonEmpty(HeldLines(SplitFold(init, limit))) + NonEmpty([line]);
      ==  { SplitFoldLines(init, limit); }
        NonEmpty(init) + NonEmpty([line]);
      ==  { NonEmptySnoc(init, line); assert lines == init + [line]; }
        NonEmpty(lines);
      }
    }
  }

  /** Finished chunks are non-empty and fit the budget, and so does the open chunk. */
  lemma {:induction false} SplitFoldShape(lines: seq<string>, limit: int)
    requires forall i | 0 <= i < |lines| :: '\n' !in lines[i]
    ensures var s := SplitFold(lines, limit);
      && (forall j | 0 <= j < |s.chunks| :: s.chunks[j] != "" && Fits(s.chunks[j], limit))
      && Fits(s.current, limit)
  {
    if lines != [] {
      SplitFoldShape(lines[..|lines| - 1], limit);
    }
  }

  /**
   * `split_long_message` returns the text itself when it fits; otherwise
   * every chunk is non-empty and is a single line or within the budget.
   */
  lemma SplitChunks(text: string, maxLength: int)
    ensures |text| <= maxLength ==> Split(text, maxLength) == [text]
    ensures |text| > maxLength ==> forall j | 0 <= j < |Split(text, maxLength)| ::
      Split(text, maxLength)[j] != "" && Fits(Split(text, maxLength)[j], EffectiveLimit(maxLength))
  {
    if |text| > maxLength {
      SplitFoldShape(Lines(text), EffectiveLimit(maxLength));
    }
  }

  /** Closing the open chunk keeps the non-empty lines held. */
  lemma FinishLines(s: SplitState)
    ensures NonEmpty(ChunkLines(Finish(s))) == NonEmpty(HeldLines(s))
  {
    if s.current != "" {
      ChunkLinesSnoc(s.chunks, s.current);
    } else {
      assert HeldLines(s) == ChunkLines(s.chunks) + [""];
      NonEmptyDropBlank(ChunkLines(s.chunks));
    }
  }

  /** No line is lost: the non-empty lines of the chunks are those of the text, in order. */
  lemma SplitKeepsLines(text: string, maxLength: int)
    ensures NonEmpty(ChunkLines(Split(text, maxLength))) == NonEmpty(Lines(text))
  {
    if |text| <= maxLength {
      ChunkLinesSnoc([], text);
      assert [] + [text] == [text];
      assert [] + Lines(text) == Lines(text);
      assert ChunkLines(Split(text, maxLength)) == Lines(text);
    } else {
      var s := SplitFold(Lines(text), EffectiveLimit(maxLength));
      calc {
        NonEmpty(ChunkLines(Split(text, maxLength)));
        NonEmpty(ChunkLines(Finish(s)));
      ==  { FinishLines(s); }
        NonEmpty(HeldLines(s));
      ==  { SplitFoldLines(Lines(text), EffectiveLimit(maxLength)); }
        NonEmpty(Lines(text));
      }
    }
  }

  /** A text with a non-empty line is never split into nothing. */
  lemma SplitNotEmpty(text: string, maxLength: int)
    requires NonEmpty(Lines(text)) != []
    ensures Split(text, maxLength) != []
  {
    SplitKeepsLines(text, maxLength);
  }

  /** With a non-negative maximum, every chunk of several lines is within the maximum. */
  lemma SplitWithinMaximum(text: string, maxLength: int)
    requires maxLength >= 0
    ensures forall j | 0 <= j < |Split(text, maxLength)| ::
      '\n' in Split(text, maxLength)[j] ==> |Split(text, maxLength)[j]| <= maxLength
  {
    SplitChunks(text, maxLength);
    EffectiveLimitBounds(maxLength);
  }

  // ---------------------------------------------------------------------
  // Tool indicators
  // ---------------------------------------------------------------------

  /** `"🔧 " + tool.upper()` for each tool, in order. */
  function WrenchItems(tools: seq<string>): (r: seq<string>)
    ensures |r| == |tools|
    ensures forall i | 0 <= i < |tools| :: r[i] == "\U{1F527} " + Upper(tools[i])
  {
    if tools == [] then [] else WrenchItems(tools[..|tools| - 1]) + ["\U{1F527} " + Upper(tools[|tools| - 1])]
  }

  /** `format_tool_indicators`: a blank line, then each distinct tool once, upper-cased. */
  function FormatToolIndicators(tools: seq<string>): string {
    if tools == [] then "" else "\n\n" + Join(" ", WrenchItems(FirstOccurrences(tools)))
  }

  /** The suffix is empty exactly when no tool was used, and otherwise starts with a blank line. */
  lemma FormatToolIndicatorsShape(tools: seq<string>)
    ensures FormatToolIndicators(tools) == "" <==> tools == []
    ensures tools != [] ==> FormatToolIndicators(tools)[..2] == "\n\n"
  {
  }

  /** Repeated tools do not change the suffix. */
  lemma FormatToolIndicatorsDedup(tools: seq<string>)
    ensures FormatToolIndicators(FirstOccurrences(tools)) == FormatToolIndicators(tools)
  {
    FirstOccurrencesIdempotent(tools);
    if tools != [] {
      assert tools[0] in FirstOccurrences(tools);
    }
  }

  /** A tool used again later does not change the suffix. */
  lemma FormatToolIndicatorsRepeat(tools: seq<string>, t: string)
    requires t in tools
    ensures FormatToolIndicators(tools + [t]) == FormatToolIndicators(tools)
  {
    FirstOccurrencesAppendSeen(tools, t);
  }
}
