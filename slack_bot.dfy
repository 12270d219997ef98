/**
 * The Slack front end: which events it answers, where it answers, how it
 * reads a mention and the arguments of `/setcwd` and `/showthinking`, and
 * how it posts a reply longer than one message.
 *
 * An event is the JSON object Slack delivers; each posted message is
 * returned as a `Post` instead of being sent. The outcome of the SDK call
 * and the file-system checks of `/setcwd` are parameters.
 */
module SlackBot {
  import opened Wrappers
  import opened Text
  import opened SdkTypes
  import opened BotCommon
  import opened ChatBots

  const MaxMessageLength: int := 3000

  /** Long replies are cut into chunks of at most 2800 characters, the buffer being its largest, 200. */
  lemma ChunkBudget()
    ensures SafetyBuffer(MaxMessageLength) == 200
    ensures EffectiveLimit(MaxMessageLength) == 2800
  {
  }

  const Platform: string := "slack"

  /** A `message` or `app_mention` event; the keys read with `get` may be missing or `null`. */
  datatype Event = Event(subtype: Field<string>, botId: Field<string>, user: string, channel: string,
                         text: string, threadTs: Field<string>, ts: Field<string>)

  /** A message posted to a channel, in a thread when `thread` is set. */
  datatype Post = Post(text: string, thread: Option<string>)

  /** `handle_message` ignores edits, deletions and other subtyped events, and bot messages. */
  predicate Ignored(e: Event) {
    TruthyField(e.subtype) || TruthyField(e.botId)
  }

  /** `event.get('thread_ts', event.get('ts'))`: the thread key wins whenever it is present. */
  function ReplyThread(e: Event): (r: Option<string>)
    ensures e.threadTs.Val? ==> r == Some(e.threadTs.value)
    ensures e.threadTs.Null? ==> r == None
    ensures e.threadTs.Absent? ==> r == AsOption(Get(e.ts))
  {
    match e.threadTs {
      case Val(t) => Some(t)
      case Null => None
      case Absent => AsOption(e.ts)
    }
  }

  /** The decoration of the continuation marker, `_(continued i/n)_` and a blank line. */
  const Opening: string := "_(continued "

  const Closing: string := ")_\n\n"

  function ContinuedPrefix(i: nat, n: nat): string {
    Continued(Opening, Closing, i, n)
  }

  /** The posts of `send_long_message`: one per chunk of `text`, in order, every one after the first marked. */
  predicate Delivers(posts: seq<Post>, text: string, thread: Option<string>) {
    var chunks := Split(text, MaxMessageLength);
    && |posts| == |chunks|
    && forall i | 0 <= i < |posts| ::
         posts[i] == Post((if i == 0 then "" else ContinuedPrefix(i + 1, |chunks|)) + chunks[i], thread)
  }

  /** `send_long_message`. */
  method SendLongMessage(text: string, thread: Option<string>) returns (posts: seq<Post>)
    ensures Delivers(posts, text, thread)
  {
    var chunks := SplitLongMessage(text, MaxMessageLength);
    posts := [];
    var i := 0;
    while i < |chunks|
      invariant 0 <= i <= |chunks|
      invariant |posts| == i
      invariant forall j | 0 <= j < i ::
        posts[j] == Post((if j == 0 then "" else ContinuedPrefix(j + 1, |chunks|)) + chunks[j], thread)
    {
      var prefix := "";
      if i > 0 {
        prefix := ContinuedPrefix(i + 1, |chunks|);
      }
      posts := posts + [Post(prefix + chunks[i], thread)];
      i := i + 1;
    }
  }

  /** The text around the exception's message in the error reply. */
  const ErrorOpening: string := "⚠️ Sorry, I encountered an error processing your message.\n\n*Error:* `"

  const ErrorClosing: string := "`\n\nPlease try again or use `/reset` to start a fresh conversation."

  function ErrorMessage(e: Exception): string {
    ErrorOpening + e.message + ErrorClosing
  }

  /** The posts that answer a message: the reply in numbered chunks, or the error in one post. */
  predicate Answers(posts: seq<Post>, reply: Result<string, Exception>, thread: Option<string>) {
    match reply
    case Success(text) => Delivers(posts, text, thread)
    case Failure(e) => posts == [Post(ErrorMessage(e), thread)]
  }

  /** The SDK call for `prompt` and the reply: the text with its tool indicators, or the error. */
  method Respond(store: SessionStore, user: string, thread: Option<string>, defaultCwd: string, now: string,
                 outcome: Result<ProcessedResponse, Exception>)
    returns (config: ExecutorConfig, posts: seq<Post>)
    modifies store
    ensures config == MessageConfig(old(store.files), Key(Platform, user), None, None, defaultCwd)
    ensures outcome.Failure? ==> store.files == old(store.files)
    ensures Answers(posts, BotReply(outcome, old(store.files), Key(Platform, user)), thread)
    ensures store.files == FilesAfterReply(outcome, old(store.files), Key(Platform, user), defaultCwd, now)
  {
    ghost var before := store.files;
    var reply;
    config, reply := store.ProcessClaudeMessage(user, Platform, None, None, defaultCwd, now, outcome);
    var answer: Result<string, Exception>;
    if reply.Failure? {
      answer := Failure(reply.error);
    } else {
      var text := reply.value.0;
      if reply.value.1 != [] {
        text := text + FormatToolIndicators(reply.value.1);
      }
      answer := Success(text);
    }
    assert answer == BotReply(outcome, before, Key(Platform, user));
    posts := SendAnswer(answer, thread);
  }

  /** The `try`/`except` around the reply: the text in numbered chunks, or the error in one post. */
  method SendAnswer(answer: Result<string, Exception>, thread: Option<string>) returns (posts: seq<Post>)
    ensures Answers(posts, answer, thread)
  {
    if answer.Failure? {
      return [Post(ErrorMessage(answer.error), thread)];
    }
    posts := SendLongMessage(answer.value, thread);
  }

  /**
   * `handle_message`: an ignored event gets no answer and touches nothing;
   * any other gets a "Processing..." post and then the reply, in the thread
   * of the event.
   */
  method HandleMessage(store: SessionStore, e: Event, defaultCwd: string, now: string,
                       outcome: Result<ProcessedResponse, Exception>)
    returns (prompt: Option<string>, posts: seq<Post>)
    modifies store
    ensures Ignored(e) ==> prompt == None && posts == [] && store.files == old(store.files)
    ensures !Ignored(e) ==> prompt == Some(e.text) && |posts| >= 1 && posts[0] == Post("Processing...", ReplyThread(e))
    ensures !Ignored(e) && outcome.Failure? ==>
      posts == [Post("Processing...", ReplyThread(e)), Post(ErrorMessage(outcome.error), ReplyThread(e))]
      && store.files == old(store.files)
    ensures !Ignored(e) ==> Answers(posts[1..], BotReply(outcome, old(store.files), Key(Platform, e.user)), ReplyThread(e))
    ensures !Ignored(e) ==> store.files == FilesAfterReply(outcome, old(store.files), Key(Platform, e.user), defaultCwd, now)
  {
    if Ignored(e) {
      return None, [];
    }
    var thread := ReplyThread(e);
    var config, answer := Respond(store, e.user, thread, defaultCwd, now, outcome);
    prompt, posts := Some(e.text), [Post("Processing...", thread)] + answer;
    assert posts[1..] == answer;
  }

  // ---------------------------------------------------------------------
  // Mentions
  // ---------------------------------------------------------------------

  predicate IsIdChar(c: char) {
    'A' <= c <= 'Z' || '0' <= c <= '9'
  }

  /** A token `<@[A-Z0-9]+>`. */
  predicate IsMention(t: string) {
    |t| >= 4 && t[0] == '<' && t[1] == '@' && t[|t| - 1] == '>'
    && forall i | 2 <= i < |t| - 1 :: IsIdChar(t[i])
  }

  /** The length of the longest prefix of `s` made of id characters. */
  function IdRun(s: string): (k: nat)
    ensures k <= |s|
    ensures forall i | 0 <= i < k :: IsIdChar(s[i])
    ensures k < |s| ==> !IsIdChar(s[k])
  {
    if s == [] || !IsIdChar(s[0]) then 0 else 1 + IdRun(s[1..])
  }

  /** The length of the mention token `s` starts with, or 0 when it starts with none. */
  function MentionAt(s: string): (n: nat)
    ensures n <= |s|
    ensures n > 0 ==> IsMention(s[..n])
    ensures forall m | 0 < m <= |s| && m != n :: !IsMention(s[..m])
  {
    if |s| >= 2 && s[0] == '<' && s[1] == '@' then
      var k := IdRun(s[2..]);
      if k >= 1 && 2 + k < |s| && s[2 + k] == '>' then 3 + k else 0
    else 0
  }

  /** `re.sub(r'<@[A-Z0-9]+>', '', s)`: the scan from the left drops each token it meets. */
  function RemoveMentions(s: string): (r: string)
    ensures |r| <= |s|
    decreases |s|
  {
    if s == [] then []
    else
      var n := MentionAt(s);
      if n > 0 then RemoveMentions(s[n..]) else [s[0]] + RemoveMentions(s[1..])
  }

  /** Text without a `<` has no token to remove. */
  lemma {:induction false} RemoveMentionsPlain(s: string)
    requires '<' !in s
    ensures RemoveMentions(s) == s
    decreases |s|
  {
    if s != [] {
      assert '<' !in s[1..];
      RemoveMentionsPlain(s[1..]);
    }
  }

  /** A leading token is dropped and the rest is scanned on. */
  lemma RemoveMentionsLeading(t: string, rest: string)
    requires IsMention(t)
    ensures RemoveMentions(t + rest) == RemoveMentions(rest)
  {
    var s := t + rest;
    assert s[..|t|] == t;
    assert (t + rest)[|t|..] == rest;
  }

  /** No character of a token after its first is a `<`. */
  lemma MentionNoInnerOpen(u: string)
    requires IsMention(u)
    ensures forall i | 1 <= i < |u| :: u[i] != '<'
  {
    assert forall i | 2 <= i < |u| - 1 :: IsIdChar(u[i]);
  }

  /** A token that starts in `a` cannot run into a following `<`: it ends inside `a`. */
  lemma MentionInside(a: string, rest: string, k: nat)
    requires a != [] && rest != [] && rest[0] == '<'
    requires 0 < k <= |a + rest| && IsMention((a + rest)[..k])
    ensures k <= |a|
  {
    var s := a + rest;
    assert s[|a|] == '<';
    MentionNoInnerOpen(s[..k]);
    assert forall i | 1 <= i < k :: s[i] != '<';
  }

  /** Before a `<`, the token the scan sees at a position is the one within `a`. */
  lemma MentionAtBeforeOpen(a: string, rest: string)
    requires a != [] && rest != [] && rest[0] == '<'
    ensures MentionAt(a + rest) == MentionAt(a)
  {
    var s := a + rest;
    var n := MentionAt(s);
    var m := MentionAt(a);
    if n > 0 {
      MentionInside(a, rest, n);
      assert s[..n] == a[..n];
    }
    if m > 0 {
      assert s[..m] == a[..m];
    }
  }

  /**
   * A token anywhere in the text is removed, and the scan resumes after it
   * as if the text started there: no token can straddle one.
   */
  lemma {:induction false} RemoveMentionsAround(a: string, t: string, b: string)
    requires IsMention(t)
    ensures RemoveMentions(a + t + b) == RemoveMentions(a) + RemoveMentions(b)
    decreases |a|
  {
    var s := a + t + b;
    if a == [] {
      assert s == t + b;
      RemoveMentionsLeading(t, b);
    } else {
      MentionAtBeforeOpen(a, t + b);
      assert s == a + (t + b);
      var n := MentionAt(a);
      if n > 0 {
        assert s[n..] == a[n..] + t + b;
        RemoveMentionsAround(a[n..], t, b);
      } else {
        assert s[1..] == a[1..] + t + b;
        RemoveMentionsAround(a[1..], t, b);
      }
    }
  }

  /** A mention between plain words is cut out: "ask <@U1> about x" becomes "ask  about x". */
  lemma MentionBetweenWords(a: string, t: string, b: string)
    requires '<' !in a && IsMention(t) && '<' !in b
    ensures RemoveMentions(a + t + b) == a + b
  {
    RemoveMentionsAround(a, t, b);
    RemoveMentionsPlain(a);
    RemoveMentionsPlain(b);
  }

  /** The prompt `handle_mention` takes from a mention's text. */
  function MentionPrompt(text: string): (r: string)
    ensures r == "" || (!IsSpace(r[0]) && !IsSpace(r[|r| - 1]))
    ensures |r| <= |text|
  {
    Strip(RemoveMentions(text))
  }

  const Greeting: string := "\U{1F44B} Hi! Ask me anything or use `/help` to see available commands."

  /** A mention of the bot followed by a question reaches the SDK as the question alone, stripped. */
  lemma MentionThenQuestion(t: string, question: string)
    requires IsMention(t) && '<' !in question
    ensures MentionPrompt(t + question) == Strip(question)
  {
    RemoveMentionsLeading(t, question);
    RemoveMentionsPlain(question);
  }

  /**
   * `handle_mention`: with nothing left after the mentions the greeting is
   * posted and the SDK is not called; otherwise the reply is posted as for
   * a message, in the event's thread.
   */
  method HandleMention(store: SessionStore, e: Event, defaultCwd: string, now: string,
                       outcome: Result<ProcessedResponse, Exception>)
    returns (prompt: Option<string>, posts: seq<Post>)
    modifies store
    ensures MentionPrompt(e.text) == "" ==>
      prompt == None && posts == [Post(Greeting, ReplyThread(e))] && store.files == old(store.files)
    ensures MentionPrompt(e.text) != "" ==> prompt == Some(MentionPrompt(e.text))
    ensures MentionPrompt(e.text) != "" && outcome.Failure? ==>
      posts == [Post(ErrorMessage(outcome.error), ReplyThread(e))] && store.files == old(store.files)
    ensures MentionPrompt(e.text) != "" ==> Answers(posts, BotReply(outcome, old(store.files), Key(Platform, e.user)), ReplyThread(e))
    ensures MentionPrompt(e.text) != "" ==>
      store.files == FilesAfterReply(outcome, old(store.files), Key(Platform, e.user), defaultCwd, now)
  {
    var thread := ReplyThread(e);
    var text := MentionPrompt(e.text);
    if text == "" {
      return None, [Post(Greeting, thread)];
    }
    var config, answer := Respond(store, e.user, thread, defaultCwd, now, outcome);
    return Some(text), answer;
  }

  // ---------------------------------------------------------------------
  // Commands
  // ---------------------------------------------------------------------

  /** The path argument of `/setcwd`: the stripped text, when there is any. */
  function SetCwdPath(text: string): (r: Option<string>)
    ensures r.None? <==> IsBlank(text)
    ensures r.Some? ==> r.value != "" && !IsSpace(r.value[0]) && !IsSpace(r.value[|r.value| - 1])
  {
    StripEmptyIffBlank(text);
    if Strip(text) == "" then None else Some(Strip(text))
  }

  /** Blanks around the path are dropped, and the path itself, inner spaces included, is kept. */
  lemma SetCwdPathPadded(a: string, path: string, b: string)
    requires IsBlank(a) && IsBlank(b)
    requires path != "" && !IsSpace(path[0]) && !IsSpace(path[|path| - 1])
    ensures SetCwdPath(a + path + b) == Some(path)
  {
    StripPadded(a, path, b);
  }

  /**
   * `/setcwd`: without a path, or when the path is not an existing
   * directory (`isDirectory`), nothing is saved; otherwise its absolute
   * form `absolutePath` becomes the working directory.
   */
  method SetCwd(store: SessionStore, user: string, text: string, isDirectory: bool, absolutePath: string, now: string)
    returns (saved: Option<string>, error: Option<Exception>)
    modifies store
    ensures (IsBlank(text) || !isDirectory) ==> saved == None && error == None && store.files == old(store.files)
    ensures !IsBlank(text) && isDirectory ==>
      && var k := Key(Platform, user);
         if IsCorrupt(old(store.files), k) then saved == None && error == Some(DecodeError(old(store.files)[k])) && store.files == old(store.files)
         else saved == Some(absolutePath) && error == None && store.files == old(store.files)[k := Parsed(CwdSetRecord(Stored(old(store.files), k), absolutePath, now))]
  {
    var path := SetCwdPath(text);
    if path.None? || !isDirectory {
      return None, None;
    }
    error := store.SetUserCwd(user, absolutePath, Platform, now);
    saved := if error.None? then Some(absolutePath) else None;
  }

  /** The request of `/showthinking`: the stripped, lower-cased text, where no text asks for the status. */
  function ThinkingToggle(text: string): (r: ThinkingRequest)
    ensures r.ShowStatus? <==> IsBlank(text)
    ensures r == Turn(true) <==> Lower(Strip(text)) == "on"
    ensures r == Turn(false) <==> Lower(Strip(text)) == "off"
  {
    StripEmptyIffBlank(text);
    var toggle := Lower(Strip(text));
    if toggle == "" then ShowStatus else DecideToggle(toggle)
  }

  /** Surrounding blanks and upper case do not matter to `/showthinking`. */
  lemma ThinkingToggleNormalised(text: string)
    ensures ThinkingToggle(Strip(text)) == ThinkingToggle(text)
  {
    StripIdempotent(text);
    StripEmptyIffBlank(text);
    StripEmptyIffBlank(Strip(text));
  }

  /** `/showthinking`. */
  method ShowThinking(store: SessionStore, user: string, text: string, now: string)
    returns (current: Option<bool>, error: Option<Exception>)
    modifies store
    ensures IsBlank(text) ==>
      current == Some(GetShowThinking(old(store.files), Key(Platform, user))) && error == None && store.files == old(store.files)
    ensures !IsBlank(text) && ThinkingToggle(text).Invalid? ==> store.files == old(store.files) && error == None
    ensures ThinkingToggle(text).Turn? && !IsCorrupt(old(store.files), Key(Platform, user)) ==>
      store.files == old(store.files)[Key(Platform, user) :=
        Parsed(ThinkingSetRecord(Stored(old(store.files), Key(Platform, user)), ThinkingToggle(text).on, now))]
      && error == None
    ensures ThinkingToggle(text).Turn? && IsCorrupt(old(store.files), Key(Platform, user)) ==>
      error == Some(DecodeError(old(store.files)[Key(Platform, user)])) && store.files == old(store.files)
  {
    current, error := ApplyThinkingRequest(store, user, Platform, ThinkingToggle(text), now);
  }
}
