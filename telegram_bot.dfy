/**
 * The Telegram front end: the `\/` escape for messages meant as slash
 * commands for the assistant, the arguments of `/setcwd` and
 * `/showthinking`, and how a reply longer than one message is sent.
 *
 * Command arguments arrive already split on whitespace, as the bot library
 * delivers them. Each sent message is returned instead of being sent; the
 * outcome of the SDK call and the file-system checks of `/setcwd` are
 * parameters.
 */
module TelegramBot {
  import opened Wrappers
  import opened Text
  import opened SdkTypes
  import opened BotCommon
  import opened ChatBots

  const MaxMessageLength: int := 4096

  /** Long replies are cut into chunks of at most 3896 characters, the buffer being its largest, 200. */
  lemma ChunkBudget()
    ensures SafetyBuffer(MaxMessageLength) == 200
    ensures EffectiveLimit(MaxMessageLength) == 3896
  {
  }

  const Platform: string := "telegram"

  /** The two characters that make the assistant see a leading slash. */
  const Escape: string := "\\/"

  /** `handle_message`'s rewrite: a leading `\/` becomes `/`, any other text is kept. */
  function Unescape(text: string): (r: string)
    ensures |text| >= 2 && text[..2] == Escape ==> r == "/" + text[2..]
    ensures !(|text| >= 2 && text[..2] == Escape) ==> r == text
  {
    if |text| >= 2 && text[..2] == Escape then "/" + text[2..] else text
  }

  /** Escaping a slash command and unescaping it gives the command back. */
  lemma UnescapeCommand(command: string)
    ensures Unescape(Escape + command) == "/" + command
  {
    assert (Escape + command)[..2] == Escape;
    assert (Escape + command)[2..] == command;
  }

  /** Only the leading escape is rewritten, and the text shrinks by exactly one character when it is. */
  lemma UnescapeOnce(text: string)
    ensures |Unescape(text)| == |text| || |Unescape(text)| == |text| - 1
    ensures Unescape(text) != text ==> Unescape(text)[1..] == text[2..]
  {
  }

  /** The decoration of the continuation marker, `(continued i/n)` and a blank line. */
  const Opening: string := "(continued "

  const Closing: string := ")\n\n"

  function ContinuedPrefix(i: nat, n: nat): string {
    Continued(Opening, Closing, i, n)
  }

  /** The messages of `send_long_message`: one per chunk of `text`, in order, every one after the first marked. */
  predicate Delivers(sent: seq<string>, text: string) {
    var chunks := Split(text, MaxMessageLength);
    && |sent| == |chunks|
    && forall i | 0 <= i < |sent| :: sent[i] == (if i == 0 then "" else ContinuedPrefix(i + 1, |chunks|)) + chunks[i]
  }

  /** `send_long_message`, which rewrites each chunk after the first in place. */
  method SendLongMessage(text: string) returns (sent: seq<string>)
    ensures Delivers(sent, text)
  {
    var chunks := SplitLongMessage(text, MaxMessageLength);
    sent := [];
    var i := 0;
    while i < |chunks|
      invariant 0 <= i <= |chunks|
      invariant |sent| == i
      invariant forall j | 0 <= j < i :: sent[j] == (if j == 0 then "" else ContinuedPrefix(j + 1, |chunks|)) + chunks[j]
    {
      var chunk := chunks[i];
      if i > 0 {
        chunk := ContinuedPrefix(i + 1, |chunks|) + chunk;
      }
      assert i == 0 ==> chunk == "" + chunks[i];
      sent := sent + [chunk];
      i := i + 1;
    }
  }

  /** The messages that answer a message: the reply in numbered chunks, or the error alone. */
  predicate Answers(sent: seq<string>, reply: Result<string, Exception>) {
    match reply
    case Success(text) => Delivers(sent, text)
    case Failure(e) => sent == [ErrorMessage(e)]
  }

  /** The text around the exception's message in the error reply. */
  const ErrorOpening: string := "⚠️ Sorry, I encountered an error processing your message.\n\nError: "

  const ErrorClosing: string := "\n\nPlease try again or use /reset to start a fresh conversation."

  function ErrorMessage(e: Exception): string {
    ErrorOpening + e.message + ErrorClosing
  }

  /**
   * `handle_message`: the unescaped text is the prompt; the reply, with its
   * tool indicators when tools were used, is sent in numbered chunks, and a
   * failure is answered with the error.
   */
  method HandleMessage(store: SessionStore, user: string, text: string, defaultCwd: string, now: string,
                       outcome: Result<ProcessedResponse, Exception>)
    returns (prompt: string, config: ExecutorConfig, sent: seq<string>)
    modifies store
    ensures prompt == Unescape(text)
    ensures config == MessageConfig(old(store.files), Key(Platform, user), None, None, defaultCwd)
    ensures outcome.Failure? ==> sent == [ErrorMessage(outcome.error)] && store.files == old(store.files)
    ensures outcome.Success? && !IsCorrupt(old(store.files), Key(Platform, user)) ==>
      Delivers(sent, WithIndicators(ReplyText(outcome.value.text), outcome.value.toolUses))
    ensures Answers(sent, BotReply(outcome, old(store.files), Key(Platform, user)))
    ensures store.files == FilesAfterReply(outcome, old(store.files), Key(Platform, user), defaultCwd, now)
  {
    prompt := text;
    if |prompt| >= 2 && prompt[..2] == Escape {
      prompt := "/" + prompt[2..];
    }
    ghost var before := store.files;
    var reply;
    config, reply := store.ProcessClaudeMessage(user, Platform, None, None, defaultCwd, now, outcome);
    var answer: Result<string, Exception>;
    if reply.Failure? {
      answer := Failure(reply.error);
    } else {
      var responseText := reply.value.0;
      if reply.value.1 != [] {
        responseText := responseText + FormatToolIndicators(reply.value.1);
      }
      answer := Success(responseText);
    }
    assert answer == BotReply(outcome, before, Key(Platform, user));
    sent := SendAnswer(answer);
  }

  /** The `try`/`except` around the reply: the text in numbered chunks, or the error in one message. */
  method SendAnswer(answer: Result<string, Exception>) returns (sent: seq<string>)
    ensures Answers(sent, answer)
  {
    if answer.Failure? {
      return [ErrorMessage(answer.error)];
    }
    sent := SendLongMessage(answer.value);
  }

  /** The path argument of `/setcwd`: the arguments joined with single spaces, when there are any. */
  function SetCwdPath(args: seq<string>): (r: Option<string>)
    ensures r.None? <==> args == []
    ensures |args| == 1 ==> r == Some(args[0])
  {
    if args == [] then None else Some(Join(" ", args))
  }

  /** A path split into words on single spaces is put back together. */
  lemma SetCwdPathRejoins(first: string, rest: seq<string>)
    ensures SetCwdPath([first] + rest) == Some(if rest == [] then first else first + " " + Join(" ", rest))
  {
    assert ([first] + rest)[1..] == rest;
  }

  /**
   * `/setcwd`: without arguments, or when the path is not an existing
   * directory (`isDirectory`), nothing is saved; otherwise its absolute
   * form `absolutePath` becomes the working directory.
   */
  method SetCwd(store: SessionStore, user: string, args: seq<string>, isDirectory: bool, absolutePath: string, now: string)
    returns (saved: Option<string>, error: Option<Exception>)
    modifies store
    ensures (args == [] || !isDirectory) ==> saved == None && error == None && store.files == old(store.files)
    ensures args != [] && isDirectory ==>
      && var k := Key(Platform, user);
         if IsCorrupt(old(store.files), k) then saved == None && error == Some(DecodeError(old(store.files)[k])) && store.files == old(store.files)
         else saved == Some(absolutePath) && error == None && store.files == old(store.files)[k := Parsed(CwdSetRecord(Stored(old(store.files), k), absolutePath, now))]
  {
    var path := SetCwdPath(args);
    if path.None? || !isDirectory {
      return None, None;
    }
    error := store.SetUserCwd(user, absolutePath, Platform, now);
    saved := if error.None? then Some(absolutePath) else None;
  }

  /** The request of `/showthinking`: no arguments ask for the status; otherwise only the first, lower-cased, counts. */
  function ThinkingToggle(args: seq<string>): (r: ThinkingRequest)
    ensures r.ShowStatus? <==> args == []
    ensures r == Turn(true) <==> args != [] && Lower(args[0]) == "on"
    ensures r == Turn(false) <==> args != [] && Lower(args[0]) == "off"
  {
    if args == [] then ShowStatus else DecideToggle(Lower(args[0]))
  }

  /** Arguments after the first never change the request. */
  lemma ThinkingToggleFirstOnly(first: string, rest: seq<string>, other: seq<string>)
    ensures ThinkingToggle([first] + rest) == ThinkingToggle([first] + other)
  {
  }

  /** `/showthinking`. */
  method ShowThinking(store: SessionStore, user: string, args: seq<string>, now: string)
    returns (current: Option<bool>, error: Option<Exception>)
    modifies store
    ensures args == [] ==>
      current == Some(GetShowThinking(old(store.files), Key(Platform, user))) && error == None && store.files == old(store.files)
    ensures ThinkingToggle(args).Invalid? ==> store.files == old(store.files) && error == None
    ensures ThinkingToggle(args).Turn? && !IsCorrupt(old(store.files), Key(Platform, user)) ==>
      store.files == old(store.files)[Key(Platform, user) :=
        Parsed(ThinkingSetRecord(Stored(old(store.files), Key(Platform, user)), ThinkingToggle(args).on, now))]
      && error == None
    ensures ThinkingToggle(args).Turn? && IsCorrupt(old(store.files), Key(Platform, user)) ==>
      error == Some(DecodeError(old(store.files)[Key(Platform, user)])) && store.files == old(store.files)
  {
    current, error := ApplyThinkingRequest(store, user, Platform, ThinkingToggle(args), now);
  }
}
