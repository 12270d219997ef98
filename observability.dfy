/**
 * Observability of SDK executions: the hub that fans each lifecycle event
 * out to its enabled backends (server/sdk_executor.py and
 * server/observability.py hold two copies of it), and the record selection
 * of the JSONL file backend (server/observability.py).
 *
 * A backend is an object with an optional `enabled` attribute whose handler
 * may raise; whether it raises is not known to the hub and is left
 * unspecified. The file backend's log directory is a map from file name to
 * the sequence of records appended to that file.
 */
module Observability {
  import opened Wrappers
  import opened Seqs
  import opened Text
  import opened SdkTypes

  /** The four lifecycle events a hub broadcasts. */
  datatype HubEvent =
    | RequestStart(config: ExecutorConfig, prompt: string)
    | MessageReceived(config: ExecutorConfig, message: Message)
    | Completion(config: ExecutorConfig, result: ProcessedResponse)
    | Failed(config: ExecutorConfig, error: Exception)

  /**
   * A backend as the hub sees it. `enabled` is `None` when the object has no
   * such attribute. `calls` records every event handed to it, including the
   * calls in which it raised.
   */
  class Backend {
    const enabled: Option<bool>
    var calls: seq<HubEvent>

    constructor(enabled: Option<bool>)
      ensures this.enabled == enabled && calls == []
    {
      this.enabled := enabled;
      calls := [];
    }

    /** Handles one event; `raised` tells whether the handler raised. */
    method Handle(e: HubEvent) returns (raised: bool)
      modifies this
      ensures calls == old(calls) + [e]
    {
      calls := calls + [e];
      raised :| true;
    }
  }

  /** `getattr(b, 'enabled', True)`: a missing attribute counts as enabled. */
  predicate IsEnabled(b: Backend) {
    b.enabled != Some(false)
  }

  /** The hub's filter `[b for b in backends if getattr(b, 'enabled', True)]`. */
  function KeepEnabled(bs: seq<Backend>): (r: seq<Backend>)
    ensures forall i | 0 <= i < |r| :: r[i] in bs && IsEnabled(r[i])
    ensures forall i | 0 <= i < |bs| :: IsEnabled(bs[i]) ==> bs[i] in r
    ensures |r| <= |bs|
  {
    if bs == [] then []
    else
      var init := KeepEnabled(bs[..|bs| - 1]);
      var last := bs[|bs| - 1];
      assert bs == bs[..|bs| - 1] + [last];
      if IsEnabled(last) then init + [last] else init
  }

  /** The filter keeps order: filtering a concatenation filters each part. */
  lemma {:induction false} KeepEnabledAppend(a: seq<Backend>, b: seq<Backend>)
    ensures KeepEnabled(a + b) == KeepEnabled(a) + KeepEnabled(b)
    decreases |b|
  {
    if b != [] {
      var b' := b[..|b| - 1];
      assert (a + b)[..|a + b| - 1] == a + b';
      assert (a + b)[|a + b| - 1] == b[|b| - 1];
      KeepEnabledAppend(a, b');
    } else {
      assert a + b == a;
    }
  }

  /** When every backend is enabled the filter keeps the list as it is. */
  lemma {:induction false} KeepEnabledAll(bs: seq<Backend>)
    requires forall i | 0 <= i < |bs| :: IsEnabled(bs[i])
    ensures KeepEnabled(bs) == bs
  {
    if bs != [] {
      KeepEnabledAll(bs[..|bs| - 1]);
      assert bs[..|bs| - 1] + [bs[|bs| - 1]] == bs;
    }
  }

  /** Filtering a filtered list changes nothing. */
  lemma KeepEnabledIdempotent(bs: seq<Backend>)
    ensures KeepEnabled(KeepEnabled(bs)) == KeepEnabled(bs)
  {
    KeepEnabledAll(KeepEnabled(bs));
  }

  /** One call of a backend by the hub: which backend, which event, whether it raised. */
  datatype Delivery = Delivery(backend: nat, event: HubEvent, raised: bool)

  /**
   * `ObservabilityHub`. `log` is the sequence of events broadcast so far and
   * `deliveries` the sequence of backend calls made for them.
   */
  class Hub {
    const backends: seq<Backend>
    var log: seq<HubEvent>
    var deliveries: seq<Delivery>

    /** Keeps only the enabled backends, in their given order. */
    constructor(candidates: seq<Backend>)
      ensures backends == KeepEnabled(candidates)
      ensures log == [] && deliveries == []
    {
      backends := KeepEnabled(candidates);
      log := [];
      deliveries := [];
    }

    /**
     * The state after broadcasting `e`: the event is logged, every backend
     * was called once per position it holds in `backends`, and the calls
     * were made in list order whatever each of them raised.
     */
    twostate predicate Broadcasted(e: HubEvent)
      reads this, backends
    {
      && log == old(log) + [e]
      && |deliveries| == |old(deliveries)| + |backends|
      && deliveries[..|old(deliveries)|] == old(deliveries)
      && (forall k | |old(deliveries)| <= k < |deliveries| ::
            deliveries[k].backend == k - |old(deliveries)| && deliveries[k].event == e)
      && (forall j | 0 <= j < |backends| ::
            backends[j].calls == old(backends[j].calls) + Repeat(e, Count(backends, backends[j])))
    }

    /** The loop shared by all hub methods, with the exception of each backend caught. */
    method Broadcast(e: HubEvent)
      modifies this, backends
      ensures Broadcasted(e)
    {
      log := log + [e];
      var i := 0;
      while i < |backends|
        invariant 0 <= i <= |backends|
        invariant log == old(log) + [e]
        invariant |deliveries| == |old(deliveries)| + i
        invariant deliveries[..|old(deliveries)|] == old(deliveries)
        invariant forall k | |old(deliveries)| <= k < |deliveries| ::
          deliveries[k].backend == k - |old(deliveries)| && deliveries[k].event == e
        invariant forall j | 0 <= j < |backends| ::
          backends[j].calls == old(backends[j].calls) + Repeat(e, Count(backends[..i], backends[j]))
      {
        label Before:
        var raised := backends[i].Handle(e);
        forall j | 0 <= j < |backends|
          ensures backends[j].calls == old(backends[j].calls) + Repeat(e, Count(backends[..i + 1], backends[j]))
        {
          CountPrefixStep(backends, i, backends[j]);
          if backends[j] == backends[i] {
            assert backends[j].calls == old@Before(backends[j].calls) + [e];
          } else {
            assert backends[j].calls == old@Before(backends[j].calls);
          }
        }
        deliveries := deliveries + [Delivery(i, e, raised)];
        i := i + 1;
      }
      assert backends[..i] == backends;
    }

    method LogRequestStart(config: ExecutorConfig, prompt: string)
      modifies this, backends
      ensures Broadcasted(RequestStart(config, prompt))
    {
      Broadcast(RequestStart(config, prompt));
    }

    method LogMessageReceived(config: ExecutorConfig, message: Message)
      modifies this, backends
      ensures Broadcasted(MessageReceived(config, message))
    {
      Broadcast(MessageReceived(config, message));
    }

    /**
     * The variant in server/observability.py, which also takes the running
     * message count and does not pass it on to any backend.
     */
    method LogMessageReceivedCounted(config: ExecutorConfig, message: Message, messageCount: int)
      modifies this, backends
      ensures Broadcasted(MessageReceived(config, message))
    {
      Broadcast(MessageReceived(config, message));
    }

    method LogCompletion(config: ExecutorConfig, result: ProcessedResponse)
      modifies this, backends
      ensures Broadcasted(Completion(config, result))
    {
      Broadcast(Completion(config, result));
    }

    method LogError(config: ExecutorConfig, error: Exception)
      modifies this, backends
      ensures Broadcasted(Failed(config, error))
    {
      Broadcast(Failed(config, error));
    }
  }

  /** One JSON object appended to a request log file; `timestamp` is the ISO time string. */
  datatype Record =
    | RequestStartRecord(timestamp: string, userId: Option<string>, platform: Option<string>,
                         promptLength: nat, promptPreview: string, sessionId: Option<string>)
    | TextRecord(timestamp: string, content: string)
    | ToolUseRecord(timestamp: string, toolName: string, toolUseId: string, input: string)
    | ToolResultRecord(timestamp: string, toolUseId: string, content: string, isError: Option<bool>)
    | ThinkingRecord(timestamp: string, content: string)
    | SystemRecord(timestamp: string, subtype: string, message: string)
    | ResultRecord(timestamp: string, resultIsError: bool, result: Option<string>, durationMs: int,
                   numTurns: int, resultSessionId: string, totalCostUsd: Option<real>, usage: Option<string>)
    | CompletionRecord(timestamp: string, userId: Option<string>, platform: Option<string>,
                       responseLength: nat, toolUses: seq<string>, thinkingBlocksCount: nat,
                       sessionId: Option<string>, metrics: map<string, int>)
    | ErrorRecord(timestamp: string, userId: Option<string>, platform: Option<string>,
                  errorType: string, errorMessage: string)

  /** Text, tool-result and thinking contents are cut to this many characters. */
  const ContentLimit: nat := 1000

  /** The request-start record keeps a prompt preview of this many characters. */
  const PreviewLimit: nat := 200

  /** The log file of a platform: `f"{config.platform or 'sdk'}_requests.jsonl"`. */
  function LogFileName(config: ExecutorConfig): (r: string)
    ensures Truthy(config.platform) ==> r == config.platform.value + "_requests.jsonl"
    ensures !Truthy(config.platform) ==> r == "sdk_requests.jsonl"
  {
    (if Truthy(config.platform) then config.platform.value else "sdk") + "_requests.jsonl"
  }

  /** Different platforms log to different files. */
  lemma LogFileNameInjective(c1: ExecutorConfig, c2: ExecutorConfig)
    requires Truthy(c1.platform) && Truthy(c2.platform)
    requires LogFileName(c1) == LogFileName(c2)
    ensures c1.platform == c2.platform
  {
    var p1, p2 := c1.platform.value, c2.platform.value;
    assert p1 == LogFileName(c1)[..|p1|];
    assert p2 == LogFileName(c2)[..|p2|];
  }

  /** A missing or empty platform logs to the file of the platform `"sdk"`. */
  lemma FalsyPlatformSharesSdkFile(c1: ExecutorConfig, c2: ExecutorConfig)
    requires !Truthy(c1.platform) && c2.platform == Some("sdk")
    ensures LogFileName(c1) == LogFileName(c2) && c1.platform != c2.platform
  {
  }

  /** The string logged for a tool result: the text itself, or the `str()` form of anything else. */
  function ResultText(c: ToolResultContent): string {
    match c
    case TextContent(t) => t
    case OtherContent(repr) => repr
  }

  /** The record a content block yields, if any. */
  function BlockRecord(b: Block, now: string): Option<Record> {
    match b
    case TextBlock(t) => Some(TextRecord(now, Take(t, ContentLimit)))
    case ToolUseBlock(id, name, input) => Some(ToolUseRecord(now, name, id, input))
    case ToolResultBlock(useId, content, isError) =>
      Some(ToolResultRecord(now, useId, Take(ResultText(content), ContentLimit), isError))
    case ThinkingBlock(t) => Some(ThinkingRecord(now, Take(t, ContentLimit)))
    case OtherBlock => None
  }

  /** The records of a block list, in block order. */
  function BlockRecords(bs: seq<Block>, now: string): (r: seq<Record>)
    ensures |r| <= |bs|
  {
    if bs == [] then []
    else
      var last := BlockRecord(bs[|bs| - 1], now);
      BlockRecords(bs[..|bs| - 1], now) + (if last.Some? then [last.value] else [])
  }

  /** The records `log_message_received` appends for a message. */
  function MessageRecords(m: Message, now: string): seq<Record> {
    match m
    case AssistantMessage(content) => BlockRecords(content, now)
    case UserMessage(content) => BlockRecords(content, now)
    case SystemMessage(subtype, repr) => [SystemRecord(now, subtype, repr)]
    case ResultMessage(_, isError, result, durationMs, numTurns, sessionId, cost, usage) =>
      [ResultRecord(now, isError, result, durationMs, numTurns, sessionId, cost, usage)]
    case OtherMessage => []
  }

  /** A record whose content fields respect the size limit. */
  predicate Bounded(r: Record) {
    (r.TextRecord? || r.ThinkingRecord? || r.ToolResultRecord?) ==> |r.content| <= ContentLimit
  }

  /** The block records of a concatenation are the concatenation of the block records. */
  lemma {:induction false} BlockRecordsAppend(a: seq<Block>, b: seq<Block>, now: string)
    ensures BlockRecords(a + b, now) == BlockRecords(a, now) + BlockRecords(b, now)
    decreases |b|
  {
    if b != [] {
      var b' := b[..|b| - 1];
      assert (a + b)[..|a + b| - 1] == a + b';
      assert (a + b)[|a + b| - 1] == b[|b| - 1];
      BlockRecordsAppend(a, b', now);
    } else {
      assert a + b == a;
    }
  }

  /**
   * Exactly one record per text, tool-use, tool-result and thinking block and
   * none for any other block; with `BlockRecordsAppend` this fixes the records
   * of a whole message, in block order.
   */
  lemma BlockRecordsOfOne(b: Block, now: string)
    ensures |BlockRecords([b], now)| == (if b.OtherBlock? then 0 else 1)
    ensures b.TextBlock? ==> BlockRecords([b], now) == [TextRecord(now, Take(b.text, ContentLimit))]
    ensures b.ThinkingBlock? ==> BlockRecords([b], now) == [ThinkingRecord(now, Take(b.thinking, ContentLimit))]
    ensures b.ToolUseBlock? ==> BlockRecords([b], now) == [ToolUseRecord(now, b.name, b.id, b.input)]
    ensures b.ToolResultBlock? ==>
      BlockRecords([b], now) == [ToolResultRecord(now, b.toolUseId, Take(ResultText(b.content), ContentLimit), b.isError)]
  {
    assert [b][..0] == [];
  }

  /** Every record logged for a message keeps the size limit, and each content is a prefix of the logged text. */
  lemma {:induction false} BlockRecordsBounded(bs: seq<Block>, now: string)
    ensures forall i | 0 <= i < |BlockRecords(bs, now)| :: Bounded(BlockRecords(bs, now)[i])
    ensures forall i | 0 <= i < |BlockRecords(bs, now)| ::
      BlockRecords(bs, now)[i].TextRecord? ==> exists j | 0 <= j < |bs| :: bs[j].TextBlock? && BlockRecords(bs, now)[i].content <= bs[j].text
    decreases |bs|
  {
    if bs != [] {
      var init := bs[..|bs| - 1];
      BlockRecordsBounded(init, now);
      var r := BlockRecords(bs, now);
      forall i | 0 <= i < |r| && r[i].TextRecord?
        ensures exists j | 0 <= j < |bs| :: bs[j].TextBlock? && r[i].content <= bs[j].text
      {
        if i < |BlockRecords(init, now)| {
          var j :| 0 <= j < |init| && init[j].TextBlock? && r[i].content <= init[j].text;
          assert bs[j] == init[j];
        } else {
          assert bs[|bs| - 1].TextBlock?;
        }
      }
    }
  }

  /** A system or result message yields exactly one record, any other non-content message none. */
  lemma MessageRecordsCount(m: Message, now: string)
    ensures m.SystemMessage? || m.ResultMessage? ==> |MessageRecords(m, now)| == 1
    ensures m.OtherMessage? ==> MessageRecords(m, now) == []
    ensures m.AssistantMessage? || m.UserMessage? ==> |MessageRecords(m, now)| <= |m.content|
  {
  }

  /** The records already in file `name` (none for a file not yet created). */
  function Contents(files: map<string, seq<Record>>, name: string): seq<Record> {
    if name in files then files[name] else []
  }

  /** The log directory after appending `recs` to file `name`. */
  function AppendTo(files: map<string, seq<Record>>, name: string, recs: seq<Record>): (r: map<string, seq<Record>>)
    ensures Contents(r, name) == Contents(files, name) + recs
    ensures forall n | n != name :: Contents(r, n) == Contents(files, n)
    ensures r.Keys == files.Keys + (if recs == [] then {} else {name})
  {
    if recs == [] then files else files[name := Contents(files, name) + recs]
  }

  /** Appending twice is appending the concatenation. */
  lemma AppendToAppend(files: map<string, seq<Record>>, name: string, a: seq<Record>, b: seq<Record>)
    ensures AppendTo(AppendTo(files, name, a), name, b) == AppendTo(files, name, a + b)
  {
    if a == [] { assert a + b == b; }
    else if b == [] { assert a + b == a; }
    else { assert Contents(files, name) + a + b == Contents(files, name) + (a + b); }
  }

  /** `FileLoggingBackend`: the log directory and the start time of the last request. */
  class FileLog {
    const enabled: bool
    var files: map<string, seq<Record>>
    var startTime: Option<int>

    constructor()
      ensures enabled && files == map[] && startTime == None
    {
      enabled := true;
      files := map[];
      startTime := None;
    }

    /** Appends `recs` to file `name`; like opening in append mode per record, a file appears only once something is written to it. */
    method Append(name: string, recs: seq<Record>)
      modifies this
      ensures files == AppendTo(old(files), name, recs)
      ensures startTime == old(startTime)
    {
      files := AppendTo(files, name, recs);
    }

    /** Records the request start: the full prompt length and a 200-character preview. */
    method LogRequestStart(config: ExecutorConfig, prompt: string, now: string, clock: int)
      modifies this
      ensures startTime == Some(clock)
      ensures files == AppendTo(old(files), LogFileName(config),
        [RequestStartRecord(now, config.userId, config.platform, |prompt|, Take(prompt, PreviewLimit), config.sessionId)])
    {
      startTime := Some(clock);
      Append(LogFileName(config),
        [RequestStartRecord(now, config.userId, config.platform, |prompt|, Take(prompt, PreviewLimit), config.sessionId)]);
    }

    /** Appends the records of one message, block by block for assistant and user messages. */
    method LogMessageReceived(config: ExecutorConfig, message: Message, now: string)
      modifies this
      ensures startTime == old(startTime)
      ensures files == AppendTo(old(files), LogFileName(config), MessageRecords(message, now))
    {
      var name := LogFileName(config);
      if message.AssistantMessage? || message.UserMessage? {
        var blocks := message.content;
        var i := 0;
        assert blocks[..0] == [];
        while i < |blocks|
          invariant 0 <= i <= |blocks|
          invariant startTime == old(startTime)
          invariant files == AppendTo(old(files), name, BlockRecords(blocks[..i], now))
        {
          var rec := BlockRecord(blocks[i], now);
          assert blocks[..i + 1][..i] == blocks[..i];
          assert BlockRecords(blocks[..i + 1], now) == BlockRecords(blocks[..i], now) + (if rec.Some? then [rec.value] else []);
          if rec.Some? {
            AppendToAppend(old(files), name, BlockRecords(blocks[..i], now), [rec.value]);
            Append(name, [rec.value]);
          } else {
            assert BlockRecords(blocks[..i + 1], now) == BlockRecords(blocks[..i], now);
          }
          i := i + 1;
        }
        assert blocks[..i] == blocks;
      } else {
        Append(name, MessageRecords(message, now));
      }
    }

    method LogCompletion(config: ExecutorConfig, result: ProcessedResponse, now: string)
      modifies this
      ensures startTime == old(startTime)
      ensures files == AppendTo(old(files), LogFileName(config),
        [CompletionRecord(now, config.userId, config.platform, |result.text|, result.toolUses,
                          |result.thinkingBlocks|, result.sessionId, result.metrics)])
    {
      Append(LogFileName(config),
        [CompletionRecord(now, config.userId, config.platform, |result.text|, result.toolUses,
                          |result.thinkingBlocks|, result.sessionId, result.metrics)]);
    }

    method LogError(config: ExecutorConfig, error: Exception, now: string)
      modifies this
      ensures startTime == old(startTime)
      ensures files == AppendTo(old(files), LogFileName(config),
        [ErrorRecord(now, config.userId, config.platform, error.typeName, error.message)])
    {
      Append(LogFileName(config), [ErrorRecord(now, config.userId, config.platform, error.typeName, error.message)]);
    }
  }
}
