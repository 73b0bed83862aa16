/**
 * upsertBotAndIntents: for each configured intent, look it up, put it with
 * the checksum found (if any) and record its name and new version; then look
 * up the bot, project the prompt messages and put the bot once with the
 * recorded intents and the bot's checksum (if any).
 */
module Reconcile {
  import opened Wrappers
  import opened Values
  import opened LexClient
  import opened Payloads
  import opened Lookup

  // ------------------------------------------------------- configuration

  /** A `{content-type, content}` entry of a prompt in the configuration. */
  datatype MessageConfig = MessageConfig(contentType: Value, content: Value)

  /** A `{name, sample-utterances}` entry of `intents`. */
  datatype IntentConfig = IntentConfig(name: string, sampleUtterances: Value)

  /** `clarification-prompt`: `max-attempts` and `messages`. */
  datatype PromptConfig = PromptConfig(maxAttempts: Value, messages: seq<MessageConfig>)

  /** `abort-statement`: `messages`. */
  datatype StatementConfig = StatementConfig(messages: seq<MessageConfig>)

  /** One entry of the configuration's `bots` list. */
  datatype BotConfig = BotConfig(
    name: string,
    description: Value,
    version: string,
    intents: seq<IntentConfig>,
    clarificationPrompt: PromptConfig,
    abortStatement: StatementConfig)

  /** The version every intent is looked up at. */
  const Latest: string := "$LATEST"

  /** The retry count both finders are called with: their default. */
  const MaxRetry: int := 1

  // ------------------------------------------------------ message projection

  /** A configured message as put_bot takes it: `content-type` renamed to `contentType`. */
  function ProjectMessage(m: MessageConfig): Value {
    Dict(map["contentType" := m.contentType, "content" := m.content])
  }

  /**
   * The projection of a message list: same length and order, each message
   * carrying exactly `contentType` and `content`, copied unchanged.
   */
  function ProjectMessages(ms: seq<MessageConfig>): (r: seq<Value>)
    ensures |r| == |ms|
    ensures forall i :: 0 <= i < |ms| ==>
      r[i].Dict? && r[i].fields.Keys == {"contentType", "content"}
      && r[i].fields["contentType"] == ms[i].contentType && r[i].fields["content"] == ms[i].content
  {
    if ms == [] then [] else [ProjectMessage(ms[0])] + ProjectMessages(ms[1..])
  }

  /** The loop that appends one projected dictionary per configured message. */
  method CollectMessages(ms: seq<MessageConfig>) returns (out: seq<Value>)
    ensures out == ProjectMessages(ms)
  {
    out := [];
    var i := 0;
    while i < |ms|
      invariant 0 <= i <= |ms|
      invariant |out| == i
      invariant forall k :: 0 <= k < i ==> out[k] == ProjectMessage(ms[k])
    {
      out := out + [ProjectMessage(ms[i])];
      i := i + 1;
    }
    assert forall k :: 0 <= k < |ms| ==> ProjectMessages(ms)[k] == ProjectMessage(ms[k]);
  }

  function ClarificationPromptPayload(c: PromptConfig): Value {
    Dict(map["messages" := List(ProjectMessages(c.messages)), "maxAttempts" := c.maxAttempts])
  }

  function AbortStatementPayload(c: StatementConfig): Value {
    Dict(map["messages" := List(ProjectMessages(c.messages))])
  }

  // ------------------------------------------------------------ call plan

  /**
   * What the driver keeps from the reply to one of its calls: the checksum a
   * lookup found (None on a miss), the version a put_intent returned, the
   * response of put_bot; or the exception that reply raises.
   */
  function Harvest(c: Call, reply: Response): Result<Value, Error> {
    if c.IsLookup() then
      var t := TranslateLookup(reply);
      if t.Failure? then Failure(t.error)
      else if IsMiss(t) then Success(Null)
      else Field(t.value.value, "checksum")
    else if reply.Raised? then Failure(ClientError(reply.code))
    else if c.PutIntent? then Field(reply.body, "version")
    else Success(Dict(reply.body))
  }

  function HarvestAt(service: Service, log: seq<Call>, j: nat): Result<Value, Error>
    requires j < |log|
  {
    Harvest(log[j], ReplyAt(service, log, j))
  }

  /** One `{intentName, intentVersion}` entry of the bot's intent list. */
  function IntentRef(name: string, version: Value): Value {
    Dict(map["intentName" := Str(name), "intentVersion" := version])
  }

  /** The intent list after `i` intents, the versions taken from the put_intent replies in `h`. */
  function IntentRefs(service: Service, bot: BotConfig, h: seq<Call>, start: nat, i: nat): seq<Value>
    requires i <= |bot.intents| && start + 2 * i <= |h|
  {
    seq(i, k requires 0 <= k < i =>
      IntentRef(bot.intents[k].name, HarvestAt(service, h, start + 2 * k + 1).GetOr(Null)))
  }

  /** The put_intent the driver issues for `intent`: its name as description, no slots. */
  function IntentPut(intent: IntentConfig, checksum: Value): Call {
    PutIntent(IntentPayload(Str(intent.name), Str(intent.name),
      IntentDefaults.(slots := List([]), sampleUtterances := intent.sampleUtterances, checksum := checksum)))
  }

  /** The put_bot the driver issues. */
  function BotPut(bot: BotConfig, intents: seq<Value>, checksum: Value): Call {
    PutBot(BotPayload(Str(bot.name), bot.description, List(intents),
      ClarificationPromptPayload(bot.clarificationPrompt), AbortStatementPayload(bot.abortStatement),
      BotDefaults.(checksum := checksum)))
  }

  /** The number of calls of a run that raises nothing. */
  function Steps(bot: BotConfig): nat {
    2 * |bot.intents| + 2
  }

  /**
   * The call the driver makes after the history `h`, having started at
   * position `start`: per intent a lookup at $LATEST and a put carrying the
   * checksum just looked up, then the bot lookup at the configured version and
   * the bot put carrying the recorded intents and the bot's checksum.
   */
  function ExpectedCall(service: Service, bot: BotConfig, h: seq<Call>, start: nat): Call
    requires start <= |h|
  {
    var k := |h| - start;
    var n := |bot.intents|;
    if k < 2 * n then
      if k % 2 == 0 then GetIntent(bot.intents[k / 2].name, Latest)
      else IntentPut(bot.intents[k / 2], HarvestAt(service, h, |h| - 1).GetOr(Null))
    else if k == 2 * n then GetBot(bot.name, bot.version)
    else BotPut(bot, IntentRefs(service, bot, h, start, n), HarvestAt(service, h, |h| - 1).GetOr(Null))
  }

  /**
   * From `start` on, every call of `log` is the one the plan prescribes after
   * the calls before it (stated call by call, from the last one back).
   */
  ghost predicate Planned(service: Service, bot: BotConfig, log: seq<Call>, start: nat)
    decreases |log|
  {
    if |log| <= start then |log| == start
    else
      && Planned(service, bot, log[..|log| - 1], start)
      && log[|log| - 1] == ExpectedCall(service, bot, log[..|log| - 1], start)
  }

  /** The calls of `log` from `start` up to `end` were answered without an exception (stated from the last one back). */
  ghost predicate Answered(service: Service, log: seq<Call>, start: nat, end: nat)
    requires end <= |log|
  {
    end <= start || (Answered(service, log, start, end - 1) && HarvestAt(service, log, end - 1).Success?)
  }

  /** `log` from `start` on follows the plan, every call but the last answered without an exception. */
  ghost predicate FollowsPlan(service: Service, bot: BotConfig, log: seq<Call>, start: nat) {
    Planned(service, bot, log, start) && (|log| == 0 || Answered(service, log, start, |log| - 1))
  }

  /** `r` is what the driver keeps from the last call of `log`: what it returned, or the exception it raised. */
  ghost predicate LastOutcome(service: Service, log: seq<Call>, r: Result<Value, Error>) {
    0 < |log| && HarvestAt(service, log, |log| - 1) == r
  }

  /** `log` from `start` on holds the plan's calls for the first `i` intents, all answered, and `intents` their list. */
  ghost predicate IntentsDone(service: Service, bot: BotConfig, log: seq<Call>, start: nat, i: nat, intents: seq<Value>) {
    && i <= |bot.intents| && start + 2 * i == |log|
    && Planned(service, bot, log, start)
    && Answered(service, log, start, |log|)
    && intents == IntentRefs(service, bot, log, start, i)
  }

  // ----------------------------------------------------------------- driver

  /**
   * The lookup step of upsertBotAndIntents, the same for an intent and for the
   * bot: a retrying lookup of `q`, then the `checksum` of what it found, None
   * when it found nothing.
   */
  method FindChecksum(lex: Lex, q: Call) returns (r: Result<Value, Error>)
    requires q.IsLookup()
    modifies lex
    ensures lex.log == old(lex.log) + [q]
    ensures r == HarvestAt(lex.service, lex.log, |old(lex.log)|)
  {
    ghost var before := lex.log;
    ghost var delay;
    var found;
    found, delay := FindWithRetry(lex, q, MaxRetry);
    assert lex.log == before + [q];
    if found.Failure? {
      return Failure(found.error);
    }
    r := Success(Null);
    if found.value.Some? {
      r := Field(found.value.value, "checksum");
    }
  }

  /**
   * One iteration of the intent loop of upsertBotAndIntents: the lookup and
   * the put the plan prescribes for the `i`-th intent. It returns the version
   * the put replied with, or the first exception.
   */
  method UpsertOneIntent(lex: Lex, bot: BotConfig, ghost start: nat, i: nat, ghost intents: seq<Value>)
    returns (r: Result<Value, Error>)
    requires IntentsDone(lex.service, bot, lex.log, start, i, intents) && i < |bot.intents|
    modifies lex
    ensures |old(lex.log)| < |lex.log| <= |old(lex.log)| + 2
    ensures lex.log[..start] == old(lex.log)[..start]
    ensures r.Success? ==>
      IntentsDone(lex.service, bot, lex.log, start, i + 1, intents + [IntentRef(bot.intents[i].name, r.value)])
    ensures r.Failure? ==>
      && FollowsPlan(lex.service, bot, lex.log, start)
      && LastOutcome(lex.service, lex.log, Failure(r.error))
  {
    var intent := bot.intents[i];
    ghost var before := lex.log;
    LookupStep(lex.service, bot, before, start, i, intents);
    var intentChecksum := FindChecksum(lex, GetIntent(intent.name, Latest));
    if intentChecksum.Failure? {
      return Failure(intentChecksum.error);
    }
    var options := IntentDefaults.(slots := List([]), sampleUtterances := intent.sampleUtterances,
                                   checksum := intentChecksum.value);
    PutStep(lex.service, bot, before, start, i, intents, intentChecksum.value);
    var lexIntent := UpsertIntent(lex, Str(intent.name), Str(intent.name), options);
    if lexIntent.Raised? {
      return Failure(ClientError(lexIntent.code));
    }
    r := Field(lexIntent.body, "version");
    if r.Success? {
      RecordStep(lex.service, bot, before, start, i, intents, intentChecksum.value, r.value);
    }
  }

  /**
   * The intent loop of upsertBotAndIntents: per configured intent, in order,
   * the lookup and the put the plan prescribes. It stops at the first
   * exception and returns it; otherwise it returns the recorded
   * `{intentName, intentVersion}` list.
   */
  method UpsertIntents(lex: Lex, bot: BotConfig) returns (r: Result<seq<Value>, Error>)
    modifies lex
    ensures |old(lex.log)| <= |lex.log| && lex.log[..|old(lex.log)|] == old(lex.log)
    ensures r.Success? ==> IntentsDone(lex.service, bot, lex.log, |old(lex.log)|, |bot.intents|, r.value)
    ensures r.Failure? ==>
      && |old(lex.log)| < |lex.log| <= |old(lex.log)| + 2 * |bot.intents|
      && FollowsPlan(lex.service, bot, lex.log, |old(lex.log)|)
      && LastOutcome(lex.service, lex.log, Failure(r.error))
  {
    ghost var start := |lex.log|;
    var intents: seq<Value> := [];
    var i := 0;
    while i < |bot.intents|
      invariant i <= |bot.intents| && |lex.log| == start + 2 * i
      invariant IntentsDone(lex.service, bot, lex.log, start, i, intents)
      invariant lex.log[..start] == old(lex.log)
    {
      var version := UpsertOneIntent(lex, bot, start, i, intents);
      if version.Failure? {
        return Failure(version.error);
      }
      intents := intents + [IntentRef(bot.intents[i].name, version.value)];
      i := i + 1;
    }
    r := Success(intents);
  }

  /**
   * The bot half of upsertBotAndIntents, once every intent is done: the bot
   * lookup, the projection of the prompts and the put_bot. It returns the
   * put_bot response or the first exception.
   */
  method UpsertBotAfterIntents(lex: Lex, bot: BotConfig, ghost start: nat, intents: seq<Value>)
    returns (r: Result<Value, Error>)
    requires IntentsDone(lex.service, bot, lex.log, start, |bot.intents|, intents)
    modifies lex
    ensures |old(lex.log)| < |lex.log| <= |old(lex.log)| + 2
    ensures lex.log[..start] == old(lex.log)[..start]
    ensures FollowsPlan(lex.service, bot, lex.log, start)
    ensures LastOutcome(lex.service, lex.log, r)
    ensures |lex.log| < |old(lex.log)| + 2 ==> r.Failure?
  {
    ghost var before := lex.log;
    BotLookupStep(lex.service, bot, before, start, intents);
    var botChecksum := FindChecksum(lex, GetBot(bot.name, bot.version));
    if botChecksum.Failure? {
      return Failure(botChecksum.error);
    }

    var clarificationMessages := CollectMessages(bot.clarificationPrompt.messages);
    var abortStatementMessages := CollectMessages(bot.abortStatement.messages);
    var clarificationPrompt := Dict(map["messages" := List(clarificationMessages),
                                        "maxAttempts" := bot.clarificationPrompt.maxAttempts]);
    var abortStatement := Dict(map["messages" := List(abortStatementMessages)]);

    BotPutStep(lex.service, bot, before, start, intents, botChecksum.value);
    ghost var looked := lex.log;
    var lexBot := UpsertBot(lex, Str(bot.name), bot.description, List(intents),
                            clarificationPrompt, abortStatement, BotDefaults.(checksum := botChecksum.value));
    assert lex.log == looked + [BotPut(bot, intents, botChecksum.value)];
    if lexBot.Raised? {
      return Failure(ClientError(lexBot.code));
    }
    r := Success(Dict(lexBot.body));
  }

  /**
   * upsertBotAndIntents. Its calls follow the plan; it stops at the first
   * exception, which it returns, and otherwise makes all the planned calls and
   * returns the put_bot response.
   */
  method UpsertBotAndIntents(lex: Lex, bot: BotConfig) returns (r: Result<Value, Error>)
    modifies lex
    ensures |old(lex.log)| < |lex.log| <= |old(lex.log)| + Steps(bot)
    ensures lex.log[..|old(lex.log)|] == old(lex.log)
    ensures FollowsPlan(lex.service, bot, lex.log, |old(lex.log)|)
    ensures LastOutcome(lex.service, lex.log, r)
    ensures |lex.log| < |old(lex.log)| + Steps(bot) ==> r.Failure?
  {
    ghost var start := |lex.log|;
    var intents := UpsertIntents(lex, bot);
    if intents.Failure? {
      return Failure(intents.error);
    }
    r := UpsertBotAfterIntents(lex, bot, start, intents.value);
  }

  // ------------------------------------------------------ lemmas on the plan

  /** Appending a planned call keeps the history planned, and changes nothing about the calls already in it. */
  lemma Append(service: Service, bot: BotConfig, h: seq<Call>, start: nat, c: Call)
    requires Planned(service, bot, h, start) && c == ExpectedCall(service, bot, h, start)
    ensures Planned(service, bot, h + [c], start)
    ensures forall j :: 0 <= j <= |h| ==> (h + [c])[..j] == h[..j]
    ensures forall j :: 0 <= j < |h| ==> HarvestAt(service, h + [c], j) == HarvestAt(service, h, j)
    ensures Answered(service, h, start, |h|) ==> Answered(service, h + [c], start, |h|)
    ensures forall i :: 0 <= i <= |bot.intents| && start + 2 * i <= |h| ==>
      IntentRefs(service, bot, h + [c], start, i) == IntentRefs(service, bot, h, start, i)
  {
    var h' := h + [c];
    assert forall j :: 0 <= j <= |h| ==> h'[..j] == h[..j];
    assert h'[..|h|] == h;
    if Answered(service, h, start, |h|) {
      AnsweredExtend(service, h, start, |h|, c);
    }
  }

  /** Whether the calls up to `end` were answered does not change when a call is appended. */
  lemma {:induction false} AnsweredExtend(service: Service, h: seq<Call>, start: nat, end: nat, c: Call)
    requires end <= |h| && Answered(service, h, start, end)
    ensures Answered(service, h + [c], start, end)
  {
    if start < end {
      AnsweredExtend(service, h, start, end - 1, c);
      assert (h + [c])[..end - 1] == h[..end - 1];
    }
  }

  /** The lookup of the next intent is the planned call. */
  lemma LookupStep(service: Service, bot: BotConfig, h: seq<Call>, start: nat, i: nat, intents: seq<Value>)
    requires IntentsDone(service, bot, h, start, i, intents) && i < |bot.intents|
    ensures var h1 := h + [GetIntent(bot.intents[i].name, Latest)];
      && h1[..start] == h[..start]
      && FollowsPlan(service, bot, h1, start)
  {
    IntentLookupPlanned(service, bot, h, start, i);
    Append(service, bot, h, start, GetIntent(bot.intents[i].name, Latest));
  }

  /** After a lookup that found `checksum`, the put carrying it is the planned call. */
  lemma PutStep(service: Service, bot: BotConfig, h: seq<Call>, start: nat, i: nat, intents: seq<Value>,
                checksum: Value)
    requires IntentsDone(service, bot, h, start, i, intents) && i < |bot.intents|
    requires var h1 := h + [GetIntent(bot.intents[i].name, Latest)];
      HarvestAt(service, h1, |h|) == Success(checksum)
    ensures var h2 := h + [GetIntent(bot.intents[i].name, Latest)] + [IntentPut(bot.intents[i], checksum)];
      && h2[..start] == h[..start]
      && FollowsPlan(service, bot, h2, start)
  {
    var h1 := h + [GetIntent(bot.intents[i].name, Latest)];
    LookupStep(service, bot, h, start, i, intents);
    Append(service, bot, h, start, GetIntent(bot.intents[i].name, Latest));
    AnsweredGrow(service, h1, start);
    IntentPutPlanned(service, bot, h1, start, i, checksum);
    Append(service, bot, h1, start, IntentPut(bot.intents[i], checksum));
  }

  /** After the put returned `version`, one more intent is done and recorded. */
  lemma RecordStep(service: Service, bot: BotConfig, h: seq<Call>, start: nat, i: nat, intents: seq<Value>,
                   checksum: Value, version: Value)
    requires IntentsDone(service, bot, h, start, i, intents) && i < |bot.intents|
    requires var h1 := h + [GetIntent(bot.intents[i].name, Latest)];
      HarvestAt(service, h1, |h|) == Success(checksum)
    requires var h2 := h + [GetIntent(bot.intents[i].name, Latest)] + [IntentPut(bot.intents[i], checksum)];
      HarvestAt(service, h2, |h| + 1) == Success(version)
    ensures var h2 := h + [GetIntent(bot.intents[i].name, Latest)] + [IntentPut(bot.intents[i], checksum)];
      IntentsDone(service, bot, h2, start, i + 1, intents + [IntentRef(bot.intents[i].name, version)])
  {
    var h1 := h + [GetIntent(bot.intents[i].name, Latest)];
    var h2 := h1 + [IntentPut(bot.intents[i], checksum)];
    PutStep(service, bot, h, start, i, intents, checksum);
    Append(service, bot, h, start, GetIntent(bot.intents[i].name, Latest));
    AnsweredGrow(service, h1, start);
    IntentPutPlanned(service, bot, h1, start, i, checksum);
    Append(service, bot, h1, start, IntentPut(bot.intents[i], checksum));
    AnsweredGrow(service, h2, start);
    IntentRefsStep(service, bot, h2, start, i);
  }

  /** Once every intent is done, the bot lookup is the planned call. */
  lemma BotLookupStep(service: Service, bot: BotConfig, h: seq<Call>, start: nat, intents: seq<Value>)
    requires IntentsDone(service, bot, h, start, |bot.intents|, intents)
    ensures var h1 := h + [GetBot(bot.name, bot.version)];
      && h1[..start] == h[..start]
      && FollowsPlan(service, bot, h1, start)
  {
    Append(service, bot, h, start, GetBot(bot.name, bot.version));
  }

  /** After a bot lookup that found `checksum`, the bot put carrying it and the recorded intents is the planned call. */
  lemma BotPutStep(service: Service, bot: BotConfig, h: seq<Call>, start: nat, intents: seq<Value>,
                   checksum: Value)
    requires IntentsDone(service, bot, h, start, |bot.intents|, intents)
    requires var h1 := h + [GetBot(bot.name, bot.version)];
      HarvestAt(service, h1, |h|) == Success(checksum)
    ensures var h2 := h + [GetBot(bot.name, bot.version)] + [BotPut(bot, intents, checksum)];
      && h2[..start] == h[..start]
      && FollowsPlan(service, bot, h2, start)
  {
    var h1 := h + [GetBot(bot.name, bot.version)];
    Append(service, bot, h, start, GetBot(bot.name, bot.version));
    AnsweredGrow(service, h1, start);
    BotPutPlanned(service, bot, h1, start, checksum);
    Append(service, bot, h1, start, BotPut(bot, intents, checksum));
  }

  /** Each call of an answered stretch was answered without an exception. */
  lemma {:induction false} AnsweredAt(service: Service, log: seq<Call>, start: nat, end: nat, j: nat)
    requires end <= |log| && Answered(service, log, start, end) && start <= j < end
    ensures HarvestAt(service, log, j).Success?
  {
    if j < end - 1 {
      AnsweredAt(service, log, start, end - 1, j);
    }
  }

  lemma AnsweredGrow(service: Service, h: seq<Call>, start: nat)
    requires start < |h| && Answered(service, h, start, |h| - 1) && HarvestAt(service, h, |h| - 1).Success?
    ensures Answered(service, h, start, |h|)
  {
  }

  lemma IntentLookupPlanned(service: Service, bot: BotConfig, h: seq<Call>, start: nat, i: nat)
    requires i < |bot.intents| && |h| == start + 2 * i
    ensures ExpectedCall(service, bot, h, start) == GetIntent(bot.intents[i].name, Latest)
  {
  }

  lemma IntentPutPlanned(service: Service, bot: BotConfig, h: seq<Call>, start: nat, i: nat, checksum: Value)
    requires i < |bot.intents| && |h| == start + 2 * i + 1
    requires HarvestAt(service, h, |h| - 1) == Success(checksum)
    ensures ExpectedCall(service, bot, h, start) == IntentPut(bot.intents[i], checksum)
  {
  }

  lemma BotPutPlanned(service: Service, bot: BotConfig, h: seq<Call>, start: nat, checksum: Value)
    requires |h| == start + 2 * |bot.intents| + 1
    requires HarvestAt(service, h, |h| - 1) == Success(checksum)
    ensures ExpectedCall(service, bot, h, start)
      == BotPut(bot, IntentRefs(service, bot, h, start, |bot.intents|), checksum)
  {
  }

  lemma IntentRefsStep(service: Service, bot: BotConfig, h: seq<Call>, start: nat, i: nat)
    requires i < |bot.intents| && start + 2 * i + 2 <= |h|
    requires HarvestAt(service, h, start + 2 * i + 1).Success?
    ensures IntentRefs(service, bot, h, start, i + 1) == IntentRefs(service, bot, h, start, i)
      + [IntentRef(bot.intents[i].name, HarvestAt(service, h, start + 2 * i + 1).value)]
  {
  }
}
