/**
 * What a run of upsertBotAndIntents looks like on the call log, derived from
 * the plan it follows: the calls at each position and what they carry, and
 * how many calls of each kind a complete run makes.
 */
module RunShape {
  import opened Wrappers
  import opened Values
  import opened LexClient
  import opened Payloads
  import opened Reconcile

  // ------------------------------------------------------------ positions

  /** The reply to an earlier call is the same whether read off a prefix of the log or off the whole log. */
  lemma HarvestOnPrefix(service: Service, log: seq<Call>, j: nat, m: nat)
    requires j < m <= |log|
    ensures HarvestAt(service, log[..m], j) == HarvestAt(service, log, j)
  {
    assert log[..m][..j] == log[..j];
  }

  /** The recorded intent list is the same whether read off a prefix of the log or off the whole log. */
  lemma IntentRefsOnPrefix(service: Service, bot: BotConfig, log: seq<Call>, start: nat, i: nat, m: nat)
    requires i <= |bot.intents| && start + 2 * i <= m <= |log|
    ensures IntentRefs(service, bot, log[..m], start, i) == IntentRefs(service, bot, log, start, i)
  {
    forall k | 0 <= k < i
      ensures HarvestAt(service, log[..m], start + 2 * k + 1) == HarvestAt(service, log, start + 2 * k + 1)
    {
      HarvestOnPrefix(service, log, start + 2 * k + 1, m);
    }
  }

  /**
   * The put_intent the driver issues for an intent: its name as name and
   * description, empty slots, the configured sample utterances, the checksum
   * exactly when it is truthy, the default fulfillment activity, and no other
   * key.
   */
  lemma IntentPutShape(intent: IntentConfig, checksum: Value)
    ensures var p := IntentPut(intent, checksum);
      && p.PutIntent?
      && Mandatory(p.args, "name", Str(intent.name))
      && Mandatory(p.args, "description", Str(intent.name))
      && Mandatory(p.args, "slots", List([]))
      && Mandatory(p.args, "sampleUtterances", intent.sampleUtterances)
      && Optional(p.args, "checksum", checksum)
      && Mandatory(p.args, "fulfillmentActivity", ReturnIntent)
      && p.args.Keys <= {"name", "description", "slots", "sampleUtterances", "checksum", "fulfillmentActivity"}
  {
    var o := IntentDefaults.(slots := List([]), sampleUtterances := intent.sampleUtterances, checksum := checksum);
    IntentPayloadMandatory(Str(intent.name), Str(intent.name), o);
    IntentPayloadPrompts(Str(intent.name), Str(intent.name), o);
    IntentPayloadHooks(Str(intent.name), Str(intent.name), o);
    assert "type" in ReturnIntent.fields;
  }

  /**
   * The put_bot the driver issues: the configured name and description, the
   * recorded intent list, the projected prompts, the defaults `SAVE`, `en-US`
   * and not child-directed, the checksum exactly when it is truthy, and no
   * idle-session timeout.
   */
  lemma BotPutShape(bot: BotConfig, intents: seq<Value>, checksum: Value)
    ensures var p := BotPut(bot, intents, checksum);
      && p.PutBot?
      && Mandatory(p.args, "name", Str(bot.name))
      && Mandatory(p.args, "description", bot.description)
      && Mandatory(p.args, "intents", List(intents))
      && Mandatory(p.args, "clarificationPrompt", ClarificationPromptPayload(bot.clarificationPrompt))
      && Mandatory(p.args, "abortStatement", AbortStatementPayload(bot.abortStatement))
      && Mandatory(p.args, "processBehavior", Str("SAVE"))
      && Mandatory(p.args, "locale", Str("en-US"))
      && Mandatory(p.args, "childDirected", Bool(false))
      && Optional(p.args, "checksum", checksum)
      && "idleSessionTTLInSeconds" !in p.args
      && p.args.Keys <= BotKeys
  {
    BotPayloadShape(Str(bot.name), bot.description, List(intents),
      ClarificationPromptPayload(bot.clarificationPrompt), AbortStatementPayload(bot.abortStatement),
      BotDefaults.(checksum := checksum));
  }

  /** Every prefix of a planned log that still reaches `start` is planned. */
  lemma {:induction false} PlannedPrefix(service: Service, bot: BotConfig, log: seq<Call>, start: nat, m: nat)
    requires Planned(service, bot, log, start) && start <= m <= |log|
    ensures Planned(service, bot, log[..m], start)
    decreases |log| - m
  {
    if m < |log| {
      var shorter := log[..|log| - 1];
      assert Planned(service, bot, shorter, start);
      PlannedPrefix(service, bot, shorter, start, m);
      assert shorter[..m] == log[..m];
    } else {
      assert log[..m] == log;
    }
  }

  /** The `j`-th call of a planned log is the one the plan prescribes after the calls before it. */
  lemma PlannedAt(service: Service, bot: BotConfig, log: seq<Call>, start: nat, j: nat)
    requires Planned(service, bot, log, start) && start <= j < |log|
    ensures log[j] == ExpectedCall(service, bot, log[..j], start)
  {
    PlannedPrefix(service, bot, log, start, j + 1);
    var p := log[..j + 1];
    assert p[..|p| - 1] == log[..j];
  }

  /**
   * The calls for the `i`-th configured intent: the lookup by its name at
   * $LATEST, then right after it the put_intent carrying what that lookup
   * found (see IntentPutShape).
   */
  lemma PlannedIntentCalls(service: Service, bot: BotConfig, log: seq<Call>, start: nat, i: nat)
    requires Planned(service, bot, log, start)
    requires i < |bot.intents| && start + 2 * i + 1 < |log|
    ensures log[start + 2 * i] == GetIntent(bot.intents[i].name, Latest)
    ensures log[start + 2 * i + 1] == IntentPut(bot.intents[i], HarvestAt(service, log, start + 2 * i).GetOr(Null))
  {
    var j := start + 2 * i + 1;
    PlannedAt(service, bot, log, start, j - 1);
    IntentLookupPlanned(service, bot, log[..j - 1], start, i);
    PlannedAt(service, bot, log, start, j);
    HarvestOnPrefix(service, log, j - 1, j);
    IntentPutAfter(service, bot, log[..j], start, i);
  }

  /** After the lookup of the `i`-th intent, the plan prescribes its put with whatever the lookup found. */
  lemma IntentPutAfter(service: Service, bot: BotConfig, h: seq<Call>, start: nat, i: nat)
    requires i < |bot.intents| && |h| == start + 2 * i + 1
    ensures ExpectedCall(service, bot, h, start) == IntentPut(bot.intents[i], HarvestAt(service, h, |h| - 1).GetOr(Null))
  {
  }

  /**
   * The last two calls of a complete run: the bot lookup by the configured
   * name and version, then the put_bot carrying the intent list recorded
   * from the put_intent replies and what that lookup found (see BotPutShape).
   */
  lemma PlannedBotCalls(service: Service, bot: BotConfig, log: seq<Call>, start: nat)
    requires Planned(service, bot, log, start)
    requires start + Steps(bot) <= |log|
    ensures log[start + 2 * |bot.intents|] == GetBot(bot.name, bot.version)
    ensures log[start + 2 * |bot.intents| + 1]
      == BotPut(bot, IntentRefs(service, bot, log, start, |bot.intents|),
                HarvestAt(service, log, start + 2 * |bot.intents|).GetOr(Null))
  {
    var n := |bot.intents|;
    var j := start + 2 * n + 1;
    PlannedAt(service, bot, log, start, j - 1);
    PlannedAt(service, bot, log, start, j);
    HarvestOnPrefix(service, log, j - 1, j);
    IntentRefsOnPrefix(service, bot, log, start, n, j);
  }

  /**
   * The recorded intent list: one `{intentName, intentVersion}` per intent
   * done, in configuration order, the version being the `version` of the
   * reply to that intent's put_intent.
   */
  lemma RecordedIntents(service: Service, bot: BotConfig, log: seq<Call>, start: nat, i: nat)
    requires Shaped(bot, log, start)
    requires i <= |bot.intents| && start + 2 * i <= |log|
    requires Answered(service, log, start, start + 2 * i)
    ensures var refs := IntentRefs(service, bot, log, start, i);
      && |refs| == i
      && forall k :: 0 <= k < i ==>
        var reply := ReplyAt(service, log, start + 2 * k + 1);
        && reply.Reply? && "version" in reply.body
        && refs[k] == IntentRef(bot.intents[k].name, reply.body["version"])
  {
    forall k | 0 <= k < i
      ensures var reply := ReplyAt(service, log, start + 2 * k + 1);
        && reply.Reply? && "version" in reply.body
        && IntentRefs(service, bot, log, start, i)[k] == IntentRef(bot.intents[k].name, reply.body["version"])
    {
      ShapedIntentAt(bot, log, start, k);
      AnsweredAt(service, log, start, start + 2 * i, start + 2 * k + 1);
      RecordedIntentAt(service, bot, log, start, i, k);
    }
  }

  /** The `k`-th entry of the recorded intent list. */
  lemma RecordedIntentAt(service: Service, bot: BotConfig, log: seq<Call>, start: nat, i: nat, k: nat)
    requires i <= |bot.intents| && start + 2 * i <= |log|
    requires k < i
    requires log[start + 2 * k + 1].PutIntent?
    requires HarvestAt(service, log, start + 2 * k + 1).Success?
    ensures var reply := ReplyAt(service, log, start + 2 * k + 1);
      && reply.Reply? && "version" in reply.body
      && IntentRefs(service, bot, log, start, i)[k] == IntentRef(bot.intents[k].name, reply.body["version"])
  {
    var j := start + 2 * k + 1;
    PutIntentHarvest(log[j], ReplyAt(service, log, j));
  }

  /** What the driver keeps from an answered put_intent is the `version` of its reply. */
  lemma PutIntentHarvest(c: Call, reply: Response)
    requires c.PutIntent? && Harvest(c, reply).Success?
    ensures reply.Reply? && "version" in reply.body && Harvest(c, reply) == Success(reply.body["version"])
  {
  }

  // --------------------------------------------------------------- counts

  datatype CallKind = LookupIntentCall | PutIntentCall | LookupBotCall | PutBotCall

  function KindOf(c: Call): CallKind {
    match c
    case GetIntent(_, _) => LookupIntentCall
    case PutIntent(_) => PutIntentCall
    case GetBot(_, _) => LookupBotCall
    case PutBot(_) => PutBotCall
  }

  /** The number of calls of `kind` in `s`. */
  function Count(s: seq<Call>, kind: CallKind): nat {
    if s == [] then 0 else Count(s[..|s| - 1], kind) + (if KindOf(s[|s| - 1]) == kind then 1 else 0)
  }

  /** The get_intent calls of `s`, in order. */
  function IntentLookups(s: seq<Call>): seq<Call> {
    if s == [] then []
    else IntentLookups(s[..|s| - 1]) + (if s[|s| - 1].GetIntent? then [s[|s| - 1]] else [])
  }

  /** The lookups of the first `i` configured intents, by name at $LATEST, in configuration order. */
  function ConfiguredLookups(bot: BotConfig, i: nat): seq<Call>
    requires i <= |bot.intents|
  {
    seq(i, k requires 0 <= k < i => GetIntent(bot.intents[k].name, Latest))
  }

  /** The kind of the `k`-th call of a run with `n` intents: lookup and put per intent, then the bot's. */
  function PlannedKind(n: nat, k: nat): CallKind {
    if k < 2 * n then (if k % 2 == 0 then LookupIntentCall else PutIntentCall)
    else if k == 2 * n then LookupBotCall
    else PutBotCall
  }

  /**
   * From `start` on, every call of `log` is of the planned kind, and every
   * intent lookup is the one of the intent whose turn it is.
   */
  ghost predicate Shaped(bot: BotConfig, log: seq<Call>, start: nat) {
    && start <= |log|
    && forall j :: start <= j < |log| ==> ShapedCall(bot, log, start, j)
  }

  /** The call at position `j` is of the planned kind and, when it is an intent lookup, the planned one. */
  ghost predicate ShapedCall(bot: BotConfig, log: seq<Call>, start: nat, j: nat)
    requires start <= j < |log|
  {
    && KindOf(log[j]) == PlannedKind(|bot.intents|, j - start)
    && (j - start < 2 * |bot.intents| && (j - start) % 2 == 0 ==>
          log[j] == GetIntent(bot.intents[(j - start) / 2].name, Latest))
  }

  lemma ExpectedKind(service: Service, bot: BotConfig, h: seq<Call>, start: nat)
    requires start <= |h|
    ensures var k := |h| - start;
      && KindOf(ExpectedCall(service, bot, h, start)) == PlannedKind(|bot.intents|, k)
      && (k < 2 * |bot.intents| && k % 2 == 0 ==>
            ExpectedCall(service, bot, h, start) == GetIntent(bot.intents[k / 2].name, Latest))
  {
  }

  /** A log that follows the plan has the planned shape. */
  lemma PlannedIsShaped(service: Service, bot: BotConfig, log: seq<Call>, start: nat)
    requires Planned(service, bot, log, start)
    ensures Shaped(bot, log, start)
  {
    forall j | start <= j < |log|
      ensures ShapedCall(bot, log, start, j)
    {
      PlannedAt(service, bot, log, start, j);
      ExpectedKind(service, bot, log[..j], start);
    }
  }

  /**
   * The calls for the first `i` intents of a run of the planned shape: the
   * lookups of those intents in configuration order, one put_intent each, and
   * no bot call yet.
   */
  lemma {:induction false} ShapedIntentCounts(bot: BotConfig, log: seq<Call>, start: nat, i: nat)
    requires Shaped(bot, log, start)
    requires i <= |bot.intents| && start + 2 * i <= |log|
    ensures var s := log[start..start + 2 * i];
      && IntentLookups(s) == ConfiguredLookups(bot, i)
      && Count(s, PutIntentCall) == i
      && Count(s, LookupBotCall) == 0
      && Count(s, PutBotCall) == 0
  {
    if i == 0 {
      assert log[start..start] == [];
    } else {
      var a := i - 1;
      ShapedIntentCounts(bot, log, start, a);
      var p := log[start..start + 2 * a];
      var lookup := log[start + 2 * a];
      var put := log[start + 2 * a + 1];
      assert log[start..start + 2 * i] == p + [lookup] + [put];
      ShapedIntentAt(bot, log, start, a);
      IntentCountsStep(bot, p, lookup, put, a);
    }
  }

  /** The counts grow by one intent's lookup and put. */
  lemma IntentCountsStep(bot: BotConfig, p: seq<Call>, lookup: Call, put: Call, a: nat)
    requires a < |bot.intents|
    requires IntentLookups(p) == ConfiguredLookups(bot, a)
    requires Count(p, PutIntentCall) == a && Count(p, LookupBotCall) == 0 && Count(p, PutBotCall) == 0
    requires lookup == GetIntent(bot.intents[a].name, Latest) && put.PutIntent?
    ensures var s := p + [lookup] + [put];
      && IntentLookups(s) == ConfiguredLookups(bot, a + 1)
      && Count(s, PutIntentCall) == a + 1
      && Count(s, LookupBotCall) == 0
      && Count(s, PutBotCall) == 0
  {
    AppendCounts(p, lookup);
    AppendCounts(p + [lookup], put);
    assert ConfiguredLookups(bot, a + 1) == ConfiguredLookups(bot, a) + [lookup];
  }

  /** The `k`-th call from `start` of a log of the planned shape. */
  lemma ShapedAt(bot: BotConfig, log: seq<Call>, start: nat, k: nat)
    requires Shaped(bot, log, start) && start + k < |log|
    ensures KindOf(log[start + k]) == PlannedKind(|bot.intents|, k)
    ensures k < 2 * |bot.intents| && k % 2 == 0 ==> log[start + k] == GetIntent(bot.intents[k / 2].name, Latest)
  {
    assert ShapedCall(bot, log, start, start + k);
    assert (start + k) - start == k;
  }

  /** The two calls for the `a`-th intent in a log of the planned shape. */
  lemma ShapedIntentAt(bot: BotConfig, log: seq<Call>, start: nat, a: nat)
    requires Shaped(bot, log, start) && a < |bot.intents| && start + 2 * a + 1 < |log|
    ensures log[start + 2 * a] == GetIntent(bot.intents[a].name, Latest)
    ensures log[start + 2 * a + 1].PutIntent?
  {
    assert (2 * a) / 2 == a && (2 * a) % 2 == 0 && (2 * a + 1) % 2 == 1;
    ShapedAt(bot, log, start, 2 * a);
    ShapedAt(bot, log, start, 2 * a + 1);
  }

  /** Counting over a log one call longer. */
  lemma AppendCounts(p: seq<Call>, c: Call)
    ensures Count(p + [c], PutIntentCall) == Count(p, PutIntentCall) + (if c.PutIntent? then 1 else 0)
    ensures Count(p + [c], LookupBotCall) == Count(p, LookupBotCall) + (if c.GetBot? then 1 else 0)
    ensures Count(p + [c], PutBotCall) == Count(p, PutBotCall) + (if c.PutBot? then 1 else 0)
    ensures IntentLookups(p + [c]) == IntentLookups(p) + (if c.GetIntent? then [c] else [])
  {
    assert (p + [c])[..|p|] == p;
  }

  /**
   * A complete run makes one lookup per configured intent, by name at
   * $LATEST and in configuration order, one put_intent per intent, and
   * exactly one bot lookup and one bot put.
   */
  lemma CompleteRunCounts(bot: BotConfig, log: seq<Call>, start: nat)
    requires Shaped(bot, log, start) && |log| == start + Steps(bot)
    ensures var s := log[start..];
      var n := |bot.intents|;
      && IntentLookups(s) == ConfiguredLookups(bot, n)
      && Count(s, PutIntentCall) == n
      && Count(s, LookupBotCall) == 1
      && Count(s, PutBotCall) == 1
  {
    var n := |bot.intents|;
    ShapedIntentCounts(bot, log, start, n);
    var p := log[start..start + 2 * n];
    var lookup := log[start + 2 * n];
    var put := log[start + 2 * n + 1];
    assert log[start..] == p + [lookup] + [put];
    ShapedAt(bot, log, start, 2 * n);
    ShapedAt(bot, log, start, 2 * n + 1);
    AppendCounts(p, lookup);
    AppendCounts(p + [lookup], put);
  }
}
