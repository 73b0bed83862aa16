/**
 * upsertIntent and upsertBot: build the keyword arguments of put_intent and
 * put_bot from the mandatory keys, add each optional key only when its value
 * is truthy, and make the call.
 */
module Payloads {
  import opened Values
  import opened LexClient

  /** `key` is in `p` and maps to `v`. */
  predicate Mandatory(p: Payload, key: string, v: Value) {
    key in p && p[key] == v
  }

  /** `key` is in `p` exactly when `v` is truthy, and then maps to `v`. */
  predicate Optional(p: Payload, key: string, v: Value) {
    (key in p <==> Truthy(v)) && (key in p ==> p[key] == v)
  }

  /** The entries of `m` whose value is truthy. */
  function TruthyEntries(m: Payload): Payload {
    map k | k in m && Truthy(m[k]) :: m[k]
  }

  /** `if v: args.update(key=v)`. */
  function UpdateIfTruthy(args: Payload, key: string, v: Value): Payload {
    if Truthy(v) then args[key := v] else args
  }

  /** `if v: args.update(key=v)` on the arguments being built. */
  method AddIfTruthy(args: Payload, key: string, v: Value) returns (updated: Payload)
    ensures updated == UpdateIfTruthy(args, key, v)
  {
    updated := args;
    if Truthy(v) {
      updated := updated[key := v];
    }
  }

  /**
   * One `if v: args.update(key=v)` step: when `args` holds the base entries and
   * the truthy ones among those seen so far, it then does so with `key` seen too.
   */
  lemma UpdateWhenTruthy(base: Payload, seen: Payload, args: Payload, key: string, v: Value)
    requires args == base + TruthyEntries(seen) && key !in base && key !in seen
    ensures UpdateIfTruthy(args, key, v) == base + TruthyEntries(seen[key := v])
  {
  }

  /** A conditional update: the keyword and the value it is tested on. */
  type Update = (string, Value)

  /** The steps `if v: args.update(key=v)` for each update, in order. */
  function ApplyUpdates(args: Payload, updates: seq<Update>): Payload {
    if updates == [] then args
    else
      var last := updates[|updates| - 1];
      UpdateIfTruthy(ApplyUpdates(args, updates[..|updates| - 1]), last.0, last.1)
  }

  /** Applying one more update of the list. */
  lemma ApplyNext(args: Payload, updates: seq<Update>, k: nat)
    requires k < |updates|
    ensures ApplyUpdates(args, updates[..k + 1])
      == UpdateIfTruthy(ApplyUpdates(args, updates[..k]), updates[k].0, updates[k].1)
  {
    assert updates[..k + 1][..k] == updates[..k];
  }

  /** No keyword is updated twice, and none is among the base keys. */
  predicate FreshKeys(base: Payload, updates: seq<Update>) {
    && (forall i, j :: 0 <= i < j < |updates| ==> updates[i].0 != updates[j].0)
    && (forall i :: 0 <= i < |updates| ==> updates[i].0 !in base)
  }

  /** The updates as a dictionary from keyword to value. */
  function UpdateMap(updates: seq<Update>): Payload {
    if updates == [] then map[]
    else
      var last := updates[|updates| - 1];
      UpdateMap(updates[..|updates| - 1])[last.0 := last.1]
  }

  /** With fresh keywords, the dictionary holds the `i`-th update's value under its keyword. */
  lemma {:induction false} UpdateMapAt(base: Payload, updates: seq<Update>, i: nat)
    requires FreshKeys(base, updates) && i < |updates|
    ensures updates[i].0 in UpdateMap(updates) && UpdateMap(updates)[updates[i].0] == updates[i].1
  {
    var n := |updates| - 1;
    if i < n {
      var prefix := updates[..n];
      assert FreshKeys(base, prefix);
      assert prefix[i] == updates[i];
      UpdateMapAt(base, prefix, i);
    }
  }

  /** A keyword no update names is not in the dictionary. */
  lemma {:induction false} UpdateMapWithout(updates: seq<Update>, key: string)
    requires forall i :: 0 <= i < |updates| ==> updates[i].0 != key
    ensures key !in UpdateMap(updates)
  {
    if updates != [] {
      var prefix := updates[..|updates| - 1];
      assert forall i :: 0 <= i < |prefix| ==> prefix[i] == updates[i];
      UpdateMapWithout(prefix, key);
    }
  }

  /**
   * With fresh keywords, applying the updates in order gives the base entries
   * and the truthy updates: the order of the steps does not matter.
   */
  lemma {:induction false} ApplyUpdatesByKey(base: Payload, updates: seq<Update>)
    requires FreshKeys(base, updates)
    ensures ApplyUpdates(base, updates) == base + TruthyEntries(UpdateMap(updates))
  {
    if updates != [] {
      var n := |updates| - 1;
      var prefix := updates[..n];
      assert FreshKeys(base, prefix);
      ApplyUpdatesByKey(base, prefix);
      assert forall i :: 0 <= i < |prefix| ==> prefix[i].0 != updates[n].0;
      UpdateMapWithout(prefix, updates[n].0);
      UpdateWhenTruthy(base, UpdateMap(prefix), ApplyUpdates(base, prefix), updates[n].0, updates[n].1);
    }
  }

  /** Every base entry is sent unchanged. */
  lemma AppliedMandatory(base: Payload, updates: seq<Update>, key: string)
    requires FreshKeys(base, updates) && key in base
    ensures Mandatory(ApplyUpdates(base, updates), key, base[key])
  {
    ApplyUpdatesByKey(base, updates);
  }

  /** The keyword of every update is sent exactly when its value is truthy, and then with that value. */
  lemma AppliedOptional(base: Payload, updates: seq<Update>, i: nat)
    requires FreshKeys(base, updates) && i < |updates|
    ensures Optional(ApplyUpdates(base, updates), updates[i].0, updates[i].1)
  {
    ApplyUpdatesByKey(base, updates);
    UpdateMapAt(base, updates, i);
  }

  /** Only the base keys and the keywords of the updates are sent. */
  lemma {:induction false} AppliedKeys(base: Payload, updates: seq<Update>, k: string)
    requires k in ApplyUpdates(base, updates)
    ensures k in base || exists i :: 0 <= i < |updates| && updates[i].0 == k
  {
    if updates != [] {
      var n := |updates| - 1;
      var prefix := updates[..n];
      if k != updates[n].0 {
        AppliedKeys(base, prefix, k);
        if k !in base {
          var i :| 0 <= i < |prefix| && prefix[i].0 == k;
          assert updates[i].0 == k;
        }
      }
    }
  }

  // ---------------------------------------------------------------- intents

  /** The keyword parameters of upsertIntent after `name` and `description`. */
  datatype IntentOptions = IntentOptions(
    slots: Value,
    sampleUtterances: Value,
    checksum: Value,
    confirmationPrompt: Value,
    rejectionStatement: Value,
    followUpPrompt: Value,
    conclusionStatement: Value,
    dialogCodeHook: Value,
    fulfillmentActivity: Value,
    parentIntentSignature: Value)

  const ReturnIntent: Value := Dict(map["type" := Str("ReturnIntent")])

  /** upsertIntent's defaults: empty slots and utterances, `fulfillmentActivity` returning the intent, nothing else. */
  const IntentDefaults: IntentOptions :=
    IntentOptions(List([]), List([]), Null, Null, Null, Null, Null, Null, ReturnIntent, Null)

  const IntentKeys: set<string> := {
    "name", "description", "slots", "sampleUtterances", "checksum", "confirmationPrompt",
    "rejectionStatement", "followUpPrompt", "conclusionStatement", "dialogCodeHook",
    "fulfillmentActivity", "parentIntentSignature" }

  /** The four keys upsertIntent always sends. */
  function IntentBase(name: Value, description: Value, o: IntentOptions): Payload {
    map["name" := name, "description" := description,
        "slots" := o.slots, "sampleUtterances" := o.sampleUtterances]
  }

  /** The updates upsertIntent makes after the base keys, in the source's order. */
  function IntentUpdates(o: IntentOptions): seq<Update> {
    [ ("checksum", o.checksum),
      ("confirmationPrompt", o.confirmationPrompt),
      ("rejectionStatement", o.rejectionStatement),
      ("followUpPrompt", o.followUpPrompt),
      ("conclusionStatement", o.conclusionStatement),
      ("dialogCodeHook", o.dialogCodeHook),
      ("fulfillmentActivity", o.fulfillmentActivity),
      ("parentIntentSignature", o.parentIntentSignature) ]
  }

  /** The arguments put_intent receives: the base keys, then each conditional update. */
  function IntentPayload(name: Value, description: Value, o: IntentOptions): Payload {
    ApplyUpdates(IntentBase(name, description, o), IntentUpdates(o))
  }

  /** upsertIntent updates eight distinct keywords, none of them a base key. */
  lemma IntentKeysFresh(name: Value, description: Value, o: IntentOptions)
    ensures FreshKeys(IntentBase(name, description, o), IntentUpdates(o))
  {
  }

  /**
   * The put_intent arguments always hold `name`, `description`, `slots` and
   * `sampleUtterances`, and no key outside the twelve upsertIntent knows.
   */
  lemma IntentPayloadMandatory(name: Value, description: Value, o: IntentOptions)
    ensures var p := IntentPayload(name, description, o);
      && p.Keys <= IntentKeys
      && Mandatory(p, "name", name) && Mandatory(p, "description", description)
      && Mandatory(p, "slots", o.slots) && Mandatory(p, "sampleUtterances", o.sampleUtterances)
  {
    var base, u := IntentBase(name, description, o), IntentUpdates(o);
    IntentKeysFresh(name, description, o);
    AppliedMandatory(base, u, "name");
    AppliedMandatory(base, u, "description");
    AppliedMandatory(base, u, "slots");
    AppliedMandatory(base, u, "sampleUtterances");
    forall k | k in ApplyUpdates(base, u)
      ensures k in IntentKeys
    {
      AppliedKeys(base, u, k);
    }
  }

  /** In the put_intent arguments, `checksum` and the prompts are present exactly when their values are truthy. */
  lemma IntentPayloadPrompts(name: Value, description: Value, o: IntentOptions)
    ensures var p := IntentPayload(name, description, o);
      && Optional(p, "checksum", o.checksum)
      && Optional(p, "confirmationPrompt", o.confirmationPrompt)
      && Optional(p, "rejectionStatement", o.rejectionStatement)
      && Optional(p, "followUpPrompt", o.followUpPrompt)
  {
    var base, u := IntentBase(name, description, o), IntentUpdates(o);
    IntentKeysFresh(name, description, o);
    AppliedOptional(base, u, 0);
    AppliedOptional(base, u, 1);
    AppliedOptional(base, u, 2);
    AppliedOptional(base, u, 3);
  }

  /**
   * In the put_intent arguments, the conclusion, the hooks and the parent
   * intent are present exactly when their values are truthy.
   */
  lemma IntentPayloadHooks(name: Value, description: Value, o: IntentOptions)
    ensures var p := IntentPayload(name, description, o);
      && Optional(p, "conclusionStatement", o.conclusionStatement)
      && Optional(p, "dialogCodeHook", o.dialogCodeHook)
      && Optional(p, "fulfillmentActivity", o.fulfillmentActivity)
      && Optional(p, "parentIntentSignature", o.parentIntentSignature)
  {
    var base, u := IntentBase(name, description, o), IntentUpdates(o);
    IntentKeysFresh(name, description, o);
    AppliedOptional(base, u, 4);
    AppliedOptional(base, u, 5);
    AppliedOptional(base, u, 6);
    AppliedOptional(base, u, 7);
  }

  /** Builds the put_intent arguments as upsertIntent does, one `args.update` at a time. */
  method BuildIntentArgs(name: Value, description: Value, o: IntentOptions) returns (args: Payload)
    ensures args == IntentPayload(name, description, o)
  {
    args := map["name" := name, "description" := description,
                "slots" := o.slots, "sampleUtterances" := o.sampleUtterances];
    ghost var base, u := args, IntentUpdates(o);
    ApplyNext(base, u, 0);
    args := AddIfTruthy(args, "checksum", o.checksum);
    assert args == ApplyUpdates(base, u[..1]);
    ApplyNext(base, u, 1);
    args := AddIfTruthy(args, "confirmationPrompt", o.confirmationPrompt);
    assert args == ApplyUpdates(base, u[..2]);
    ApplyNext(base, u, 2);
    args := AddIfTruthy(args, "rejectionStatement", o.rejectionStatement);
    assert args == ApplyUpdates(base, u[..3]);
    ApplyNext(base, u, 3);
    args := AddIfTruthy(args, "followUpPrompt", o.followUpPrompt);
    assert args == ApplyUpdates(base, u[..4]);
    ApplyNext(base, u, 4);
    args := AddIfTruthy(args, "conclusionStatement", o.conclusionStatement);
    assert args == ApplyUpdates(base, u[..5]);
    ApplyNext(base, u, 5);
    args := AddIfTruthy(args, "dialogCodeHook", o.dialogCodeHook);
    assert args == ApplyUpdates(base, u[..6]);
    ApplyNext(base, u, 6);
    args := AddIfTruthy(args, "fulfillmentActivity", o.fulfillmentActivity);
    assert args == ApplyUpdates(base, u[..7]);
    ApplyNext(base, u, 7);
    args := AddIfTruthy(args, "parentIntentSignature", o.parentIntentSignature);
    assert u[..8] == u;
  }

  /** upsertIntent: one put_intent call carrying the built arguments; its response or error is returned. */
  method UpsertIntent(lex: Lex, name: Value, description: Value, o: IntentOptions) returns (r: Response)
    modifies lex
    ensures lex.log == old(lex.log) + [PutIntent(IntentPayload(name, description, o))]
    ensures r == ReplyAt(lex.service, lex.log, |old(lex.log)|)
  {
    var args := BuildIntentArgs(name, description, o);
    r := lex.Invoke(PutIntent(args));
  }

  // ------------------------------------------------------------------- bots

  /** The keyword parameters of upsertBot after the six positional ones. */
  datatype BotOptions = BotOptions(
    checksum: Value,
    processBehavior: Value,
    idleSessionTTLInSeconds: Value,
    locale: Value,
    childDirected: Value)

  /** upsertBot's defaults. */
  const BotDefaults: BotOptions := BotOptions(Null, Str("SAVE"), Int(123), Str("en-US"), Bool(false))

  const BotKeys: set<string> := {
    "name", "description", "intents", "processBehavior", "locale", "childDirected",
    "clarificationPrompt", "abortStatement", "checksum" }

  /** The eight keys upsertBot always sends. */
  function BotBase(name: Value, description: Value, intents: Value,
                   clarificationPrompt: Value, abortStatement: Value, o: BotOptions): Payload
  {
    map["name" := name, "description" := description, "intents" := intents,
        "processBehavior" := o.processBehavior, "locale" := o.locale,
        "childDirected" := o.childDirected, "clarificationPrompt" := clarificationPrompt,
        "abortStatement" := abortStatement]
  }

  /** The updates upsertBot makes after the base keys, in the source's order. */
  function BotUpdates(clarificationPrompt: Value, abortStatement: Value, o: BotOptions): seq<Update> {
    [ ("checksum", o.checksum),
      ("clarificationPrompt", clarificationPrompt),
      ("abortStatement", abortStatement) ]
  }

  /** The arguments put_bot receives: the base keys, then the three conditional updates. */
  function BotPayload(name: Value, description: Value, intents: Value,
                      clarificationPrompt: Value, abortStatement: Value, o: BotOptions): Payload
  {
    ApplyUpdates(BotBase(name, description, intents, clarificationPrompt, abortStatement, o),
                 BotUpdates(clarificationPrompt, abortStatement, o))
  }

  /**
   * The put_bot arguments described key by key: the eight base keys and
   * `checksum` when it is truthy. The updates of the two prompts re-set keys
   * already present with the same value, so they change nothing.
   */
  lemma BotPayloadIsByKey(name: Value, description: Value, intents: Value,
                          clarificationPrompt: Value, abortStatement: Value, o: BotOptions)
    ensures BotPayload(name, description, intents, clarificationPrompt, abortStatement, o)
      == BotBase(name, description, intents, clarificationPrompt, abortStatement, o)
         + TruthyEntries(map["checksum" := o.checksum])
  {
    var a0 := BotBase(name, description, intents, clarificationPrompt, abortStatement, o);
    var u := BotUpdates(clarificationPrompt, abortStatement, o);
    ApplyNext(a0, u, 0);
    ApplyNext(a0, u, 1);
    ApplyNext(a0, u, 2);
    assert u[..3] == u;
    var a1 := UpdateIfTruthy(a0, "checksum", o.checksum);
    UpdateWhenTruthy(a0, map[], a0, "checksum", o.checksum);
    assert a1["clarificationPrompt"] == clarificationPrompt && a1["abortStatement"] == abortStatement;
    assert UpdateIfTruthy(a1, "clarificationPrompt", clarificationPrompt) == a1;
    assert UpdateIfTruthy(a1, "abortStatement", abortStatement) == a1;
  }

  /**
   * The put_bot arguments always hold the eight mandatory keys, whatever the
   * prompt values are, and `checksum` exactly when it is truthy.
   * `idleSessionTTLInSeconds` is accepted by upsertBot but never sent.
   */
  lemma BotPayloadShape(name: Value, description: Value, intents: Value,
                        clarificationPrompt: Value, abortStatement: Value, o: BotOptions)
    ensures var p := BotPayload(name, description, intents, clarificationPrompt, abortStatement, o);
      && p.Keys <= BotKeys && "idleSessionTTLInSeconds" !in p
      && Mandatory(p, "name", name) && Mandatory(p, "description", description)
      && Mandatory(p, "intents", intents)
      && Mandatory(p, "processBehavior", o.processBehavior)
      && Mandatory(p, "locale", o.locale) && Mandatory(p, "childDirected", o.childDirected)
      && Mandatory(p, "clarificationPrompt", clarificationPrompt)
      && Mandatory(p, "abortStatement", abortStatement)
      && Optional(p, "checksum", o.checksum)
  {
    BotPayloadIsByKey(name, description, intents, clarificationPrompt, abortStatement, o);
  }

  /** Builds the put_bot arguments as upsertBot does, one `args.update` at a time. */
  method BuildBotArgs(name: Value, description: Value, intents: Value,
                      clarificationPrompt: Value, abortStatement: Value, o: BotOptions)
    returns (args: Payload)
    ensures args == BotPayload(name, description, intents, clarificationPrompt, abortStatement, o)
  {
    args := map["name" := name, "description" := description, "intents" := intents,
                "processBehavior" := o.processBehavior, "locale" := o.locale,
                "childDirected" := o.childDirected, "clarificationPrompt" := clarificationPrompt,
                "abortStatement" := abortStatement];
    ghost var base, u := args, BotUpdates(clarificationPrompt, abortStatement, o);
    ApplyNext(base, u, 0);
    args := AddIfTruthy(args, "checksum", o.checksum);
    assert args == ApplyUpdates(base, u[..1]);
    ApplyNext(base, u, 1);
    args := AddIfTruthy(args, "clarificationPrompt", clarificationPrompt);
    assert args == ApplyUpdates(base, u[..2]);
    ApplyNext(base, u, 2);
    args := AddIfTruthy(args, "abortStatement", abortStatement);
    assert u[..3] == u;
  }

  /** upsertBot: one put_bot call carrying the built arguments; its response or error is returned. */
  method UpsertBot(lex: Lex, name: Value, description: Value, intents: Value,
                   clarificationPrompt: Value, abortStatement: Value, o: BotOptions)
    returns (r: Response)
    modifies lex
    ensures lex.log == old(lex.log)
      + [PutBot(BotPayload(name, description, intents, clarificationPrompt, abortStatement, o))]
    ensures r == ReplyAt(lex.service, lex.log, |old(lex.log)|)
  {
    var args := BuildBotArgs(name, description, intents, clarificationPrompt, abortStatement, o);
    r := lex.Invoke(PutBot(args));
  }
}
