# lex-bot-generator reconciliation core, modelled in Dafny

`generate.py` reads a list of bot definitions and upserts each bot and its
intents into Amazon Lex. This project models the part of the script that
decides which calls are made, in which order, and with which arguments:

- **Payload builders.** `upsertIntent` and `upsertBot` start from the
  mandatory keyword arguments. They add each optional one only when its
  value is truthy, then call `put_intent` or `put_bot`. The payload is the
  list of these conditional updates applied in the source's order
  (`Payloads.ApplyUpdates`). Module `Payloads`, file `payloads.dfy`.
- **Not-found translation.** `findBot` and `findIntent` turn a
  `NotFoundException` into `None`, re-raise every other client error, and
  return a response unchanged. Module `Lookup`, file `lookup.dfy`.
- **Retrying lookup.** `findBotWithRetry` and `findIntentWithRetry` make at
  most `maxRetry` lookups. They stop at the first truthy response or error,
  and sleep `2*x` seconds after the `x`-th miss. Module `Lookup`.
- **The driver.** `upsertBotAndIntents` works through the configured
  intents in order. For each one it looks the intent up, takes its
  checksum, puts it, and records `{intentName, intentVersion}`. Then it
  looks up the bot, projects the prompt messages and puts the bot once.
  Module `Reconcile`, file `reconcile.dfy`.
- **Shape of a run.** Module `RunShape`, file `run_shape.dfy`, holds the
  facts about the call log that follow from the driver's contract.

The `lex` client is the class `LexClient.Lex`. Its `service` is a scripted
function: it maps the calls made so far and the new call to a reply, which is
either a response dictionary or a raised client error with its error code.
Its `log` records every call in order and only grows. Python values are the
datatype `Values.Value`, and Python truth testing is the predicate
`Values.Truthy`. Exceptions are results:

- a `ClientError` carries its error code;
- subscripting a reply that lacks a key (for example `lexIntent['version']`)
  gives a `KeyError`.

The driver's contract ties the log to a plan. `Reconcile.ExpectedCall` gives
the call the driver makes after any history of fewer than `2N + 2` calls of
the run (for longer histories it keeps prescribing a put_bot, which the driver
never makes; the length of a run is bounded by a separate clause), and
`Reconcile.FollowsPlan` says each call of the log is the planned one and
every call before the last was answered without an exception.
`UpsertBotAndIntents` ensures that its log follows the plan, and that its
result is what the last call gave (`Reconcile.LastOutcome`): it stops at the
first exception and returns it, and otherwise makes all `2N + 2` planned
calls and returns the put_bot response. The lemmas of `RunShape` then derive what such a
log contains: counts, order and payloads.

Behaviour of the script the model keeps:

- The checksum is left out of a put when it is falsy, not only when the
  lookup found nothing. An empty checksum string is dropped too.
- A lookup counts as a miss when it raises `NotFoundException`, and also
  when the response is empty (`if response:`).
- A found object without a `checksum` key makes the driver fail with a
  `KeyError`.
- The backoff after the `x`-th miss is `2*x` seconds, and it is also slept
  after the last miss.
- The finders default to `maxRetry = 1` and upsertBot to
  `processBehavior = 'SAVE'`; the driver uses those defaults.

## Model

| member | source | states |
|---|---|---|
| Payloads.ApplyUpdatesByKey | generate.py:31-53 | a sequence of `if v: args.update(key=v)` steps on distinct keys outside the base gives the base entries plus exactly the truthy updates, so the order of the steps does not matter |
| Payloads.IntentPayloadMandatory | generate.py:24-29 | put_intent arguments always hold `name`, `description`, `slots` and `sampleUtterances` with the given values, and no key beyond the twelve upsertIntent knows |
| Payloads.IntentPayloadPrompts | generate.py:31-41 | `checksum`, `confirmationPrompt`, `rejectionStatement` and `followUpPrompt` are each present exactly when truthy, and then hold their value |
| Payloads.IntentPayloadHooks | generate.py:43-53 | `conclusionStatement`, `dialogCodeHook`, `fulfillmentActivity` and `parentIntentSignature` are each present exactly when truthy, and then hold their value |
| Payloads.BuildIntentArgs | generate.py:24-53 | the arguments built one conditional update at a time equal `IntentPayload`, the payload the three lemmas above describe |
| Payloads.UpsertIntent | generate.py:9-57 | exactly one `put_intent` call, carrying `IntentPayload`, is appended to the log; its reply or error is returned |
| Payloads.BotPayloadIsByKey | generate.py:79-97 | the updates of `clarificationPrompt` and `abortStatement` re-set keys already present with the same value, so the put_bot arguments are the eight base keys plus `checksum` when truthy |
| Payloads.BotPayloadShape | generate.py:65-99 | put_bot arguments always hold the eight mandatory keys, even when the prompts are falsy. `checksum` is present exactly when truthy. `idleSessionTTLInSeconds` is never sent. |
| Payloads.BuildBotArgs | generate.py:79-97 | the arguments built with the three conditional updates equal `BotPayload` |
| Payloads.UpsertBot | generate.py:65-99 | exactly one `put_bot` call, carrying `BotPayload`, is appended to the log; its reply or error is returned |
| Lookup.TranslateLookup | generate.py:104-109 | `NotFoundException` gives None and nothing else does. Any other client error is re-raised with its code. A response is returned unchanged. Each direction is an if-and-only-if. |
| Lookup.Find | generate.py:101-119 | one lookup call is appended to the log, and the result is the translation of its reply |
| Lookup.TotalBackoffClosedForm | generate.py:126-130 | the sleeps `2*x` after misses 1..m add up to `m*(m+1)` |
| Lookup.FindWithRetry | generate.py:123-143 | at most `maxRetry` lookups of the same call, none when `maxRetry < 1`. Every attempt but the last missed. An error or truthy response is returned with no further attempt. None comes only after `maxRetry` misses, with total delay `maxRetry*(maxRetry+1)`. |
| Reconcile.ProjectMessages | generate.py:169-185 | the projected message list has the same length and order. Each entry has exactly `contentType` and `content`, copied from `content-type` and `content`. |
| Reconcile.CollectMessages | generate.py:169-185 | the append loop builds exactly `ProjectMessages` of the configured messages |
| Reconcile.FindChecksum | generate.py:150-153 | one lookup is appended. The result is the lookup's error, None on a miss, or the found object's `checksum` (a `KeyError` when it has none). |
| Reconcile.UpsertOneIntent | generate.py:149-157 | one or two calls are appended. On success the next intent is done: its lookup and put follow the plan, both were answered, and the list gains `{intentName, intentVersion}` with the put's `version`. On failure the log follows the plan and the last call raised the returned error. |
| Reconcile.UpsertIntents | generate.py:148-157 | on success, the log holds for every intent the planned lookup and put, all answered, and the returned list is the recorded `{intentName, intentVersion}` list. On failure, the log follows the plan and the last call raised the returned error. |
| Reconcile.UpsertBotAfterIntents | generate.py:159-202 | once every intent is done, one or two calls are appended: the planned bot lookup and, unless it raised, the planned bot put. The result is what the last call gave, and a run of one call returns an error. |
| Reconcile.UpsertBotAndIntents | generate.py:145-202 | the log gains between 1 and `2N + 2` calls and follows the plan. The result is what the last call gave. A run that stops short of `2N + 2` calls returns an error. |
| RunShape.PlannedIsShaped | generate.py:148-202 | a planned log alternates intent lookup and intent put for the N intents, then one bot lookup and one bot put. The k-th intent lookup is for the k-th configured intent, by name at `$LATEST`. |
| RunShape.ShapedIntentCounts | generate.py:149-157 | after i intents, the lookups are exactly those of the first i configured intents in order. There are i intent puts and no bot call. |
| RunShape.CompleteRunCounts | generate.py:145-202 | a complete run makes N intent lookups (each configured name at `$LATEST`, in input order), N intent puts, one bot lookup and one bot put |
| RunShape.PlannedIntentCalls | generate.py:149-155 | the put for the i-th intent immediately follows that intent's lookup and carries the checksum that lookup gave |
| RunShape.IntentPutShape | generate.py:155 | the driver's put_intent uses the intent name as name and description, with empty slots and the configured utterances. It carries the checksum exactly when truthy, keeps the default `fulfillmentActivity`, and has no other key. |
| RunShape.PlannedBotCalls | generate.py:159-202 | the bot lookup by configured name and version comes right after the last intent put. The bot put follows it, with the recorded intents and the checksum that lookup gave. |
| RunShape.BotPutShape | generate.py:187-202 | the driver's put_bot carries the configured name and description and the recorded intents. Its `clarificationPrompt` has `messages` and `maxAttempts`; its `abortStatement` has only `messages`. The defaults are `SAVE`, `en-US` and not child-directed. The checksum is present exactly when truthy, and there is no `idleSessionTTLInSeconds`. |
| RunShape.RecordedIntents | generate.py:155-157 | once the intent calls are answered, the recorded list has one entry per intent in input order, and each version is the `version` of that intent's put reply |

## Left out

- `loadConfig` and `main` (generate.py:5-7, 206-219) are left out: they read the YAML file, build the boto3 client and loop over the bots. The configuration is the typed `Reconcile.BotConfig`, which the caller passes in.
- The configuration is typed, so a missing configuration key cannot raise a `KeyError` in the model. Missing keys in the service's replies are modelled.
- Intent names, the bot name and the bot `version` are strings in the model. In the script a YAML value such as `version: 1` loads as an integer; such a value would fail botocore's parameter validation, which is outside the modelled `ClientError`.
- `buildBot` (generate.py:59-62) only prints.
- The `print` calls (generate.py:55, 62, 204, 212, 215) write to the console only. `upsertBotAndIntents` prints the put_bot response and returns nothing; `Reconcile.UpsertBotAndIntents` returns that response, or the error that ended the run, instead.
- `time.sleep` (generate.py:130, 142) is not modelled as a real sleep. The seconds slept are summed in the ghost out-parameter `delay` of `Lookup.FindWithRetry`.
- The Lex service is an arbitrary function of the call history. The model does not capture its behaviour: checksum-conflict detection, version assignment, and whether running twice is idempotent.
- The client can raise exceptions other than `ClientError`, such as network or parameter-validation errors. These are not modelled.
- `Values.Truthy` covers None, booleans, integers, strings, lists and dictionaries. Floats and other Python types are not modelled.
- The first assignment of `clarificationPrompt` (generate.py:165-167) is dead: generate.py:187-190 overwrites it before use.
- The driver calls the finders with their default `maxRetry = 1`, as the script does, so each lookup of a run is one call. `Lookup.FindWithRetry` itself is modelled for every `maxRetry`.
