/**
 * findBot / findIntent, which turn the client's NotFoundException into None,
 * and findBotWithRetry / findIntentWithRetry, which repeat a lookup until it
 * returns a truthy response, with a linearly growing sleep between misses.
 */
module Lookup {
  import opened Wrappers
  import opened Values
  import opened LexClient

  const NotFound: string := "NotFoundException"

  /**
   * The except clause of findBot and findIntent: a NotFoundException becomes
   * None, any other ClientError is re-raised unchanged, a response is
   * returned as it is.
   */
  function TranslateLookup(r: Response): (t: Result<Option<Payload>, Error>)
    ensures t == Success(None) <==> r == Raised(NotFound)
    ensures (t.Success? && t.value.Some?) <==> r.Reply?
    ensures r.Reply? ==> t == Success(Some(r.body))
    ensures t.Failure? <==> r.Raised? && r.code != NotFound
    ensures t.Failure? ==> t.error == ClientError(r.code)
  {
    match r
    case Reply(body) => Success(Some(body))
    case Raised(code) => if code == NotFound then Success(None) else Failure(ClientError(code))
  }

  /** What the lookup attempt that is the `j`-th call of `log` returned. */
  function Attempt(service: Service, log: seq<Call>, j: nat): Result<Option<Payload>, Error>
    requires j < |log|
  {
    TranslateLookup(ReplyAt(service, log, j))
  }

  /** A lookup outcome that `if response:` rejects: None, or an empty response. */
  predicate IsMiss(t: Result<Option<Payload>, Error>) {
    t.Success? && (t.value.None? || !Truthy(Dict(t.value.value)))
  }

  /** findBot when `q` is a get_bot call, findIntent when it is a get_intent call. */
  method Find(lex: Lex, q: Call) returns (r: Result<Option<Payload>, Error>)
    requires q.IsLookup()
    modifies lex
    ensures lex.log == old(lex.log) + [q]
    ensures r == Attempt(lex.service, lex.log, |old(lex.log)|)
  {
    var response := lex.Invoke(q);
    r := TranslateLookup(response);
  }

  /** The seconds slept after the `x`-th miss. */
  function Backoff(x: nat): nat {
    2 * x
  }

  /** The seconds slept after `misses` consecutive misses. */
  function TotalBackoff(misses: nat): nat {
    if misses == 0 then 0 else TotalBackoff(misses - 1) + Backoff(misses)
  }

  /** The backoff is linear, so the total after m misses is m(m+1). */
  lemma {:induction false} TotalBackoffClosedForm(m: nat)
    ensures TotalBackoff(m) == m * (m + 1)
  {
    if m > 0 {
      TotalBackoffClosedForm(m - 1);
    }
  }

  /** The number of iterations of `for x in range(1, maxRetry + 1)`. */
  function Attempts(maxRetry: int): nat {
    if maxRetry < 1 then 0 else maxRetry
  }

  /**
   * findBotWithRetry / findIntentWithRetry: at most `maxRetry` lookups of `q`,
   * stopping at the first error or truthy response and returning it, and
   * returning None once every attempt has missed. The sleeps are summed into
   * the ghost `delay`.
   */
  method FindWithRetry(lex: Lex, q: Call, maxRetry: int)
    returns (r: Result<Option<Payload>, Error>, ghost delay: nat)
    requires q.IsLookup()
    modifies lex
    ensures |old(lex.log)| <= |lex.log| <= |old(lex.log)| + Attempts(maxRetry)
    ensures lex.log[..|old(lex.log)|] == old(lex.log)
    ensures forall j :: |old(lex.log)| <= j < |lex.log| ==> lex.log[j] == q
    // every attempt but the last missed
    ensures forall j :: |old(lex.log)| <= j < |lex.log| - 1 ==> IsMiss(Attempt(lex.service, lex.log, j))
    ensures |lex.log| == |old(lex.log)| ==> maxRetry < 1 && r == Success(None)
    ensures |lex.log| > |old(lex.log)| ==>
      var last := Attempt(lex.service, lex.log, |lex.log| - 1);
      if IsMiss(last) then r == Success(None) && |lex.log| == |old(lex.log)| + maxRetry
      else r == last
    ensures r == Success(None) ==>
      |lex.log| == |old(lex.log)| + Attempts(maxRetry) && delay == TotalBackoff(Attempts(maxRetry))
      && delay == Attempts(maxRetry) * (Attempts(maxRetry) + 1)
    ensures r != Success(None) ==>
      |lex.log| > |old(lex.log)| && delay == TotalBackoff(|lex.log| - |old(lex.log)| - 1)
  {
    ghost var start := |lex.log|;
    delay := 0;
    var x := 1;
    while x <= maxRetry
      invariant 1 <= x && x - 1 <= Attempts(maxRetry)
      invariant |lex.log| == start + x - 1
      invariant lex.log[..start] == old(lex.log)
      invariant forall j :: start <= j < |lex.log| ==> lex.log[j] == q
      invariant forall j :: start <= j < |lex.log| ==> IsMiss(Attempt(lex.service, lex.log, j))
      invariant delay == TotalBackoff(x - 1)
    {
      ghost var before := lex.log;
      var response := Find(lex, q);
      assert forall j :: start <= j < |before| ==> Attempt(lex.service, lex.log, j) == Attempt(lex.service, before, j) by {
        forall j | start <= j < |before| ensures lex.log[..j] == before[..j] {
        }
      }
      if !IsMiss(response) {
        r := response;
        return;
      }
      delay := delay + Backoff(x);
      x := x + 1;
    }
    TotalBackoffClosedForm(x - 1);
    r := Success(None);
  }
}
