/**
 * The `lex` client the script receives, reduced to what the core uses of it:
 * four operations of the Lex model-building API. The remote service is a
 * scripted function from the calls made so far and the new call to the reply,
 * and the client records every call it makes in an append-only log.
 */
module LexClient {
  import opened Values

  /** One call on the client, with the keyword arguments it is given. */
  datatype Call =
    | GetBot(name: string, versionOrAlias: string)
    | GetIntent(name: string, version: string)
    | PutBot(args: Payload)
    | PutIntent(args: Payload)
  {
    predicate IsLookup() { GetBot? || GetIntent? }
  }

  /** What a call does: return a response dictionary, or raise a ClientError with an error code. */
  datatype Response = Reply(body: Payload) | Raised(code: string)

  /** The remote service: its reply to a call, given every call made before it. */
  type Service = (seq<Call>, Call) -> Response

  /** The reply the service gave to the `j`-th call of `log`. */
  function ReplyAt(service: Service, log: seq<Call>, j: nat): Response
    requires j < |log|
  {
    service(log[..j], log[j])
  }

  class Lex {
    const service: Service
    var log: seq<Call>

    constructor (service: Service)
      ensures this.service == service && log == []
    {
      this.service := service;
      log := [];
    }

    /** Issues one call: the service answers it, and the call is appended to the log. */
    method Invoke(c: Call) returns (r: Response)
      modifies this
      ensures log == old(log) + [c]
      ensures r == ReplyAt(service, log, |old(log)|)
    {
      r := service(log, c);
      log := log + [c];
    }
  }
}
