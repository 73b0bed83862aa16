/**
 * The Python values the script passes around: the YAML configuration it reads,
 * the keyword-argument dictionaries it hands to the Lex client and the
 * dictionaries the client returns.
 */
module Values {
  import opened Wrappers

  datatype Value =
    | Null                              // None
    | Bool(b: bool)
    | Int(i: int)
    | Str(s: string)
    | List(items: seq<Value>)
    | Dict(fields: map<string, Value>)

  /** A keyword-argument dictionary, or a response dictionary of the Lex client. */
  type Payload = map<string, Value>

  /**
   * Python truth value testing, as `if x:` applies it: None, False, 0, the
   * empty string, the empty list and the empty dict are false.
   */
  predicate Truthy(v: Value) {
    match v
    case Null => false
    case Bool(b) => b
    case Int(i) => i != 0
    case Str(s) => s != []
    case List(items) => items != []
    case Dict(fields) => fields != map[]
  }

  /** The exceptions the core lets escape. */
  datatype Error =
    | ClientError(code: string)   // botocore.exceptions.ClientError, by its error code
    | KeyError(key: string)       // subscripting a response dictionary with a missing key

  /** `d[key]` on a dictionary. */
  function Field(d: Payload, key: string): Result<Value, Error> {
    if key in d then Success(d[key]) else Failure(KeyError(key))
  }
}
