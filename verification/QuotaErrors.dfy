/** Which provider errors mean an exhausted quota, and which need an operator whatever the HTTP status says. */
module QuotaErrors {

  /** `error.type`: missing or not a string, a string, or a list or object, which cannot be looked up in a set. */
  datatype Kind = Untyped | Typed(name: string) | Unhashable

  /** The `error` object of a document; its code as a string, empty when there is none. */
  datatype ErrorBody = ErrorBody(code: string, kind: Kind)

  /** A document without an `error` object. */
  const NO_ERROR := ErrorBody("", Untyped)

  datatype Judgement = Limited | NotLimited | Raises

  const TOO_MANY_REQUESTS: int := 429

  /** Expired subscriptions, credentials and permissions. */
  const ACCOUNT_CODES: set<string> := {
    "1000", "1001", "1002", "1003", "1004", "1110", "1111", "1112", "1113", "1121", "1220", "1309", "1311", "1313"}

  const QUOTA_CODES: set<string> := {"1302", "1303", "1304", "1305", "1308", "1310", "1312"}

  const QUOTA_TYPES: set<string> := {"rate_limit_error", "rate_limit_exceeded", "quota_exceeded"}

  function Judge(status: int, error: ErrorBody): (judgement: Judgement)
  {
    if error.code in ACCOUNT_CODES then NotLimited
    else if status == TOO_MANY_REQUESTS || error.code in QUOTA_CODES then Limited
    else match error.kind
      case Unhashable => Raises
      case Typed(name) => if name in QUOTA_TYPES then Limited else NotLimited
      case Untyped => NotLimited
  }

  /** The error says by itself that the quota is exhausted. */
  predicate NamesQuota(error: ErrorBody)
  {
    error.code in QUOTA_CODES || (error.kind.Typed? && error.kind.name in QUOTA_TYPES)
  }
}
