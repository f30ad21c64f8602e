/** The values the dynamic-configuration engine works with: entries, snapshots, change events,
    callers and errors. */
module Model {
  import opened Text

  datatype Option<+T> = None | Some(value: T)

  datatype Result<+T, +E> = Ok(value: T) | Err(error: E)

  newtype Byte = x: int | 0 <= x < 256

  /** The identifiers `uuid.NewString` produces: 36 characters, each a lower-case hexadecimal digit
      or a hyphen. */
  predicate UuidShape(s: string) {
    |s| == 36 && forall c :: c in s ==> '0' <= c <= '9' || 'a' <= c <= 'f' || c == '-'
  }

  type Uuid = s: string | UuidShape(s) witness "00000000-0000-4000-8000-000000000000"

  datatype Status = Draft | PendingApproval | Approved | Rejected | Published

  /** The five columns of the scope constraint. */
  datatype Scope = Scope(environment: string, tenant: string, application: string, service: string, key: string)

  /** What a revision freezes: value or secret reference, and the rollout percentage. */
  datatype Content = Content(value: seq<Byte>, secretRef: string, rollout: int)

  datatype Review = Review(comment: string, reviewedBy: string)

  const NO_REVIEW := Review("", "")

  /** A row of config_entries (timestamps are not modelled). */
  datatype Entry = Entry(id: string, scope: Scope, content: Content, status: Status, revision: int,
                         published: int, review: Review, version: int, createdBy: string, updatedBy: string)

  /** A row of config_revisions, without its key (entry id, revision). */
  datatype Snapshot = Snapshot(content: Content, status: Status, review: Review, version: int,
                               createdBy: string, updatedBy: string)

  datatype ChangeType = StatusChange(to: Status) | RolledBack

  /** A row of config_outbox_events: the decoded envelope. */
  datatype Event = Event(entry: Entry, change: ChangeType, actor: string)

  datatype AppError = Invalid | Unauthorized | Forbidden | NotFound | Conflict | Stale | Unavailable | Internal

  datatype Principal = Principal(id: string, isUser: bool, tenant: string)

  /** The answer of the remote application-access check. */
  datatype Access = Granted | NotGranted | Unreachable

  /** Everything a request draws from outside the tables: the caller, the answer of the access check
      and the identifier a create would use. */
  datatype Context = Context(caller: Option<Principal>, access: Access, newId: Uuid)

  /** The parts that make a key sensitive. */
  const SENSITIVE_PARTS: seq<string> := ["password", "secret", "token", "private_key", "api_key"]

  predicate SensitiveKey(key: string) {
    exists part :: part in SENSITIVE_PARTS && Contains(key, part)
  }

  /** Exactly one of value and secret reference, a percentage, and a secret reference for sensitive keys. */
  predicate Disciplined(key: string, c: Content) {
    && (|c.value| == 0 <==> c.secretRef != "")
    && 0 <= c.rollout <= 100
    && (SensitiveKey(key) ==> c.secretRef != "" && c.value == [])
  }

  /** A user principal may only touch its own, non-blank tenant; other principals are not restricted. */
  predicate TenantAllowed(caller: Principal, requested: string) {
    caller.isUser ==> TrimSpace(caller.tenant) != "" && caller.tenant == TrimSpace(requested)
  }

  function VerifyApplication(access: Access, tenant: string, application: string): Option<AppError> {
    if TrimSpace(application) == "" then None
    else if TrimSpace(tenant) == "" then Some(Invalid)
    else match access
      case Granted => None
      case NotGranted => Some(Forbidden)
      case Unreachable => Some(Unavailable)
  }

  /** Authentication, tenant check and application check, in the order every operation runs them.
      The result is the acting principal's id. */
  function Authorize(ctx: Context, tenant: string, application: string): (r: Result<string, AppError>)
    ensures r.Ok? ==> ctx.caller.Some? && r.value == ctx.caller.value.id
  {
    match ctx.caller
    case None => Err(Unauthorized)
    case Some(p) =>
      if !TenantAllowed(p, tenant) then Err(Forbidden)
      else match VerifyApplication(ctx.access, tenant, application)
        case Some(e) => Err(e)
        case None => Ok(p.id)
  }
}
