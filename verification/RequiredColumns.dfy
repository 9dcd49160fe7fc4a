/** Which fields of an account may be nil: those that a create does not require. */
module RequiredColumns {
  import opened AccountRows
  import opened BulkCreate

  /** The name of a field in the mutation and in the table. */
  function NameOf(c: Column): string {
    match c
    case Id => "id"
    case CreatedAt => "created_at"
    case UpdatedAt => "updated_at"
    case DeletedAt => "deleted_at"
    case Name => "name"
    case Notes => "notes"
    case Platform => "platform"
    case Type => "type"
    case Credentials => "credentials"
    case Extra => "extra"
    case ProxyId => "proxy_id"
    case Concurrency => "concurrency"
    case LoadFactor => "load_factor"
    case Priority => "priority"
    case RateMultiplier => "rate_multiplier"
    case Status => "status"
    case ErrorMessage => "error_message"
    case LastUsedAt => "last_used_at"
    case ExpiresAt => "expires_at"
    case AutoPauseOnExpired => "auto_pause_on_expired"
    case Schedulable => "schedulable"
    case RateLimitedAt => "rate_limited_at"
    case RateLimitResetAt => "rate_limit_reset_at"
    case OverloadUntil => "overload_until"
    case TempUnschedulableUntil => "temp_unschedulable_until"
    case TempUnschedulableReason => "temp_unschedulable_reason"
    case SessionWindowStart => "session_window_start"
    case SessionWindowEnd => "session_window_end"
    case SessionWindowStatus => "session_window_status"
    case Other(name) => name
  }

  predicate IsRequired(f: string) {
    exists k :: 0 <= k < |Rules()| && Rules()[k] == Required(f)
  }

  /** A field of the table is nil when its column is NULL if and only if it is neither the ID nor
      required by the create check. */
  lemma NullableIff(c: Column)
    requires !c.Other?
    ensures Nullable(c) <==> c != Id && !IsRequired(NameOf(c))
  {
    RequiredFields(NameOf(c));
    hide Rules;
  }

  /** The field of a fresh entity: nil if it may be nil, else the zero value of its own type. */
  lemma ZeroMeans(c: Column)
    requires !c.Other?
    ensures if Nullable(c) then Zero(c) == Null
            else HasKind(Zero(c), KindOf(c)) &&
                 Zero(c) in {Map(Nil), Boolean(false), Float(0.0), Int(0), Text(""), Time(0)}
  {
  }
}
