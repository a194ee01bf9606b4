/** The state of a `SpannerSettings` object as a value, the timeout conversion it offers,
    and what each of its setters and its copy hook does to that state.

    The class in module `Spanner` keeps this state in mutable fields; each of its methods is
    specified by one of the functions here, so the lemmas below, which relate any number of
    calls, hold of the class as well.
 */
module SettingsSpec {
  import opened CSharp
  import opened Gax
  import opened SpannerLogging

  /** `ExecuteSqlStreamSettings` starts as an RPC expiration of this many seconds. */
  const DefaultExecuteSqlStreamTimeoutSeconds: int := 60

  /** The three fields of a `SpannerSettings` that this part of the class owns. */
  datatype SettingsValue = SettingsValue(
    executeSqlStreamSettings: Nullable<CallSettings>,
    allowImmediateTimeouts: bool,
    logger: Nullable<Logger>)

  /** The promise on the `Logger` property: it is never null. */
  predicate LoggerNonNull(s: SettingsValue)
  {
    s.logger.NonNull?
  }

  /** The field initialisers of a new `SpannerSettings`. */
  function Defaults(): (s: SettingsValue)
    ensures LoggerNonNull(s)
    ensures s.executeSqlStreamSettings.NonNull?
      && s.executeSqlStreamSettings.value.timeoutSeconds == DefaultExecuteSqlStreamTimeoutSeconds
    ensures ConvertTimeoutToExpiration(0, s.allowImmediateTimeouts) == None
  {
    SettingsValue(
      NonNull(CallSettings(DefaultExecuteSqlStreamTimeoutSeconds)),
      false,
      NonNull(DefaultLogger))
  }

  // ---------------------------------------------------------------------------------------
  // Timeout conversion

  /** The static overload: a timeout in seconds as an `Expiration`.  Zero means "no
      expiration" unless immediate timeouts are allowed; every other value, negative ones
      included, is a timeout of exactly that many seconds. */
  function ConvertTimeoutToExpiration(timeoutSeconds: Int32, allowImmediateTimeouts: bool): (e: Expiration)
    ensures e.None? <==> timeoutSeconds == 0 && !allowImmediateTimeouts
    ensures e.Timeout? ==> e.seconds == timeoutSeconds as int
  {
    if timeoutSeconds == 0 && !allowImmediateTimeouts then None
    else Timeout(timeoutSeconds as int)
  }

  /** Zero with immediate timeouts disallowed is an infinite timeout: the attempt never expires. */
  lemma ZeroTimeoutIsInfinite(elapsedSeconds: nat)
    ensures ConvertTimeoutToExpiration(0, false) == None
    ensures !HasExpired(ConvertTimeoutToExpiration(0, false), elapsedSeconds)
  {
  }

  /** Zero with immediate timeouts allowed is an immediate timeout: expired from the start. */
  lemma ZeroTimeoutIsImmediate(elapsedSeconds: nat)
    ensures ConvertTimeoutToExpiration(0, true) == Timeout(0)
    ensures HasExpired(ConvertTimeoutToExpiration(0, true), elapsedSeconds)
  {
  }

  /** A non-zero timeout passes through unchanged, whichever policy is in force. */
  lemma NonZeroTimeoutIgnoresPolicy(timeoutSeconds: Int32, allowImmediateTimeouts: bool)
    requires timeoutSeconds != 0
    ensures ConvertTimeoutToExpiration(timeoutSeconds, allowImmediateTimeouts) == Timeout(timeoutSeconds as int)
  {
  }

  /** The two policies give different results exactly for a zero timeout. */
  lemma PolicyMattersOnlyAtZero(timeoutSeconds: Int32)
    ensures ConvertTimeoutToExpiration(timeoutSeconds, true) != ConvertTimeoutToExpiration(timeoutSeconds, false)
      <==> timeoutSeconds == 0
  {
  }

  /** Under either policy, distinct timeouts give distinct `Expiration` values. */
  lemma ConversionIsInjective(t1: Int32, t2: Int32, allowImmediateTimeouts: bool)
    requires ConvertTimeoutToExpiration(t1, allowImmediateTimeouts) == ConvertTimeoutToExpiration(t2, allowImmediateTimeouts)
    ensures t1 == t2
  {
  }

  /** After `elapsedSeconds`, an attempt under the converted expiration has expired exactly
      when the policy gives it a deadline and that many seconds have passed. */
  lemma ConvertedExpirationMeaning(timeoutSeconds: Int32, allowImmediateTimeouts: bool, elapsedSeconds: nat)
    ensures HasExpired(ConvertTimeoutToExpiration(timeoutSeconds, allowImmediateTimeouts), elapsedSeconds)
      <==> (timeoutSeconds != 0 || allowImmediateTimeouts) && timeoutSeconds as int <= elapsedSeconds
  {
  }

  // ---------------------------------------------------------------------------------------
  // State transitions

  /** The `Logger` setter: a null value throws `ArgumentNullException` for the parameter
      `value` before anything is assigned; any other value replaces the logger. */
  function SetLogger(s: SettingsValue, value: Nullable<Logger>): (r: (SettingsValue, Outcome))
    ensures r.1.Completed? <==> value.NonNull?
    ensures r.1.Threw? ==> r.1 == Threw(ArgumentNullException("value")) && r.0 == s
    ensures r.1.Completed? ==> r.0.logger == value
    ensures r.0.executeSqlStreamSettings == s.executeSqlStreamSettings
    ensures r.0.allowImmediateTimeouts == s.allowImmediateTimeouts
    ensures LoggerNonNull(s) ==> LoggerNonNull(r.0)
  {
    if value.Null? then (s, Threw(ArgumentNullException("value")))
    else (s.(logger := value), Completed)
  }

  /** The copy hook: assigns `ExecuteSqlStreamSettings` and `AllowImmediateTimeouts` from
      `existing`, then assigns its logger through the checked setter. */
  function OnCopy(s: SettingsValue, existing: SettingsValue): (r: (SettingsValue, Outcome))
    ensures r.0.executeSqlStreamSettings == existing.executeSqlStreamSettings
    ensures r.0.allowImmediateTimeouts == existing.allowImmediateTimeouts
    ensures LoggerNonNull(existing) ==> r == (existing, Completed)
    ensures !LoggerNonNull(existing) ==> r.0.logger == s.logger && r.1.Threw?
    ensures LoggerNonNull(s) ==> LoggerNonNull(r.0)
  {
    var partial := s.(executeSqlStreamSettings := existing.executeSqlStreamSettings,
                       allowImmediateTimeouts := existing.allowImmediateTimeouts);
    SetLogger(partial, existing.logger)
  }

  /** After a copy, every timeout converts as it does under the source's policy; this holds
      even for a copy that throws, since the policy is assigned before the logger. */
  lemma CopyPreservesConversion(s: SettingsValue, existing: SettingsValue, timeoutSeconds: Int32)
    ensures ConvertTimeoutToExpiration(timeoutSeconds, OnCopy(s, existing).0.allowImmediateTimeouts)
         == ConvertTimeoutToExpiration(timeoutSeconds, existing.allowImmediateTimeouts)
  {
  }

  /** What can happen to the state of a `SpannerSettings`: its three property setters, which
      callers use, and the copy hook, which C# runs only from the copy constructor on a new
      object.  A `CopyFrom` anywhere in a sequence, and from any source, is more than the
      program can do, so the lemmas over sequences cover its real uses too. */
  datatype SettingsOp =
    | AssignLogger(value: Nullable<Logger>)
    | AssignAllowImmediateTimeouts(allow: bool)
    | AssignExecuteSqlStreamSettings(settings: Nullable<CallSettings>)
    | CopyFrom(existing: SettingsValue)

  /** The state after one operation (a throwing call leaves what it assigned before throwing). */
  function Apply(s: SettingsValue, op: SettingsOp): (r: SettingsValue)
    ensures LoggerNonNull(s) ==> LoggerNonNull(r)
    ensures !op.AssignAllowImmediateTimeouts? && !op.CopyFrom? ==> r.allowImmediateTimeouts == s.allowImmediateTimeouts
  {
    match op
    case AssignLogger(value) => SetLogger(s, value).0
    case AssignAllowImmediateTimeouts(allow) => s.(allowImmediateTimeouts := allow)
    case AssignExecuteSqlStreamSettings(settings) => s.(executeSqlStreamSettings := settings)
    case CopyFrom(existing) => OnCopy(s, existing).0
  }

  /** The state after a sequence of operations, applied in order. */
  function Run(s: SettingsValue, ops: seq<SettingsOp>): (r: SettingsValue)
    decreases |ops|
  {
    if ops == [] then s else Run(Apply(s, ops[0]), ops[1..])
  }

  /** No sequence of setter calls and copies makes a non-null logger null; this holds even
      for copies from a value whose logger is null, which the program never makes. */
  lemma {:induction false} RunKeepsLoggerNonNull(s: SettingsValue, ops: seq<SettingsOp>)
    requires LoggerNonNull(s)
    ensures LoggerNonNull(Run(s, ops))
    decreases |ops|
  {
    if ops != [] {
      RunKeepsLoggerNonNull(Apply(s, ops[0]), ops[1..]);
    }
  }

  /** The `Logger` property of a settings object is never null, whatever its callers did. */
  lemma LoggerNeverNull(ops: seq<SettingsOp>)
    ensures LoggerNonNull(Run(Defaults(), ops))
  {
    RunKeepsLoggerNonNull(Defaults(), ops);
  }

  /** The conversion policy changes only by assigning `AllowImmediateTimeouts` or by a copy. */
  lemma {:induction false} RunKeepsPolicy(s: SettingsValue, ops: seq<SettingsOp>)
    requires forall i :: 0 <= i < |ops| ==> !ops[i].AssignAllowImmediateTimeouts? && !ops[i].CopyFrom?
    ensures Run(s, ops).allowImmediateTimeouts == s.allowImmediateTimeouts
    decreases |ops|
  {
    if ops != [] {
      RunKeepsPolicy(Apply(s, ops[0]), ops[1..]);
    }
  }

  /** By default a zero timeout means "no expiration", and it keeps meaning that until the
      policy is assigned or copied. */
  lemma ZeroIsInfiniteUntilPolicyChanges(ops: seq<SettingsOp>)
    requires forall i :: 0 <= i < |ops| ==> !ops[i].AssignAllowImmediateTimeouts? && !ops[i].CopyFrom?
    ensures ConvertTimeoutToExpiration(0, Run(Defaults(), ops).allowImmediateTimeouts) == None
  {
    RunKeepsPolicy(Defaults(), ops);
  }
}
