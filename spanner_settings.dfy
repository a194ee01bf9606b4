/** `SpannerSettings`: the settings object of a Spanner client, with the fields that its
    hand-written part owns, their setters, the copy hook and the instance timeout conversion.
 */
module Spanner {
  import opened CSharp
  import opened Gax
  import opened SpannerLogging
  import Spec = SettingsSpec

  class SpannerSettings {
    /** Call settings for `ExecuteSqlStream`; callers may assign any value, null included. */
    var executeSqlStreamSettings: Nullable<CallSettings>
    /** Whether a zero timeout converts to an immediate timeout rather than to no expiration. */
    var allowImmediateTimeouts: bool
    /** The backing field of the `Logger` property. */
    var logger: Nullable<Logger>

    /** The fields as a value. */
    function Value(): (v: Spec.SettingsValue)
      reads this
    {
      Spec.SettingsValue(executeSqlStreamSettings, allowImmediateTimeouts, logger)
    }

    /** The object invariant: the logger is never null. */
    ghost predicate Valid()
      reads this
    {
      Spec.LoggerNonNull(Value())
    }

    /** A new settings object with the field initialisers' values. */
    constructor ()
      ensures Valid()
      ensures Value() == Spec.Defaults()
      ensures logger == NonNull(DefaultLogger)
      ensures !allowImmediateTimeouts
      ensures executeSqlStreamSettings == NonNull(CallSettings(Spec.DefaultExecuteSqlStreamTimeoutSeconds))
    {
      executeSqlStreamSettings := NonNull(CallSettings(Spec.DefaultExecuteSqlStreamTimeoutSeconds));
      allowImmediateTimeouts := false;
      logger := NonNull(DefaultLogger);
    }

    /** The `Logger` getter: a logger, never null. */
    function CurrentLogger(): (l: Logger)
      reads this
      requires Valid()
      ensures logger == NonNull(l)
    {
      logger.value
    }

    /** The `Logger` setter: rejects null with `ArgumentNullException`, leaving the logger as it was. */
    method SetLogger(value: Nullable<Logger>) returns (outcome: Outcome)
      modifies this`logger
      ensures (Value(), outcome) == Spec.SetLogger(old(Value()), value)
      ensures outcome.Threw? <==> value.Null?
      ensures logger == if value.Null? then old(logger) else value
      ensures old(Valid()) || value.NonNull? ==> Valid()
    {
      if value.Null? {
        outcome := Threw(ArgumentNullException("value"));
      } else {
        logger := value;
        outcome := Completed;
      }
    }

    /** The `AllowImmediateTimeouts` setter. */
    method SetAllowImmediateTimeouts(allow: bool)
      modifies this`allowImmediateTimeouts
      ensures Value() == Spec.Apply(old(Value()), Spec.AssignAllowImmediateTimeouts(allow))
      ensures allowImmediateTimeouts == allow
      ensures old(Valid()) ==> Valid()
    {
      allowImmediateTimeouts := allow;
    }

    /** The `ExecuteSqlStreamSettings` setter. */
    method SetExecuteSqlStreamSettings(settings: Nullable<CallSettings>)
      modifies this`executeSqlStreamSettings
      ensures Value() == Spec.Apply(old(Value()), Spec.AssignExecuteSqlStreamSettings(settings))
      ensures executeSqlStreamSettings == settings
      ensures old(Valid()) ==> Valid()
    {
      executeSqlStreamSettings := settings;
    }

    /** The copy hook: takes `ExecuteSqlStreamSettings`, `AllowImmediateTimeouts` and the
        logger of `existing`, the logger through the checked setter.  The hook is private:
        only the copy constructor runs it, on a new object and a distinct valid `existing`
        (see `Clone`), so there the copy completes and this object then holds exactly
        `existing`'s values.  The contract also covers any other state and source. */
    method OnCopy(existing: SpannerSettings) returns (outcome: Outcome)
      modifies this
      ensures (Value(), outcome) == Spec.OnCopy(old(Value()), old(existing.Value()))
      ensures old(existing.Valid()) ==> outcome == Completed && Value() == old(existing.Value())
      ensures old(Valid()) || old(existing.Valid()) ==> Valid()
    {
      executeSqlStreamSettings := existing.executeSqlStreamSettings;
      allowImmediateTimeouts := existing.allowImmediateTimeouts;
      outcome := SetLogger(existing.logger);
    }

    /** A copy of this object, as the copy constructor makes one: a new object with the
        field initialisers' values, then the copy hook run from this object. */
    method Clone() returns (c: SpannerSettings)
      requires Valid()
      ensures fresh(c) && c.Valid()
      ensures c.Value() == Value()
    {
      c := new SpannerSettings();
      var _ := c.OnCopy(this);
    }

    /** The instance overload: converts with this object's current `AllowImmediateTimeouts`. */
    function ConvertTimeoutToExpiration(timeoutSeconds: Int32): (e: Expiration)
      reads this
      ensures e == Spec.ConvertTimeoutToExpiration(timeoutSeconds, allowImmediateTimeouts)
    {
      Spec.ConvertTimeoutToExpiration(timeoutSeconds, allowImmediateTimeouts)
    }
  }

  /** A fresh settings object converts a zero timeout to "no expiration". */
  method DefaultZeroTimeoutIsInfinite() returns (e: Expiration)
    ensures e == None
  {
    var settings := new SpannerSettings();
    e := settings.ConvertTimeoutToExpiration(0);
  }

  /** A copy followed by calls to the three setters ends in the state `Spec.Run` gives for
      the matching operations from the source's state, so what is proved about `Run` holds
      for the object. */
  method CallsFollowRun(source: SpannerSettings, value: Nullable<Logger>,
                        allow: bool, settings: Nullable<CallSettings>) returns (x: SpannerSettings)
    requires source.Valid()
    ensures fresh(x) && x.Valid()
    ensures x.Value() == Spec.Run(source.Value(), [Spec.AssignLogger(value),
                                                   Spec.AssignAllowImmediateTimeouts(allow),
                                                   Spec.AssignExecuteSqlStreamSettings(settings)])
  {
    x := source.Clone();
    ghost var s0 := x.Value();
    var _ := x.SetLogger(value);
    ghost var s1 := x.Value();
    x.SetAllowImmediateTimeouts(allow);
    ghost var s2 := x.Value();
    x.SetExecuteSqlStreamSettings(settings);
    ghost var ops := [Spec.AssignLogger(value), Spec.AssignAllowImmediateTimeouts(allow),
                      Spec.AssignExecuteSqlStreamSettings(settings)];
    assert Spec.Run(s2, ops[2..]) == x.Value();
    assert Spec.Run(s1, ops[1..]) == x.Value();
    assert Spec.Run(s0, ops) == x.Value();
  }
}
