# SpannerSettings: timeout conversion and settings state

A Dafny model of the hand-written part of `SpannerSettings`, the settings object of the
Cloud Spanner client library for .NET. That part does four things:

- it converts a query timeout, given in whole seconds, into a Gax `Expiration`. A policy flag,
  `AllowImmediateTimeouts`, decides whether a zero timeout means "expire immediately" or
  "never expire";
- it keeps a `Logger` that is never null, because its setter rejects null;
- it sets defaults: `ExecuteSqlStreamSettings` has a 60-second RPC expiration and
  `AllowImmediateTimeouts` is false;
- it copies those three properties from another instance in the `OnCopy` hook.

Layout:

- `csharp.dfy`, module `CSharp`: the C# language notions the model needs.
  - `Int32` is C#'s `int`.
  - `Nullable<T>` is a reference that may be null.
  - `Outcome` says whether a call completed or threw an `Exception`.
- `gax.dfy`, module `Gax`: the Gax library types, reduced to what the settings need.
  - `Expiration` is `None | Timeout(seconds)`, with `HasExpired` giving its meaning as a
    deadline.
  - `CallSettings` is an opaque value, of which only its timeout in seconds is kept.
- `spanner_logging.dfy`, module `SpannerLogging`: the Spanner client's own internal logging
  types. `Logger` is an opaque identity, and `DefaultLogger` is the default logger.
- `settings_spec.dfy`, module `SettingsSpec`:
  - the object's state as a value (`SettingsValue`);
  - the static conversion;
  - one function per state change: the `Logger` setter and the copy hook;
  - `Apply`/`Run`, which replay any sequence of setter calls. They may also include copies: C#
    runs a copy only once, on a new object, but `Run` allows one anywhere, so the lemmas over
    `Run` cover more cases than the program can produce;
  - the lemmas about all of these.
- `spanner_settings.dfy`, module `Spanner`: class `SpannerSettings` with the three fields, the
  constructor that sets the defaults, the setters, `OnCopy`, `Clone` (the copy constructor's
  use of `OnCopy`) and the instance conversion. Each
  method's `ensures` ties the new `Value()` to the matching `SettingsSpec` function. Composing
  these contracts shows that the lemmas proved over `Run` also hold for any sequence of calls
  on the object. `CallsFollowRun` does this for a clone followed by the three setters.

A null `Logger` makes the setter throw `ArgumentNullException` (parameter `value`). The
model returns this as `Threw(...)` and leaves the field unchanged, instead of putting a
precondition on callers. `OnCopy` is modelled on any state and any source, with more inputs than C# allows.
If the source's logger were null, the first two fields would be assigned and then the setter would throw.
In the program that cannot happen, because every source is valid.

## Model

| member | source | states |
|---|---|---|
| `SettingsSpec.ConvertTimeoutToExpiration` | apis/Google.Cloud.Spanner.V1/Google.Cloud.Spanner.V1/SpannerClient.Streaming.cs:108-110 | The result is "no expiration" exactly when the timeout is 0 and immediate timeouts are not allowed; otherwise it is a timeout of exactly the given seconds, with no range check, so negative values pass through |
| `SettingsSpec.ZeroTimeoutIsInfinite` | apis/Google.Cloud.Spanner.V1/Google.Cloud.Spanner.V1/SpannerClient.Streaming.cs:90-94 | With the flag false, 0 converts to `None`: an attempt never expires, however long it runs |
| `SettingsSpec.ZeroTimeoutIsImmediate` | apis/Google.Cloud.Spanner.V1/Google.Cloud.Spanner.V1/SpannerClient.Streaming.cs:90-94 | With the flag true, 0 converts to a zero-second timeout, which has expired from the start |
| `SettingsSpec.NonZeroTimeoutIgnoresPolicy` | apis/Google.Cloud.Spanner.V1/Google.Cloud.Spanner.V1/SpannerClient.Streaming.cs:108-110 | Any non-zero timeout converts to a timeout of exactly that many seconds under either flag value |
| `SettingsSpec.PolicyMattersOnlyAtZero` | apis/Google.Cloud.Spanner.V1/Google.Cloud.Spanner.V1/SpannerClient.Streaming.cs:108-110 | The two flag values give different expirations if and only if the timeout is 0 |
| `SettingsSpec.ConversionIsInjective` | apis/Google.Cloud.Spanner.V1/Google.Cloud.Spanner.V1/SpannerClient.Streaming.cs:108-110 | With the flag fixed, equal expirations come only from equal timeouts |
| `SettingsSpec.ConvertedExpirationMeaning` | apis/Google.Cloud.Spanner.V1/Google.Cloud.Spanner.V1/SpannerClient.Streaming.cs:90-110 | After a given number of elapsed seconds, an attempt under the converted expiration has expired if and only if it has a deadline (timeout non-zero or flag true) and that deadline has passed |
| `SettingsSpec.Defaults` | apis/Google.Cloud.Spanner.V1/Google.Cloud.Spanner.V1/SpannerClient.Streaming.cs:69-95 | Initial state: the logger is non-null, the stream settings hold a 60-second timeout, and a 0 timeout converts to "no expiration" |
| `SettingsSpec.SetLogger` | apis/Google.Cloud.Spanner.V1/Google.Cloud.Spanner.V1/SpannerClient.Streaming.cs:74-78 | The setter completes if and only if the value is non-null. Null throws `ArgumentNullException("value")` and changes nothing. Otherwise the logger becomes the value. The other fields are unchanged, and a non-null logger stays non-null |
| `SettingsSpec.OnCopy` | apis/Google.Cloud.Spanner.V1/Google.Cloud.Spanner.V1/SpannerClient.Streaming.cs:62-67 | Stream settings and flag are taken from the source. If the source's logger is non-null, the result equals the source and the copy completes. Otherwise the logger is left as it was and the copy throws. A non-null logger is never lost |
| `SettingsSpec.CopyPreservesConversion` | apis/Google.Cloud.Spanner.V1/Google.Cloud.Spanner.V1/SpannerClient.Streaming.cs:62-67 | After any copy, every timeout converts as it would with the source's flag. This includes a copy that throws, because the flag is assigned before the logger |
| `SettingsSpec.Apply` | apis/Google.Cloud.Spanner.V1/Google.Cloud.Spanner.V1/SpannerClient.Streaming.cs:62-95 | No single setter call or copy makes a non-null logger null. Only assigning the flag or copying changes the flag |
| `SettingsSpec.RunKeepsLoggerNonNull` | apis/Google.Cloud.Spanner.V1/Google.Cloud.Spanner.V1/SpannerClient.Streaming.cs:69-78 | A non-null logger stays non-null through any sequence of setter calls and copies, including copies from a source whose logger is null, which the program never makes (proved by induction) |
| `SettingsSpec.LoggerNeverNull` | apis/Google.Cloud.Spanner.V1/Google.Cloud.Spanner.V1/SpannerClient.Streaming.cs:69-78 | Starting from the defaults, the logger is non-null after any sequence of operations |
| `SettingsSpec.RunKeepsPolicy` | apis/Google.Cloud.Spanner.V1/Google.Cloud.Spanner.V1/SpannerClient.Streaming.cs:62-95 | A sequence of operations that neither assigns `AllowImmediateTimeouts` nor copies leaves the flag unchanged (proved by induction) |
| `SettingsSpec.ZeroIsInfiniteUntilPolicyChanges` | apis/Google.Cloud.Spanner.V1/Google.Cloud.Spanner.V1/SpannerClient.Streaming.cs:90-110 | From the defaults, a 0 timeout keeps converting to "no expiration" until the flag is assigned or copied |
| `Spanner.SpannerSettings.constructor` | apis/Google.Cloud.Spanner.V1/Google.Cloud.Spanner.V1/SpannerClient.Streaming.cs:69-95 | A new object holds the default logger, a flag of false, and stream settings with a 60-second timeout. It is valid (logger non-null), and its state equals `Defaults()` |
| `Spanner.SpannerSettings.CurrentLogger` | apis/Google.Cloud.Spanner.V1/Google.Cloud.Spanner.V1/SpannerClient.Streaming.cs:71-76 | The `Logger` getter returns a non-null logger, the one held in the backing field |
| `Spanner.SpannerSettings.SetLogger` | apis/Google.Cloud.Spanner.V1/Google.Cloud.Spanner.V1/SpannerClient.Streaming.cs:77 | Throws if and only if the value is null, leaving the field unchanged. Otherwise stores the value. The new state is `SettingsSpec.SetLogger` of the old, and validity is kept |
| `Spanner.SpannerSettings.SetAllowImmediateTimeouts` | apis/Google.Cloud.Spanner.V1/Google.Cloud.Spanner.V1/SpannerClient.Streaming.cs:95 | The flag becomes the assigned value, nothing else changes, and validity is kept |
| `Spanner.SpannerSettings.SetExecuteSqlStreamSettings` | apis/Google.Cloud.Spanner.V1/Google.Cloud.Spanner.V1/SpannerClient.Streaming.cs:87-88 | The stream settings become the assigned value (null included), nothing else changes, and validity is kept |
| `Spanner.SpannerSettings.OnCopy` | apis/Google.Cloud.Spanner.V1/Google.Cloud.Spanner.V1/SpannerClient.Streaming.cs:62-67 | The new state is `SettingsSpec.OnCopy` of the old state and the source's state. For a valid source, the copy completes and the object then holds exactly the source's three values. Validity is kept |
| `Spanner.SpannerSettings.Clone` | apis/Google.Cloud.Spanner.V1/Google.Cloud.Spanner.V1/SpannerClient.Streaming.cs:62-67 | Like the copy constructor, which runs the copy hook on a new object: the result is a fresh, valid object holding exactly the three values of this object, which is left unchanged |
| `Spanner.SpannerSettings.ConvertTimeoutToExpiration` | apis/Google.Cloud.Spanner.V1/Google.Cloud.Spanner.V1/SpannerClient.Streaming.cs:101-102 | The instance overload equals the static `SettingsSpec.ConvertTimeoutToExpiration` applied to the object's current `AllowImmediateTimeouts` |
| `Spanner.DefaultZeroTimeoutIsInfinite` | apis/Google.Cloud.Spanner.V1/Google.Cloud.Spanner.V1/SpannerClient.Streaming.cs:95 | A freshly constructed object converts a 0 timeout to "no expiration" |
| `Spanner.CallsFollowRun` | apis/Google.Cloud.Spanner.V1/Google.Cloud.Spanner.V1/SpannerClient.Streaming.cs:62-95 | A clone of a valid object followed by calls to the `Logger`, `AllowImmediateTimeouts` and `ExecuteSqlStreamSettings` setters gives a fresh, valid object. Its state is what `SettingsSpec.Run` gives for the three setter operations, starting from the source's state |

## Left out

- `SpannerClient.ExecuteSqlStream` and `GetSqlStreamReader` (lines 31-47): the base versions only throw "not implemented".
- The `SpannerClient.Settings` property (line 54): a plain auto-property with no logic of its own.
- `SpannerClientImpl` (lines 113-133): it only wires the settings into Gax `ClientHelper.BuildApiCall` and gRPC streaming calls, which are foreign library code. The request-modification hook it calls is not part of this model.
- `ReliableStreamReader`: its retry, resume and deduplication logic is not part of this model. Only its constructor call is shown (line 133), and no property of it is claimed.
- The generated copy constructor and `Clone` that call `OnCopy` are not part of the shown source. The generated settings properties are not part of this model either. `Spanner.SpannerSettings.Clone` stands for the copy constructor.
- `Spanner.SpannerSettings.OnCopy`: in C# the copy hook is private. Only the copy constructor runs it, once, on a freshly initialised object and a distinct, valid source. The model allows it on any state and any source, self-copy and a source with a null logger included. The same goes for `CopyFrom` steps in `SettingsSpec.Run`, which may appear anywhere in a sequence.
- The generated Cloud Scheduler client tests: they only check that requests are forwarded to a mocked transport.
- `Logger`, `CallSettings`, `CallTiming`, `Expiration` and `TimeSpan` internals are not modelled. `Logger` comes from the Spanner client's internal logging namespace. `CallSettings`, `CallTiming` and `Expiration` come from the Gax library. `TimeSpan` comes from the base class library. `Logger` is an opaque identity. `CallSettings` keeps only its timeout in seconds. `Expiration` is `None` or a timeout in whole seconds. Timeouts come from a 32-bit `int`, so `TimeSpan.FromSeconds` is exact and cannot overflow.
- `Gax.HasExpired`: gives "immediate" and "infinite" (the words of the doc comment at lines 90-94) their meaning as a deadline, measured from the start of an attempt. How Gax turns an `Expiration` into a gRPC deadline is not modelled.
- Logging, clocks and the process-wide `Logger.DefaultLogger` are not modelled. The default logger is the constant `SpannerLogging.DefaultLogger`. Its definition is not part of the shown source. The model assumes it is non-null by giving it the type `Logger` rather than `Nullable<Logger>`. That assumption is the base case of "the logger is never null".
