# Communication token credential

A model of the access-token credential of the Azure Communication Services
Java client library (`CommunicationTokenCredential`) and of its
configuration object (`CommunicationTokenRefreshOptions`).

The credential holds a parsed bearer token and, optionally, a caller's
token refresher. `getToken` serves the cached token while it is unexpired,
and calls the refresher, if there is one, when the token is absent or
expired. When the options turn proactive refreshing on and carry an initial
token, construction starts a fetching task, which arms a single-shot timer for the token's
expiry less an offset (five minutes unless the options say otherwise). When
the timer fires, the task fetches a fresh token and sets it, which re-arms
the timer. `close` marks the credential closed, stops and drops the task,
and drops the refresher.

The project has four modules:

- `Tokens` (tokens.dfy): the token, the refresher handle, what one call of
  the refresher yields, and the error taxonomy.
- `RefreshOptions` (refresh_options.dfy): the immutable options as a
  datatype, with the three Java constructors as functions.
- `CredentialSpec` (credential_spec.dfy): the credential and its fetching
  task as values. There is one transition function per operation, an
  invariant `Inv`, and `Run`, which applies any sequence of getToken calls,
  close calls and timer firings. The lemmas state what these guarantee.
- `Credential` (credential.dfy): the classes `FetchingTask` and
  `CommunicationTokenCredential`, whose methods update fields in place. Each
  method of the credential is proved to perform the `CredentialSpec`
  transition of the same name on `State()`, the value of its fields; each
  method of the fetching task does the same on `Snapshot()`. The
  credential's `Init` performs `Initial`; the fetching task's `Init` only
  sets the fetch time, with no timer yet; `FetchingTask.Start` performs
  `NewFetchingTask`; and `GetNextFetchTime` is `NextFetchTime` of the
  cached token.

Modelling choices:

- Time is an integer number of minutes since the Unix epoch. A token is
  expired once `now` is past its `expiresAt`. The clock is an explicit `now` parameter of
  `getToken`.
- The token parser is a total function `string -> Option<Token>` supplied
  at construction; rejecting a token stands for the parser's exception.
- The refresher is an opaque handle. What a call of it yields is a
  parameter of the operation that calls it: `get()` returning null, a Mono
  that fails, or a Mono that emits a serialized token.
- The Java constructors can throw (a null token, a null refresher, a token
  the parser rejects, a proactive fetch time before the epoch). They are modelled as static methods `FromToken` and
  `FromOptions` that return either an error or a fresh credential.
- A timer is `Option<Timer(fireAt, pending)>`. `pending` turns false when
  the timer's one task starts to run. `Timer.schedule` refuses an instant
  before the epoch: the timer then exists with nothing pending, and the
  exception is the error `ScheduleFailed`. It makes construction from
  proactive options fail, and it is swallowed when the timer fires. The
  timer firing is the method `Fire`. It may be called only while a timer
  is pending, and it does not read the clock, so a timer set for a past
  instant may fire at once.

Behaviour as written that a caller may not expect:

- An on-demand refresh in `getToken` assigns the parsed token directly
  (sdk/communication/azure-communication-common/src/main/java/com/azure/communication/common/CommunicationTokenCredential.java:91). It does not go through `setToken`, so it never re-arms the
  fetching task. A failed proactive refresh is therefore never retried in
  the background. Only an on-demand `getToken` can replace the token
  afterwards, and it does not re-arm the timer (`SpentTimerStaysSpent`,
  `FailedFireDisablesProactiveRefresh`).
- Proactive options without an initial token never schedule a proactive
  refresh. Only the options constructor starts a fetching task, and only
  when it has an initial token
  (sdk/communication/azure-communication-common/src/main/java/com/azure/communication/common/CommunicationTokenCredential.java:59-64);
  a later on-demand refresh does not start one
  (`NoInitialTokenNoProactiveRefresh`).
- Without a refresher, `getToken` returns the cached token even when it has
  expired (sdk/communication/azure-communication-common/src/main/java/com/azure/communication/common/CommunicationTokenCredential.java:85 and sdk/communication/azure-communication-common/src/main/java/com/azure/communication/common/CommunicationTokenCredential.java:97). There is no "no token available" error for it.
  The `Mono.just(null)` case, with no token and no refresher, is modelled as
  `NoTokenAvailable`, and `Inv` rules it out.
- The default offset is 5 minutes (sdk/communication/azure-communication-common/src/main/java/com/azure/communication/common/CommunicationTokenRefreshOptions.java:13). The doc comments say two
  minutes (sdk/communication/azure-communication-common/src/main/java/com/azure/communication/common/CommunicationTokenRefreshOptions.java:26) and ten minutes (sdk/communication/azure-communication-common/src/main/java/com/azure/communication/common/CommunicationTokenCredential.java:49).

## Model

| member | source | states |
|---|---|---|
| RefreshOptions.OptionsWithOffset | sdk/communication/azure-communication-common/src/main/java/com/azure/communication/common/CommunicationTokenRefreshOptions.java:63-68 | the four-argument constructor stores every value as given, with no validation of the offset, and the getters return each one |
| RefreshOptions.OptionsWithToken | sdk/communication/azure-communication-common/src/main/java/com/azure/communication/common/CommunicationTokenRefreshOptions.java:45-50 | the three-argument constructor equals the four-argument one with the default offset, 5 |
| RefreshOptions.OptionsOf | sdk/communication/azure-communication-common/src/main/java/com/azure/communication/common/CommunicationTokenRefreshOptions.java:28-33 | the two-argument constructor equals the three-argument one with a null initial token, so the offset is 5 |
| RefreshOptions.GettersDetermineOptions | sdk/communication/azure-communication-common/src/main/java/com/azure/communication/common/CommunicationTokenRefreshOptions.java:73-96 | the getters expose the whole state: rebuilding options from their getters gives the same options |
| CredentialSpec.StopTimerDisarms | sdk/communication/azure-communication-common/src/main/java/com/azure/communication/common/CommunicationTokenCredential.java:157-165 | stopping is a no-op without a timer, always leaves a null timer, keeps the fetch time, and is idempotent |
| CredentialSpec.SetNextFetchTime | sdk/communication/azure-communication-common/src/main/java/com/azure/communication/common/CommunicationTokenCredential.java:145-149 | stop-then-start leaves exactly one timer, for the new fetch time, whatever timer there was before; it is armed unless that time is before the epoch |
| CredentialSpec.NewFetchingTask | sdk/communication/azure-communication-common/src/main/java/com/azure/communication/common/CommunicationTokenCredential.java:138-143 | a new fetching task has a timer for the fetch time it was given, armed unless that time is before the epoch |
| CredentialSpec.NextFetchTime | sdk/communication/azure-communication-common/src/main/java/com/azure/communication/common/CommunicationTokenCredential.java:68-73 | the next fetch time is the token's expiry less the options' offset, or less 5 without options |
| CredentialSpec.SetToken | sdk/communication/azure-communication-common/src/main/java/com/azure/communication/common/CommunicationTokenCredential.java:115-122 | a parsed token replaces the cached one; a fetching task, if present, is re-armed at the new expiry less the offset, and that fails with ScheduleFailed, after the token is cached, when the time is before the epoch; nothing else changes; a rejected token changes nothing; the invariant is kept |
| CredentialSpec.FetchFreshToken | sdk/communication/azure-communication-common/src/main/java/com/azure/communication/common/CommunicationTokenCredential.java:124-131 | a null result from the refresher is the error RefresherReturnedNull; a failing Mono is an error; an emitted token is passed on |
| CredentialSpec.FromToken | sdk/communication/azure-communication-common/src/main/java/com/azure/communication/common/CommunicationTokenCredential.java:39-43 | a null token is refused and a rejected token fails; otherwise the credential holds the parsed token with no refresher, no options and no fetching task, and satisfies the invariant |
| CredentialSpec.FromOptions | sdk/communication/azure-communication-common/src/main/java/com/azure/communication/common/CommunicationTokenCredential.java:54-66 | a null refresher is refused; the initial token, if any, is parsed; a fetching task exists iff there is an initial token and proactive refresh is on, armed at its expiry less the offset; construction fails with ScheduleFailed when that time is before the epoch |
| CredentialSpec.GetToken | sdk/communication/azure-communication-common/src/main/java/com/azure/communication/common/CommunicationTokenCredential.java:80-98 | closed: error, state unchanged; no refresh needed: the cached token, state unchanged; only the token can change, only on a successful refresh, and the fetching task is never touched; every error leaves the state unchanged; the invariant is kept |
| CredentialSpec.Close | sdk/communication/azure-communication-common/src/main/java/com/azure/communication/common/CommunicationTokenCredential.java:100-108 | afterwards the credential is closed, has no fetching task and no refresher, keeps its token and options, and keeps the invariant |
| CredentialSpec.Fire | sdk/communication/azure-communication-common/src/main/java/com/azure/communication/common/CommunicationTokenCredential.java:183-192 | a parsed new token is cached and the timer re-armed at its expiry less the offset, with nothing pending if that time is before the epoch; on any earlier failure only the spent timer differs and nothing is pending; no failure escapes; the invariant is kept |
| CredentialSpec.RefreshOnDemand | sdk/communication/azure-communication-common/src/main/java/com/azure/communication/common/CommunicationTokenCredential.java:85-94 | when a refresh is needed, a null or failed refresher result or a rejected token is an error with the state unchanged; a parsed token is cached and returned |
| CredentialSpec.CachedTokenIgnoresRefresher | sdk/communication/azure-communication-common/src/main/java/com/azure/communication/common/CommunicationTokenCredential.java:85-97 | when no refresh is needed, getToken's outcome does not depend on what the refresher would yield: it is not called |
| CredentialSpec.CloseIdempotent | sdk/communication/azure-communication-common/src/main/java/com/azure/communication/common/CommunicationTokenCredential.java:100-108 | closing twice gives the same state as closing once |
| CredentialSpec.StepPreservesInv | sdk/communication/azure-communication-common/src/main/java/com/azure/communication/common/CommunicationTokenCredential.java:26-32 | every getToken call, close call or timer firing keeps the invariant on the credential's fields |
| CredentialSpec.RunPreservesInv | sdk/communication/azure-communication-common/src/main/java/com/azure/communication/common/CommunicationTokenCredential.java:26-32 | every sequence of getToken calls, close calls and timer firings keeps the invariant |
| CredentialSpec.ClosedIsTerminal | sdk/communication/azure-communication-common/src/main/java/com/azure/communication/common/CommunicationTokenCredential.java:80-84 | from a closed credential no sequence of events changes anything, no timer is pending, and every getToken fails with CredentialClosed |
| CredentialSpec.CloseThenAnything | sdk/communication/azure-communication-common/src/main/java/com/azure/communication/common/CommunicationTokenCredential.java:100-113 | after close, whatever happens, the state is what close left and hasProactiveFetcher is false |
| CredentialSpec.StaticTokenIsFixed | sdk/communication/azure-communication-common/src/main/java/com/azure/communication/common/CommunicationTokenCredential.java:85-97 | without options the cached token never changes, and an open credential's getToken returns it at every clock time, expired or not |
| CredentialSpec.StaticCredentialServesItsToken | sdk/communication/azure-communication-common/src/main/java/com/azure/communication/common/CommunicationTokenCredential.java:39-43 | a credential built from a static token serves that token from then on until it is closed |
| CredentialSpec.SpentTimerStaysSpent | sdk/communication/azure-communication-common/src/main/java/com/azure/communication/common/CommunicationTokenCredential.java:85-94 | once no timer is pending, no sequence of events re-arms one, because on-demand refreshes do not reschedule |
| CredentialSpec.FailedFireDisablesProactiveRefresh | sdk/communication/azure-communication-common/src/main/java/com/azure/communication/common/CommunicationTokenCredential.java:183-192 | after a proactive refresh that fails (refresher, parser, or a re-arm time before the epoch), no proactive refresh is ever pending again |
| CredentialSpec.NoInitialTokenNoProactiveRefresh | sdk/communication/azure-communication-common/src/main/java/com/azure/communication/common/CommunicationTokenCredential.java:54-64 | options with a refresher and no initial token construct a credential with no fetching task, proactive or not, and no sequence of events ever makes a proactive refresh pending |
| CredentialSpec.PreEpochFetchTimeRefused | sdk/communication/azure-communication-common/src/main/java/com/azure/communication/common/CommunicationTokenCredential.java:153-154 | proactive options with an initial token expiring at minute 10 and an offset of 1000 fail construction with ScheduleFailed; with an offset of 10 they succeed |
| CredentialSpec.ProactiveScenario | sdk/communication/azure-communication-common/src/main/java/com/azure/communication/common/CommunicationTokenCredential.java:59-64 | with offset 5 and an initial token expiring at t0+10 the timer is set for t0+5; firing with a token expiring at f+20 re-arms it for f+15 |
| Credential.FetchingTask.Init | sdk/communication/azure-communication-common/src/main/java/com/azure/communication/common/CommunicationTokenCredential.java:138-141 | the task's fields as the Java constructor assigns them, before its timer is started |
| Credential.FetchingTask.Start | sdk/communication/azure-communication-common/src/main/java/com/azure/communication/common/CommunicationTokenCredential.java:138-143 | fails with ScheduleFailed exactly when the fetch time is before the epoch; otherwise a fresh task in the state NewFetchingTask gives |
| Credential.FetchingTask.SetNextFetchTime | sdk/communication/azure-communication-common/src/main/java/com/azure/communication/common/CommunicationTokenCredential.java:145-149 | performs SetNextFetchTime on the task's fields and reports whether scheduling succeeded |
| Credential.FetchingTask.StartTimer | sdk/communication/azure-communication-common/src/main/java/com/azure/communication/common/CommunicationTokenCredential.java:151-155 | creates a new timer for the task's fetch time, pending unless that time is before the epoch, and reports which |
| Credential.FetchingTask.StopTimer | sdk/communication/azure-communication-common/src/main/java/com/azure/communication/common/CommunicationTokenCredential.java:157-165 | performs StopTimer on the task's fields |
| Credential.FetchingTask.Expire | sdk/communication/azure-communication-common/src/main/java/com/azure/communication/common/CommunicationTokenCredential.java:151-155 | a timer given one task runs it once: afterwards nothing is pending and the timer stays |
| Credential.CommunicationTokenCredential.Init | sdk/communication/azure-communication-common/src/main/java/com/azure/communication/common/CommunicationTokenCredential.java:25-32 | the field initialisers: open, no token, no refresher, no fetching task |
| Credential.CommunicationTokenCredential.FromToken | sdk/communication/azure-communication-common/src/main/java/com/azure/communication/common/CommunicationTokenCredential.java:39-43 | returns the error of, or a fresh valid credential in the state given by, CredentialSpec.FromToken |
| Credential.CommunicationTokenCredential.FromOptions | sdk/communication/azure-communication-common/src/main/java/com/azure/communication/common/CommunicationTokenCredential.java:54-66 | returns the error of, or a fresh valid credential (with a fresh fetching task) in the state given by, CredentialSpec.FromOptions |
| Credential.CommunicationTokenCredential.GetToken | sdk/communication/azure-communication-common/src/main/java/com/azure/communication/common/CommunicationTokenCredential.java:80-98 | result and new fields are those of CredentialSpec.GetToken; the fetching task is the same object, unmodified; the invariant is kept |
| Credential.CommunicationTokenCredential.Close | sdk/communication/azure-communication-common/src/main/java/com/azure/communication/common/CommunicationTokenCredential.java:100-108 | new fields are those of CredentialSpec.Close, the dropped task's timer has been stopped, and the invariant is kept |
| Credential.CommunicationTokenCredential.HasProactiveFetcher | sdk/communication/azure-communication-common/src/main/java/com/azure/communication/common/CommunicationTokenCredential.java:110-113 | true exactly when the credential has a fetching task |
| Credential.CommunicationTokenCredential.SetToken | sdk/communication/azure-communication-common/src/main/java/com/azure/communication/common/CommunicationTokenCredential.java:115-122 | new fields and the thrown error are those of CredentialSpec.SetToken; a rejected token leaves every field as it was; the fetching task object is kept; the invariant is kept |
| Credential.CommunicationTokenCredential.Fire | sdk/communication/azure-communication-common/src/main/java/com/azure/communication/common/CommunicationTokenCredential.java:183-192 | new fields are those of CredentialSpec.Fire; the fetching task is the same object; no failure escapes; the invariant is kept |

## Left out

- Concurrency: the `synchronized` blocks, the double-checked test in
  `getToken`, and the collapsing of concurrent refreshes into one. Each
  operation is modelled as one atomic step, and a timer firing that overlaps
  a `close` is not modelled.
- Reactor: a Mono is modelled as completing at once with its value or its
  error. Its laziness (the token is cached only when the caller subscribes)
  is not modelled. A refresher Mono that completes empty is not modelled
  either; in `getToken` it would complete empty without caching anything.
- `java.util.Timer` threads: only the timer's fire time and whether its
  task is still pending are kept. The thread a spent timer leaves alive and
  `purge` are not modelled. The instant at which a timer fires is not
  modelled, because the firing does not read the clock.
- The token parser (`TokenParser.parseJWTToken`) is not part of this model.
  It is a caller-supplied function.
- `AccessToken` is not part of this model. Its expiry test is taken as "the
  clock is past `expiresAt`". `OffsetDateTime` and `Date` become whole
  minutes since the epoch. Their upper range limits are not modelled, such
  as the exception `Date.from` throws for an instant too far in the future.
- `ClientLogger`: log output is not modelled. A failure swallowed in the
  timer's task leaves only its effect on the fields: a spent timer, and a
  new token when the failure came from re-arming.
- The fetching task's back-reference to its credential is not modelled. The
  firing is a method of the credential (`Fire`), which calls the
  credential's own `SetToken` as the task does.
- Credential.CommunicationTokenCredential.FromOptions: takes a non-null
  options object. The NullPointerException of a null options argument
  (sdk/communication/azure-communication-common/src/main/java/com/azure/communication/common/CommunicationTokenCredential.java:55) is not modelled.
- Credential.CommunicationTokenCredential.Fire: requires a pending
  timer, because only an armed timer runs the task.
- The other files of the repository (generated REST clients, samples, test
  helpers) only consume a token or build one for tests, and are not modelled.
