/** The credential and its fetching task as objects whose fields the
    operations update in place. Each method of the credential is proved to
    perform, on `State()`, the CredentialSpec transition of the same name;
    each method of the fetching task does the same on `Snapshot()`.
    `Init` matches `Initial`, `FetchingTask.Start` matches `NewFetchingTask`,
    and `GetNextFetchTime` is `NextFetchTime` of the cached token. */
module Credential {
  import opened Tokens
  import opened RefreshOptions
  import Spec = CredentialSpec

  /** The proactive fetcher: a fetch time and the single-shot timer armed
      for it. When the timer fires, the owning credential's Fire runs. */
  class FetchingTask {
    var nextFetchTime: int
    var expiringTimer: Option<Spec.Timer>

    ghost function Snapshot(): Spec.ScheduleState
      reads this
    {
      Spec.ScheduleState(nextFetchTime, expiringTimer)
    }

    /** The field assignments of the Java constructor, before it starts the timer. */
    constructor Init(nextFetchAt: int)
      ensures Snapshot() == Spec.ScheduleState(nextFetchAt, None)
    {
      nextFetchTime := nextFetchAt;
      expiringTimer := None;
    }

    /** The Java constructor: a new task that starts its timer at once, or
        the exception `startTimer` throws for a time before the epoch. */
    static method Start(nextFetchAt: int) returns (r: Result<FetchingTask>)
      ensures r.Err? <==> !Spec.Schedulable(nextFetchAt)
      ensures r.Err? ==> r.error == ScheduleFailed
      ensures r.Ok? ==> fresh(r.value) && r.value.Snapshot() == Spec.NewFetchingTask(nextFetchAt)
    {
      var task := new FetchingTask.Init(nextFetchAt);
      var scheduled := task.StartTimer();
      if !scheduled {
        return Err(ScheduleFailed);
      }
      return Ok(task);
    }

    /** Stop then start; `scheduled` is false when `startTimer` throws. */
    method SetNextFetchTime(newFetchTime: int) returns (scheduled: bool)
      modifies this
      ensures Snapshot() == Spec.SetNextFetchTime(old(Snapshot()), newFetchTime)
      ensures scheduled == Spec.Schedulable(newFetchTime)
    {
      nextFetchTime := newFetchTime;
      StopTimer();
      scheduled := StartTimer();
    }

    /** A new timer for the fetch time; `scheduled` is false when
        `Timer.schedule` refuses that time, after the timer was created. */
    method StartTimer() returns (scheduled: bool)
      modifies this
      ensures Snapshot() == Spec.StartTimer(old(Snapshot()))
      ensures scheduled == Spec.Schedulable(nextFetchTime)
    {
      scheduled := nextFetchTime >= 0;
      expiringTimer := Some(Spec.Timer(nextFetchTime, scheduled));
    }

    method StopTimer()
      modifies this
      ensures Snapshot() == Spec.StopTimer(old(Snapshot()))
    {
      if expiringTimer.None? {
        return;
      }
      expiringTimer := None;
    }

    /** The timer's thread has taken the expiring task to run it. */
    method Expire()
      requires Spec.Pending(Snapshot())
      modifies this
      ensures Snapshot() == Spec.Expire(old(Snapshot()))
    {
      expiringTimer := Some(expiringTimer.value.(pending := false));
    }
  }

  class CommunicationTokenCredential {
    const parse: Parser
    const tokenRefreshOptions: Option<CommunicationTokenRefreshOptions>
    var accessToken: Option<Token>
    var refresher: Option<Refresher>
    var fetchingTask: FetchingTask?
    var isClosed: bool

    /** The credential's fields as a value. */
    ghost function State(): Spec.CredentialState
      reads this, fetchingTask
    {
      Spec.CredentialState(tokenRefreshOptions, accessToken, refresher,
                           if fetchingTask == null then None else Some(fetchingTask.Snapshot()),
                           isClosed)
    }

    ghost predicate Valid()
      reads this, fetchingTask
    {
      Spec.Inv(State())
    }

    /** The field initialisers, before a constructor body has run. */
    constructor Init(parse: Parser, options: Option<CommunicationTokenRefreshOptions>)
      ensures this.parse == parse
      ensures State() == Spec.Initial(options)
    {
      this.parse := parse;
      tokenRefreshOptions := options;
      accessToken := None;
      refresher := None;
      fetchingTask := null;
      isClosed := false;
    }

    /** Construction from a serialized static token. */
    static method FromToken(parse: Parser, token: Option<string>) returns (r: Result<CommunicationTokenCredential>)
      ensures r.Err? ==> Spec.FromToken(parse, token) == Err(r.error)
      ensures r.Ok? ==> && fresh(r.value) && r.value.parse == parse && r.value.Valid()
                        && Spec.FromToken(parse, token) == Ok(r.value.State())
    {
      if token.None? {
        return Err(TokenNull);
      }
      var c := new CommunicationTokenCredential.Init(parse, None);
      var failure := c.SetToken(token.value);
      if failure.Some? {
        return Err(failure.value);
      }
      return Ok(c);
    }

    /** Construction from refresh options. */
    static method FromOptions(parse: Parser, options: CommunicationTokenRefreshOptions)
      returns (r: Result<CommunicationTokenCredential>)
      ensures r.Err? ==> Spec.FromOptions(parse, options) == Err(r.error)
      ensures r.Ok? ==> && fresh(r.value) && r.value.parse == parse && r.value.Valid()
                        && (r.value.fetchingTask != null ==> fresh(r.value.fetchingTask))
                        && Spec.FromOptions(parse, options) == Ok(r.value.State())
    {
      var tokenRefresher := options.GetTokenRefresher();
      if tokenRefresher.None? {
        return Err(RefresherNull);
      }
      var c := new CommunicationTokenCredential.Init(parse, Some(options));
      c.refresher := tokenRefresher;
      if options.GetInitialToken().Some? {
        var failure := c.SetToken(options.GetInitialToken().value);
        if failure.Some? {
          return Err(failure.value);
        }
        if options.IsRefreshProactively() {
          var nextFetchTime := c.GetNextFetchTime();
          var task := FetchingTask.Start(nextFetchTime);
          if task.Err? {
            return Err(task.error);
          }
          c.fetchingTask := task.value;
        }
      }
      return Ok(c);
    }

    function GetNextFetchTime(): int
      reads this
      requires accessToken.Some?
    {
      Spec.NextFetchTime(tokenRefreshOptions, accessToken.value)
    }

    /** getToken at clock time `now`; `outcome` is what the refresher yields
        if it is called. */
    method GetToken(now: int, outcome: RefreshOutcome) returns (r: Result<Token>)
      modifies this
      ensures fetchingTask == old(fetchingTask)
      ensures (State(), r) == Spec.GetToken(parse, old(State()), now, outcome)
      ensures old(Valid()) ==> Valid()
    {
      if isClosed {
        return Err(CredentialClosed);
      }
      if (accessToken.None? || IsExpired(accessToken.value, now)) && refresher.Some? {
        var fetched := Spec.FetchFreshToken(outcome);
        if fetched.Err? {
          return Err(fetched.error);
        }
        var token := parse(fetched.value);
        if token.None? {
          return Err(ParseFailed);
        }
        accessToken := token;
        return Ok(token.value);
      }
      if accessToken.None? {
        return Err(NoTokenAvailable);
      }
      return Ok(accessToken.value);
    }

    method Close()
      modifies this, fetchingTask
      ensures State() == Spec.Close(old(State()))
      ensures old(fetchingTask) != null ==> old(fetchingTask).expiringTimer.None?
      ensures old(Valid()) ==> Valid()
    {
      isClosed := true;
      if fetchingTask != null {
        fetchingTask.StopTimer();
        fetchingTask := null;
      }
      refresher := None;
    }

    method HasProactiveFetcher() returns (b: bool)
      ensures b == Spec.HasProactiveFetcher(State())
    {
      return fetchingTask != null;
    }

    /** Parses `freshToken` and caches it, re-arming the fetching task if
        there is one; `failure` is the exception thrown, if any. */
    method SetToken(freshToken: string) returns (failure: Option<Error>)
      modifies this, fetchingTask
      ensures fetchingTask == old(fetchingTask)
      ensures Spec.SetToken(parse, old(State()), freshToken) == Spec.Update(State(), failure)
      ensures old(Valid()) ==> Valid()
    {
      var token := parse(freshToken);
      if token.None? {
        return Some(ParseFailed);
      }
      accessToken := token;
      if fetchingTask != null {
        var nextFetchTime := GetNextFetchTime();
        var scheduled := fetchingTask.SetNextFetchTime(nextFetchTime);
        if !scheduled {
          return Some(ScheduleFailed);
        }
      }
      return None;
    }

    /** The armed timer fires: fetch a fresh token and set it. A failure at
        any point is logged and swallowed. */
    method Fire(outcome: RefreshOutcome)
      requires Spec.TimerPending(State())
      modifies this, fetchingTask
      ensures fetchingTask == old(fetchingTask)
      ensures State() == Spec.Fire(parse, old(State()), outcome)
      ensures old(Valid()) ==> Valid()
    {
      fetchingTask.Expire();
      if refresher.None? {
        return;
      }
      var fetched := Spec.FetchFreshToken(outcome);
      if fetched.Err? {
        return;
      }
      var failure := SetToken(fetched.value);
    }
  }
}
