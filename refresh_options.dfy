/** The immutable configuration of a refreshable credential: the refresher,
    whether to refresh proactively, an optional initial token and the lead
    time before expiry at which a proactive refresh fires. */
module RefreshOptions {
  import opened Tokens

  /** Java's 32-bit `int`. */
  newtype int32 = x: int | -0x8000_0000 <= x < 0x8000_0000

  /** The offset used when none is given: five minutes. */
  const DEFAULT_EXPIRING_OFFSET_MINUTES: int32 := 5

  /** All four fields are final: a value of this type never changes once
      built. `None` in `tokenRefresher` or `initialToken` stands for null. */
  datatype CommunicationTokenRefreshOptions = Options(
    tokenRefresher: Option<Refresher>,
    refreshProactively: bool,
    initialToken: Option<string>,
    refreshOffsetMinutes: int32)
  {
    function GetTokenRefresher(): Option<Refresher> { tokenRefresher }
    predicate IsRefreshProactively() { refreshProactively }
    function GetInitialToken(): Option<string> { initialToken }
    function GetRefreshOffsetMinutes(): int32 { refreshOffsetMinutes }
  }

  /** The four-argument constructor: every value is stored exactly as given,
      and the getters hand each one back. The offset is not validated. */
  function OptionsWithOffset(tokenRefresher: Option<Refresher>, refreshProactively: bool,
                             initialToken: Option<string>, refreshOffsetMinutes: int32)
    : (o: CommunicationTokenRefreshOptions)
    ensures o.GetTokenRefresher() == tokenRefresher
    ensures o.IsRefreshProactively() == refreshProactively
    ensures o.GetInitialToken() == initialToken
    ensures o.GetRefreshOffsetMinutes() == refreshOffsetMinutes
  {
    Options(tokenRefresher, refreshProactively, initialToken, refreshOffsetMinutes)
  }

  /** The three-argument constructor: the four-argument one with the
      default offset. */
  function OptionsWithToken(tokenRefresher: Option<Refresher>, refreshProactively: bool,
                            initialToken: Option<string>)
    : (o: CommunicationTokenRefreshOptions)
    ensures o == OptionsWithOffset(tokenRefresher, refreshProactively, initialToken, DEFAULT_EXPIRING_OFFSET_MINUTES)
    ensures o.GetRefreshOffsetMinutes() == 5
  {
    Options(tokenRefresher, refreshProactively, initialToken, DEFAULT_EXPIRING_OFFSET_MINUTES)
  }

  /** The two-argument constructor: no initial token and the default offset. */
  function OptionsOf(tokenRefresher: Option<Refresher>, refreshProactively: bool)
    : (o: CommunicationTokenRefreshOptions)
    ensures o == OptionsWithToken(tokenRefresher, refreshProactively, None)
    ensures o.GetInitialToken() == None && o.GetRefreshOffsetMinutes() == 5
  {
    Options(tokenRefresher, refreshProactively, None, DEFAULT_EXPIRING_OFFSET_MINUTES)
  }

  /** Building options from what a given options value's getters return
      rebuilds that value: the getters expose the whole state. */
  lemma GettersDetermineOptions(o: CommunicationTokenRefreshOptions)
    ensures OptionsWithOffset(o.GetTokenRefresher(), o.IsRefreshProactively(),
                              o.GetInitialToken(), o.GetRefreshOffsetMinutes()) == o
  {
  }
}
