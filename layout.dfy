/** The startup routing decision of `RootLayout` (TodoMobile/app/_layout.tsx): the `checkAuth`
    effect reads both stored tokens and, from them and the current route group, picks where the
    router goes. The router and storage are abstracted: the reads arrive as a value, and the
    outcome of the one service call it may make (`authService.refreshToken`) as a flag. */
module RootLayout {
  import opened Wrappers
  import ApiSpec

  /** The `router.replace` target chosen, or no navigation at all. */
  datatype Navigation = ToLogin | ToTabs | Stay

  /** What the two `AsyncStorage.getItem` reads returned, or that one of them threw. */
  datatype StoredTokens = Stored(access: Option<string>, refresh: Option<string>) | ReadFailed

  datatype Decision = Decision(navigation: Navigation, refreshAttempted: bool)

  /** `segments[0] === '(auth)'`. */
  predicate InAuthGroup(segments: seq<string>) {
    |segments| > 0 && segments[0] == "(auth)"
  }

  /** The body of `checkAuth`. `refreshSucceeds` is consulted only when a refresh is attempted. */
  function CheckAuth(stored: StoredTokens, segments: seq<string>, refreshSucceeds: bool): (d: Decision)
    // a refresh is attempted exactly with no access token, a refresh token, outside the auth group
    ensures d.refreshAttempted <==>
      stored.Stored? && !ApiSpec.Present(stored.access) && ApiSpec.Present(stored.refresh) && !InAuthGroup(segments)
    ensures d.navigation == ToLogin <==>
      || stored.ReadFailed?
      || (stored.Stored? && !ApiSpec.Present(stored.access) && !ApiSpec.Present(stored.refresh) && !InAuthGroup(segments))
      || (d.refreshAttempted && !refreshSucceeds)
    ensures d.navigation == ToTabs <==>
      || (stored.Stored? && ApiSpec.Present(stored.access) && InAuthGroup(segments))
      || (d.refreshAttempted && refreshSucceeds)
    // no navigation exactly when the access token's presence and the route group disagree
    ensures d.navigation == Stay <==>
      stored.Stored? && (ApiSpec.Present(stored.access) <==> !InAuthGroup(segments))
  {
    match stored
    case ReadFailed => Decision(ToLogin, false)
    case Stored(access, refresh) =>
      var inAuthGroup := InAuthGroup(segments);
      if !ApiSpec.Present(access) && !ApiSpec.Present(refresh) && !inAuthGroup then Decision(ToLogin, false)
      else if ApiSpec.Present(access) && inAuthGroup then Decision(ToTabs, false)
      else if !ApiSpec.Present(access) && ApiSpec.Present(refresh) && !inAuthGroup then
        Decision(if refreshSucceeds then ToTabs else ToLogin, true)
      else Decision(Stay, false)
  }

  /** The decision depends on the refresh outcome only when a refresh is attempted. */
  lemma RefreshOutcomeMattersOnlyWhenAttempted(stored: StoredTokens, segments: seq<string>)
    ensures !CheckAuth(stored, segments, true).refreshAttempted ==>
      CheckAuth(stored, segments, true) == CheckAuth(stored, segments, false)
    ensures CheckAuth(stored, segments, true).refreshAttempted ==>
      CheckAuth(stored, segments, true).navigation != CheckAuth(stored, segments, false).navigation
  {
  }
}
