/** The request gate of src/proxy.ts: given whether a user is signed in, the
    requested path and query string, and whether that user has a profile, it
    either lets the request through or redirects it. */
module Proxy {
  import opened Wrappers
  import opened Text

  /** A redirect keeps the request's query string (the URL is cloned) and, when
      `redirectTo` is present, sets that query parameter to it. */
  datatype Decision = PassThrough | Redirect(pathname: string, search: string, redirectTo: Option<string>)

  /** `PROFILE_SKIP_PATHS` */
  const ProfileSkipPaths: seq<string> := ["/login", "/auth", "/profile/setup", "/invite"]

  /** `prefixes.some((path) => s.startsWith(path))` */
  function StartsWithAny(s: string, prefixes: seq<string>): (r: bool)
    ensures r <==> exists i :: 0 <= i < |prefixes| && StartsWith(s, prefixes[i])
  {
    if prefixes == [] then false
    else StartsWith(s, prefixes[0]) || StartsWithAny(s, prefixes[1..])
  }

  /** The page to come back to, attached only when it is not the root. */
  function RedirectParam(pathname: string, search: string): (r: Option<string>)
    ensures r.None? <==> pathname + search == "/"
    ensures r.Some? ==> r.value == pathname + search
  {
    var back := pathname + search;
    if back != "/" then Some(back) else None
  }

  /** `shouldCheckProfile`: a signed-in user outside the skipped paths. */
  predicate NeedsProfileCheck(user: Option<string>, pathname: string)
  {
    user.Some? && !StartsWithAny(pathname, ProfileSkipPaths)
  }

  /** The decision of `proxy`. `hasProfile` is consulted only when the profile
      check runs. */
  function Route(user: Option<string>, pathname: string, search: string, hasProfile: bool)
    : (d: Decision)
    ensures user.None? && !StartsWith(pathname, "/login") && !StartsWith(pathname, "/auth") ==>
      d == Redirect("/login", search, RedirectParam(pathname, search))
    ensures user.Some? && StartsWith(pathname, "/login") ==> d == Redirect("/", search, None)
    ensures NeedsProfileCheck(user, pathname) && !hasProfile ==>
      d == Redirect("/profile/setup", search, RedirectParam(pathname, search))
    ensures d.PassThrough? <==>
      || (user.None? && (StartsWith(pathname, "/login") || StartsWith(pathname, "/auth")))
      || (user.Some? && !StartsWith(pathname, "/login") && (!NeedsProfileCheck(user, pathname) || hasProfile))
  {
    if user.None? && !StartsWith(pathname, "/login") && !StartsWith(pathname, "/auth") then
      Redirect("/login", search, RedirectParam(pathname, search))
    else if user.Some? && StartsWith(pathname, "/login") then
      Redirect("/", search, None)
    else if NeedsProfileCheck(user, pathname) && !hasProfile then
      Redirect("/profile/setup", search, RedirectParam(pathname, search))
    else
      PassThrough
  }

  /** Whether a profile exists matters only when the check runs; in particular
      a signed-in user on a login path goes to the root before any profile check. */
  lemma ProfileIrrelevantWhenSkipped(user: Option<string>, pathname: string, search: string)
    requires !NeedsProfileCheck(user, pathname)
    ensures Route(user, pathname, search, true) == Route(user, pathname, search, false)
  {
  }

  /** The tests are prefix tests: "/loginx" is treated as "/login" and
      "/invite-me" as "/invite". */
  lemma PrefixMatching(user: Option<string>, search: string, hasProfile: bool)
    ensures Route(user, "/loginx", search, hasProfile).PassThrough? <==>
            Route(user, "/login", search, hasProfile).PassThrough?
    ensures user.Some? ==> Route(user, "/loginx", search, hasProfile) == Redirect("/", search, None)
    ensures user.Some? ==> Route(user, "/invite-me", search, hasProfile) == PassThrough
  {
    var loginx: string := "/loginx";
    assert StartsWith(loginx, "/login");
    var inviteMe: string := "/invite-me";
    assert StartsWith(inviteMe, ProfileSkipPaths[3]);
    assert inviteMe[..6][1] != "/login"[1];
  }

  /** No redirect loop: following a redirect (with whatever query string it
      carries), the gate lets the request through at once, or after one more
      hop to the profile setup page. */
  lemma RedirectsSettle(user: Option<string>, pathname: string, search: string, hasProfile: bool,
                        search1: string, search2: string)
    requires Route(user, pathname, search, hasProfile).Redirect?
    ensures var d1 := Route(user, Route(user, pathname, search, hasProfile).pathname, search1, hasProfile);
      d1.PassThrough? || (d1.Redirect? && Route(user, d1.pathname, search2, hasProfile).PassThrough?)
  {
    var login: string := "/login";
    assert StartsWith(login, "/login");
    var setup: string := "/profile/setup";
    assert StartsWith(setup, ProfileSkipPaths[2]);
    assert setup[..6][1] != "/login"[1];
    var root: string := "/";
  }
}
