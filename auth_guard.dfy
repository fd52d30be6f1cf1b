/** The client's route guard (client/src/components/auth-provider.tsx, `AuthGuard`): which
    locations are protected, when the guard sends the browser to the login page, and what it
    renders. The effect that navigates is returned as a decision instead of being performed. */
module AuthGuard {

  const ProtectedPaths: seq<string> := ["/dashboard", "/expenses", "/analytics", "/budgets"]

  /** `paths.some(path => location.startsWith(path))`, scanning the paths in order. */
  function SomePrefix(paths: seq<string>, location: string): (r: bool)
    ensures r <==> exists i :: 0 <= i < |paths| && paths[i] <= location
  {
    if paths == [] then false
    else if paths[0] <= location then true
    else
      var r := SomePrefix(paths[1..], location);
      assert forall i :: 0 < i < |paths| ==> paths[i] == paths[1..][i - 1];
      r
  }

  predicate IsProtected(location: string)
  {
    SomePrefix(ProtectedPaths, location)
  }

  /** A location is protected exactly when it starts with one of the four protected paths,
      so anything under them (and anything merely beginning with their letters) is too. */
  lemma ProtectedIsPrefixTest(location: string, suffix: string)
    ensures IsProtected(location) <==>
      ("/dashboard" <= location || "/expenses" <= location || "/analytics" <= location || "/budgets" <= location)
    ensures IsProtected(location) ==> IsProtected(location + suffix)
  {
    assert ProtectedPaths[0] == "/dashboard" && ProtectedPaths[1] == "/expenses";
    assert ProtectedPaths[2] == "/analytics" && ProtectedPaths[3] == "/budgets";
    if IsProtected(location) {
      var i :| 0 <= i < |ProtectedPaths| && ProtectedPaths[i] <= location;
      assert i == 0 || i == 1 || i == 2 || i == 3;
      assert ProtectedPaths[i] <= location + suffix by {
        assert (location + suffix)[..|location|] == location;
      }
    }
  }

  /** The login page, the landing page and the sign-up page are not protected, so sending an
      unauthenticated visitor to the login page cannot send them anywhere else. */
  lemma PublicPagesUnprotected()
    ensures !IsProtected("/login")
    ensures !IsProtected("/")
    ensures !IsProtected("/register")
    ensures IsProtected("/budgetsX")
  {
    assert "/dashboard"[1] == 'd' && "/expenses"[1] == 'e' && "/analytics"[1] == 'a' && "/budgets"[1] == 'b';
    assert "/login"[1] == 'l' && "/register"[1] == 'r';
    assert "/budgetsX"[..|"/budgets"|] == "/budgets";
  }

  /** What the guard renders. */
  datatype Render = Spinner | Nothing | Children

  datatype GuardDecision = GuardDecision(redirectToLogin: bool, render: Render)

  /** The effect (navigate to "/login" when loading has finished without a user on a
      protected location) and the render choice (a spinner while a protected location waits
      for the user, nothing for a protected location without a user, otherwise the page). */
  function Guard(location: string, isLoading: bool, hasUser: bool): (d: GuardDecision)
    ensures d.redirectToLogin <==> !isLoading && !hasUser && IsProtected(location)
    ensures d.render == Spinner <==> IsProtected(location) && isLoading
    ensures d.render == Nothing <==> IsProtected(location) && !isLoading && !hasUser
    ensures d.render == Children <==> !IsProtected(location) || (!isLoading && hasUser)
    ensures d.redirectToLogin ==> d.render == Nothing
  {
    var isProtectedPath := IsProtected(location);
    var redirect := !isLoading && !hasUser && isProtectedPath;
    if isProtectedPath && isLoading then GuardDecision(redirect, Spinner)
    else if isProtectedPath && !hasUser then GuardDecision(redirect, Nothing)
    else GuardDecision(redirect, Children)
  }
}
