/**
 * The authentication redirect guard of the root layout (`AuthenticatedLayout`).
 * Whenever the session or the location changes, the guard decides whether to
 * send an unauthenticated visitor to the login screen, an authenticated
 * user out of the auth area to the home screen, or do nothing.
 */
module SessionGate {
  import opened Wrappers
  import opened Routing

  /**
   * The signed-in user, an object and so always truthy: the guard only asks
   * whether there is one.
   */
  datatype User = User(uid: string)

  /** What the authentication provider reports: the user, and whether it is still resolving. */
  datatype Session = Session(user: Option<User>, loading: bool)

  /** The first segment of every screen in the auth area. */
  const AuthGroup: string := "auth"

  /** The two screens the guard redirects to. */
  datatype Target = Login | Home {
    function Path(): string {
      match this
      case Login => "/auth/login"
      case Home => "/"
    }
  }

  /** The location lies in the auth area; a location without segments does not. */
  predicate InAuthArea(segments: seq<string>) {
    |segments| > 0 && segments[0] == AuthGroup
  }

  /** The screen agrees with the session: signed-in users outside the auth area, visitors inside it. */
  predicate Consistent(user: Option<User>, segments: seq<string>) {
    user.Some? <==> !InAuthArea(segments)
  }

  /** The guard's decision: the screen to replace the current one with, if any. */
  function Decide(s: Session, segments: seq<string>): (r: Option<Target>)
    ensures s.loading ==> r == None
    ensures r == Some(Login) <==> !s.loading && s.user.None? && !InAuthArea(segments)
    ensures r == Some(Home) <==> !s.loading && s.user.Some? && InAuthArea(segments)
  {
    if s.loading then None
    else
      var inAuthGroup := InAuthArea(segments);
      if s.user.None? && !inAuthGroup then Some(Login)
      else if s.user.Some? && inAuthGroup then Some(Home)
      else None
  }

  /** Once the session is resolved, the guard acts exactly when the screen disagrees with it. */
  lemma DecideActsIffInconsistent(s: Session, segments: seq<string>)
    requires !s.loading
    ensures Decide(s, segments).Some? <==> !Consistent(s.user, segments)
  {
  }

  /** The login screen is in the auth area and the home screen is not. */
  lemma TargetArea(t: Target)
    ensures InAuthArea(SplitPath(t.Path())) <==> t == Login
  {
    match t
    case Login =>
      assert IsSegment("auth") && IsSegment("login");
      assert JoinPath(["auth", "login"]) == "/auth/login";
      SplitJoin(["auth", "login"]);
    case Home =>
      assert "/"[1..] == [];
  }

  /** Fixed point: at the screen a redirect leads to, the same session triggers no further redirect. */
  lemma RedirectSettles(s: Session, segments: seq<string>)
    requires Decide(s, segments).Some?
    ensures Consistent(s.user, SplitPath(Decide(s, segments).value.Path()))
    ensures Decide(s, SplitPath(Decide(s, segments).value.Path())) == None
  {
    TargetArea(Decide(s, segments).value);
  }

  /** The location after one evaluation of the guard. */
  function After(s: Session, segments: seq<string>): seq<string> {
    match Decide(s, segments)
    case None => segments
    case Some(t) => SplitPath(t.Path())
  }

  /**
   * `n` successive evaluations of the guard under an unchanged session, each
   * seeing the location the previous one left: the number of redirects
   * issued, and the final location.
   */
  function Replay(s: Session, segments: seq<string>, n: nat): (nat, seq<string>)
    decreases n
  {
    if n == 0 then (0, segments)
    else
      var (k, last) := Replay(s, After(s, segments), n - 1);
      (if Decide(s, segments).Some? then k + 1 else k, last)
  }

  /**
   * Repeated evaluation with unchanged inputs redirects at most once: exactly
   * once if the first evaluation redirects, never otherwise, and it leaves the
   * guard with nothing more to do.
   */
  lemma {:induction false} ReplayRedirectsAtMostOnce(s: Session, segments: seq<string>, n: nat)
    ensures Replay(s, segments, n).0 == if n > 0 && Decide(s, segments).Some? then 1 else 0
    ensures n > 0 ==> Decide(s, Replay(s, segments, n).1) == None
    decreases n
  {
    if n > 0 {
      var next := After(s, segments);
      ReplayRedirectsAtMostOnce(s, next, n - 1);
      if Decide(s, segments).Some? {
        RedirectSettles(s, segments);
      }
    }
  }

  /**
   * One run of the layout's effect: decide, then perform the redirect on the
   * router. Returns the redirect issued, if any.
   */
  method Evaluate(s: Session, router: Router) returns (issued: Option<Target>)
    modifies router
    ensures issued == Decide(s, old(router.segments))
    ensures issued.None? ==> router.segments == old(router.segments)
    ensures issued.Some? ==> router.segments == SplitPath(issued.value.Path())
    ensures router.history == old(router.history)
    ensures Decide(s, router.segments) == None
  {
    issued := Decide(s, router.segments);
    if issued.Some? {
      RedirectSettles(s, router.segments);
      router.Replace(issued.value.Path());
    }
  }
}
