/**
 * The route guard (src/ProtectedRoute.tsx): protected pages render only for
 * a logged-in user; anyone else is alerted and redirected to the sign-in
 * page of the current kitchen.
 */
module ProtectedRoute {
  import opened Wrappers

  /** What the guard renders: the protected children, or a redirect. */
  datatype View<C> = Children(children: C) | Redirect(to: string)

  /** The rendered view together with the alert raised while deciding it. */
  datatype Decision<C> = Decision(view: View<C>, alert: Option<string>)

  const SigninAlert := "Sending you to signin"
  const SigninSuffix := "/signin"

  /** `/${kitchenId}/signin`. */
  function SigninPath(kitchenId: string): (path: string)
    ensures |path| == |kitchenId| + 8
    ensures path[..1] == "/" && path[|path| - 7..] == SigninSuffix
    ensures path[1..|path| - 7] == kitchenId
  {
    "/" + kitchenId + SigninSuffix
  }

  function Guard<C>(isLoggedIn: bool, kitchenId: string, children: C): (d: Decision<C>)
    ensures isLoggedIn ==> d.view == Children(children)
    ensures !isLoggedIn ==> d.view == Redirect(SigninPath(kitchenId))
    ensures d.alert.Some? <==> d.view.Redirect?
    ensures d.alert.Some? ==> d.alert.value == SigninAlert
  {
    if !isLoggedIn then Decision(Redirect(SigninPath(kitchenId)), Some(SigninAlert))
    else Decision(Children(children), None)
  }

  /** Whether the children render depends on the login flag alone; the
      kitchen only chooses where a redirect goes. */
  lemma DecisionIgnoresKitchen<C>(isLoggedIn: bool, k1: string, k2: string, children: C)
    ensures Guard(isLoggedIn, k1, children).view.Children? == Guard(isLoggedIn, k2, children).view.Children?
    ensures isLoggedIn ==> Guard(isLoggedIn, k1, children) == Guard(isLoggedIn, k2, children)
  {
  }

  /** Different kitchens redirect to different sign-in pages. */
  lemma SigninPathInjective(k1: string, k2: string)
    ensures SigninPath(k1) == SigninPath(k2) <==> k1 == k2
  {
    if SigninPath(k1) == SigninPath(k2) {
      var p := SigninPath(k1);
      assert k1 == p[1..|p| - 7] == k2;
    }
  }
}
