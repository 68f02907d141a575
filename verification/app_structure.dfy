/**
 * The app shell's gate: from the session's verification state and the current path,
 * where (if anywhere) to redirect, and which layout to render meanwhile. The router
 * call is returned as a decision instead of being made.
 */
module AppStructure {
  import opened Wrappers

  const VerifyPhonePath := "/verify/phone"
  const VerifyOtpPath := "/verify/otp"
  const SignInPath := "/auth/signin"
  const HomePath := "/"

  /** The pages an unverified visitor may stay on. */
  const AuthRoutes: seq<string> := [VerifyPhonePath, VerifyOtpPath, SignInPath]

  predicate IsAuthRoute(pathname: string) {
    pathname in AuthRoutes
  }

  /** The layouts the shell can render. */
  datatype Layout =
    | LoadingSpinner        // the state is still being read from storage
    | BarePage              // the page alone, without header and navigation
    | RedirectingNotice     // spinner with "Redirecting to verification..."
    | FullLayout            // header, the page, bottom navigation
    | LoadingFallback       // "Loading application..."

  /** The redirect effect: the target of `router.replace`, if it is called. */
  function Redirect(isVerified: Option<bool>, pathname: string): (r: Option<string>)
    ensures r.Some? ==> isVerified.Some?
    ensures r.Some? ==> (r.value == HomePath || r.value == VerifyPhonePath) && r.value != pathname
  {
    if isVerified.None? then None
    else
      var isAuthRoute := IsAuthRoute(pathname);
      if !isVerified.value && !isAuthRoute then Some(VerifyPhonePath)
      else if isVerified.value then
        if pathname == VerifyPhonePath || pathname == VerifyOtpPath || pathname == SignInPath
        then Some(HomePath) else None
      else None
  }

  /** The render path, branch by branch, ending with the component's safety-net fallback. */
  function ChooseLayout(isVerified: Option<bool>, pathname: string): (r: Layout)
    ensures r == LoadingSpinner <==> isVerified.None?
    ensures r != LoadingFallback
  {
    if isVerified.None? then LoadingSpinner
    else
      var verified := isVerified.value;
      var isAuthPageLayout := IsAuthRoute(pathname);
      if isAuthPageLayout && !verified then BarePage
      else if !verified && !isAuthPageLayout then RedirectingNotice
      else if verified then
        if pathname != VerifyPhonePath && pathname != VerifyOtpPath && pathname != SignInPath
        then FullLayout else BarePage
      else LoadingFallback
  }

  /** While loading there is no redirect and only the spinner is shown. */
  lemma WhileLoading(pathname: string)
    ensures Redirect(None, pathname) == None && ChooseLayout(None, pathname) == LoadingSpinner
  {
  }

  /** Unverified outside the auth pages: sent to the phone page, with a notice meanwhile. */
  lemma UnverifiedOutsideAuthRoutes(pathname: string)
    requires !IsAuthRoute(pathname)
    ensures Redirect(Some(false), pathname) == Some(VerifyPhonePath)
    ensures ChooseLayout(Some(false), pathname) == RedirectingNotice
  {
  }

  /** Unverified on an auth page: stays, and the page renders without the app chrome. */
  lemma UnverifiedOnAuthRoute(pathname: string)
    requires IsAuthRoute(pathname)
    ensures Redirect(Some(false), pathname) == None
    ensures ChooseLayout(Some(false), pathname) == BarePage
  {
  }

  /** Verified on an auth page: sent home. */
  lemma VerifiedOnAuthRoute(pathname: string)
    requires IsAuthRoute(pathname)
    ensures Redirect(Some(true), pathname) == Some(HomePath)
    ensures ChooseLayout(Some(true), pathname) == BarePage
  {
  }

  /** Verified anywhere else: stays, with the full layout. */
  lemma VerifiedElsewhere(pathname: string)
    requires !IsAuthRoute(pathname)
    ensures Redirect(Some(true), pathname) == None
    ensures ChooseLayout(Some(true), pathname) == FullLayout
  {
  }

  /** Redirects settle: for the same verification state, a redirect target is never redirected again. */
  lemma RedirectIsStable(isVerified: Option<bool>, pathname: string)
    requires Redirect(isVerified, pathname).Some?
    ensures Redirect(isVerified, Redirect(isVerified, pathname).value) == None
  {
  }

  /**
   * The layout is the full one exactly when the visitor is verified and on no auth page,
   * and the final fallback is never reached.
   */
  lemma LayoutCases(isVerified: Option<bool>, pathname: string)
    ensures ChooseLayout(isVerified, pathname) == FullLayout <==> isVerified == Some(true) && !IsAuthRoute(pathname)
    ensures ChooseLayout(isVerified, pathname) != LoadingFallback
  {
  }
}
