/** `middleware.ts`: the access decision made before a page or API route
    runs. */
module Middleware {

  datatype Decision = Pass | RedirectTo(location: string) | Unauthorized

  const WebhookPath := "/api/webhooks/stripe"

  /** `config.matcher`: `/dashboard/:path*` and `/api/:path*`. */
  predicate InScope(path: string)
    ensures "/dashboard/" <= path || "/api/" <= path ==> InScope(path)
    ensures InScope(path) ==> "/dashboard" <= path || "/api" <= path
    // a pattern covers whole segments: `/dashboardx` and `/apix` are outside
    ensures InScope(path) && "/dashboard" <= path ==> |path| == 10 || path[10] == '/'
    ensures InScope(path) && "/api" <= path ==> |path| == 4 || path[4] == '/'
  {
    assert "/dashboard/" <= path ==> path[10] == '/';
    assert "/api/" <= path ==> path[4] == '/';
    assert "/dashboard" <= path ==> path[1] == 'd';
    || path == "/dashboard" || "/dashboard/" <= path
    || path == "/api" || "/api/" <= path
  }

  /** The decision of lines 57-71 for a path and whether a user is signed in. */
  function Decide(path: string, signedIn: bool): Decision {
    if "/dashboard" <= path && !signedIn then RedirectTo("/login")
    else if "/api/" <= path && !signedIn && path != "/api/auth" then Unauthorized
    else Pass
  }

  /** What a request meets: the decision where the matcher applies,
      otherwise nothing. */
  function Guard(path: string, signedIn: bool): (d: Decision)
    ensures signedIn ==> d == Pass
    ensures d == RedirectTo("/login") <==> InScope(path) && "/dashboard" <= path && !signedIn
    ensures d == Unauthorized <==> InScope(path) && "/api/" <= path && path != "/api/auth" && !signedIn
    ensures d.Pass? || d == RedirectTo("/login") || d == Unauthorized
  {
    assert "/dashboard" <= path ==> path[1] == 'd';
    if InScope(path) then Decide(path, signedIn) else Pass
  }

  /** `/api/auth` is reachable without a session. */
  lemma AuthRouteIsPublic(signedIn: bool)
    ensures Guard("/api/auth", signedIn) == Pass
  {
  }

  /** As written, the Stripe webhook route is refused: Stripe's servers send
      no session cookie, so every delivery is answered 401 before the
      handler runs. */
  lemma WebhookRefusedWithoutSession()
    ensures Guard(WebhookPath, false) == Unauthorized
  {
    assert "/api/" <= WebhookPath;
  }

  /** The guard with the webhook route exempt, as the payment flow needs. */
  function GuardExemptingWebhook(path: string, signedIn: bool): (d: Decision)
    ensures path == WebhookPath ==> d == Pass
    ensures path != WebhookPath ==> d == Guard(path, signedIn)
  {
    if path == WebhookPath then Pass else Guard(path, signedIn)
  }

  /** With the exemption, every delivery reaches the handler, and every
      other path is still protected as before; in particular each API
      route other than `/api/auth` and the webhook still needs a session. */
  lemma ExemptionOnlyOpensWebhook(path: string)
    ensures GuardExemptingWebhook(WebhookPath, false) == Pass
    ensures "/api/" <= path && path != "/api/auth" && path != WebhookPath ==>
      GuardExemptingWebhook(path, false) == Unauthorized
  {
    assert "/api/" <= WebhookPath;
  }
}
