/**
 * The admin pages' login wrapper (src/components/admin/AdminLayout.tsx):
 * the token state (`token`, `role`, `isValidating`, `error`), the token
 * form's visibility and input, and the token kept in local storage. A
 * token check is a request whose answer arrives later: `BeginCheck`
 * starts it and `FinishCheck` applies the answer, so the state in between
 * is the one the page shows while it waits. The answer is the `outcome`
 * argument: the role the server reported, a rejection, or a thrown value.
 */
module AdminLayout {
  import opened Wrappers
  import opened Text
  import QueryClient

  /** What the token check's request came back with. */
  datatype Outcome =
    | Accepted(adminRole: Option<string>)  // `response.ok`, with `data.adminRole`
    | NotAccepted                          // any other status
    | Threw(error: QueryClient.Thrown)     // `fetch` or `response.json()` threw

  const InvalidTokenMessage := "유효하지 않은 토큰입니다."
  const CheckFailedMessage := "토큰 검증 실패"
  const RoleMessagePrefix := "권한이 부족합니다. 필요한 권한: "

  /** `allowedRoles.includes(role)`, or any role when no list is given. */
  predicate RoleAllowed(allowedRoles: Option<seq<string>>, role: Option<string>) {
    allowedRoles.None? || (role.Some? && role.value in allowedRoles.value)
  }

  /** The message a failed check leaves: a thrown `Error` gives its own message. */
  function FailureMessage(outcome: Outcome): (m: string)
    requires !outcome.Accepted?
    ensures outcome.NotAccepted? ==> m == InvalidTokenMessage
    ensures outcome.Threw? && outcome.error.ErrorObject? ==> m == outcome.error.message
    ensures outcome.Threw? && outcome.error.OtherValue? ==> m == CheckFailedMessage
  {
    if outcome.NotAccepted? then InvalidTokenMessage
    else if outcome.error.ErrorObject? then outcome.error.message
    else CheckFailedMessage
  }

  /** The dashboard link is offered to developers and project managers only. */
  predicate DashboardLink(role: Option<string>) {
    role == Some("developer") || role == Some("pm")
  }

  /** The admin navigation bar: the dashboard link and the role shown beside the logout button. */
  datatype Navigation = Navigation(dashboardLink: bool, role: Option<string>)

  /** What the page shows. */
  datatype Screen =
    | Empty                                                          // `renderTokenForm()` returned `null`
    | TokenForm(input: string, error: Option<string>, validating: bool)
    | Admin(navigation: Option<Navigation>)

  /** The page for a state, as the component's final `if` and its two render helpers decide it. */
  function ScreenOf(requireAuth: bool, showNavigation: bool, token: Option<string>, role: Option<string>,
                    showTokenForm: bool, tokenInput: string, error: Option<string>, isValidating: bool): (s: Screen)
    ensures s.Admin? <==> !(requireAuth && (!TruthyString(token) || showTokenForm))
    ensures s.TokenForm? <==> requireAuth && showTokenForm
    ensures s.Admin? ==> (s.navigation.Some? <==> showNavigation && TruthyString(token))
    ensures s.Admin? && s.navigation.Some? ==> (s.navigation.value.dashboardLink <==> DashboardLink(role))
  {
    if requireAuth && (!TruthyString(token) || showTokenForm) then
      if !showTokenForm then Empty else TokenForm(tokenInput, error, isValidating)
    else if !showNavigation || !TruthyString(token) then Admin(None)
    else Admin(Some(Navigation(DashboardLink(role), role)))
  }

  class Layout {
    const requireAuth: bool
    const allowedRoles: Option<seq<string>>
    const showNavigation: bool
    var token: Option<string>
    var role: Option<string>
    var isValidating: bool
    var error: Option<string>
    var tokenInput: string
    var showTokenForm: bool
    /** `localStorage['admin_token']`. */
    var storedToken: Option<string>
    /** The token whose check is under way. */
    var pending: Option<string>

    /**
     * A signed-in state holds an allowed role, has the form hidden and its
     * token stored; a check is under way only while signed out; and a page
     * that requires sign-in and is neither signed in nor checking shows
     * the form.
     */
    ghost predicate Valid()
      reads this
    {
      && (isValidating <==> pending.Some?)
      && (pending.Some? ==> pending.value != "")
      && (token.Some? ==> token.value != "" && RoleAllowed(allowedRoles, role) && !showTokenForm && storedToken == token)
      && (isValidating ==> token.None?)
      && (requireAuth && !isValidating && token.None? ==> showTokenForm)
    }

    function Screen(): Screen
      reads this
    {
      ScreenOf(requireAuth, showNavigation, token, role, showTokenForm, tokenInput, error, isValidating)
    }

    /**
     * The first render followed by the mount effect: a stored token is
     * checked; without one, a page that requires sign-in shows the form.
     */
    constructor (requireAuth: bool, allowedRoles: Option<seq<string>>, showNavigation: bool, storedToken: Option<string>)
      ensures Valid()
      ensures this.requireAuth == requireAuth && this.allowedRoles == allowedRoles && this.showNavigation == showNavigation
      ensures token.None? && role.None? && tokenInput == "" && this.storedToken == storedToken
      ensures TruthyString(storedToken) ==> isValidating && pending == storedToken && error.None? && !showTokenForm
      ensures !TruthyString(storedToken) ==> !isValidating && error.None? && showTokenForm == requireAuth
    {
      this.requireAuth := requireAuth;
      this.allowedRoles := allowedRoles;
      this.showNavigation := showNavigation;
      token := None;
      role := None;
      error := None;
      tokenInput := "";
      this.storedToken := storedToken;
      if TruthyString(storedToken) {
        isValidating := true;
        pending := storedToken;
        showTokenForm := false;
      } else {
        isValidating := false;
        pending := None;
        showTokenForm := requireAuth;
      }
    }

    /** The first half of `validateToken(t)`: checking starts and the old error is cleared. */
    method BeginCheck(t: string)
      requires Valid() && !isValidating && token.None? && t != ""
      modifies this
      ensures Valid()
      ensures isValidating && pending == Some(t) && error.None?
      ensures token == old(token) && role == old(role) && showTokenForm == old(showTokenForm)
      ensures tokenInput == old(tokenInput) && storedToken == old(storedToken)
    {
      isValidating := true;
      error := None;
      pending := Some(t);
    }

    /**
     * The second half of `validateToken(t)`. An accepted token with an
     * allowed role signs in: token and role set, error cleared, form hidden
     * and emptied, token stored. An accepted token with a role outside the
     * list leaves the role message, and shows the form when sign-in is
     * required so that the message can be read. Any other outcome leaves
     * its message, forgets the stored token and shows the form when
     * sign-in is required.
     */
    method FinishCheck(outcome: Outcome)
      requires Valid() && isValidating
      modifies this
      ensures Valid()
      ensures !isValidating && pending.None?
      ensures outcome.Accepted? && RoleAllowed(allowedRoles, outcome.adminRole) ==>
        (&& token == old(pending) && role == outcome.adminRole && error.None?
         && !showTokenForm && tokenInput == "" && storedToken == old(pending))
      ensures outcome.Accepted? && !RoleAllowed(allowedRoles, outcome.adminRole) ==>
        (&& token == old(token) && role == old(role) && error == Some(RoleMessagePrefix + Join(allowedRoles.value, ", "))
         && showTokenForm == (old(showTokenForm) || requireAuth) && tokenInput == old(tokenInput) && storedToken == old(storedToken))
      ensures !outcome.Accepted? ==>
        (&& token == old(token) && role == old(role) && error == Some(FailureMessage(outcome))
         && showTokenForm == (old(showTokenForm) || requireAuth) && tokenInput == old(tokenInput) && storedToken.None?)
    {
      var t := pending.value;
      isValidating := false;
      pending := None;
      match outcome
      case Accepted(adminRole) =>
        if !RoleAllowed(allowedRoles, adminRole) {
          error := Some(RoleMessagePrefix + Join(allowedRoles.value, ", "));
          if requireAuth {
            showTokenForm := true;
          }
          return;
        }
        token := Some(t);
        role := adminRole;
        error := None;
        storedToken := Some(t);
        showTokenForm := false;
        tokenInput := "";
      case _ =>
        error := Some(FailureMessage(outcome));
        storedToken := None;
        if requireAuth {
          showTokenForm := true;
        }
    }

    /**
     * The second half of `validateToken(t)` as the component has it: on a
     * role outside the list only the message changes, and the form stays
     * as it was.
     */
    method FinishCheckAsWritten(outcome: Outcome)
      requires isValidating && pending.Some?
      modifies this
      ensures !isValidating && pending.None?
      ensures outcome.Accepted? && !RoleAllowed(allowedRoles, outcome.adminRole) ==>
        (&& token == old(token) && role == old(role) && error == Some(RoleMessagePrefix + Join(allowedRoles.value, ", "))
         && showTokenForm == old(showTokenForm) && tokenInput == old(tokenInput) && storedToken == old(storedToken))
      ensures outcome.Accepted? && RoleAllowed(allowedRoles, outcome.adminRole) ==>
        (&& token == old(pending) && role == outcome.adminRole && error.None?
         && !showTokenForm && tokenInput == "" && storedToken == old(pending))
      ensures !outcome.Accepted? ==>
        (&& token == old(token) && role == old(role) && error == Some(FailureMessage(outcome))
         && showTokenForm == (old(showTokenForm) || requireAuth) && tokenInput == old(tokenInput) && storedToken.None?)
    {
      var t := pending.value;
      isValidating := false;
      pending := None;
      match outcome
      case Accepted(adminRole) =>
        if !RoleAllowed(allowedRoles, adminRole) {
          error := Some(RoleMessagePrefix + Join(allowedRoles.value, ", "));
          return;
        }
        token := Some(t);
        role := adminRole;
        error := None;
        storedToken := Some(t);
        showTokenForm := false;
        tokenInput := "";
      case _ =>
        error := Some(FailureMessage(outcome));
        storedToken := None;
        if requireAuth {
          showTokenForm := true;
        }
    }

    /** The input's `onChange`. */
    method Type(text: string)
      requires Valid()
      modifies this
      ensures Valid()
      ensures tokenInput == text
      ensures token == old(token) && role == old(role) && error == old(error) && isValidating == old(isValidating)
      ensures showTokenForm == old(showTokenForm) && storedToken == old(storedToken) && pending == old(pending)
    {
      tokenInput := text;
    }

    /**
     * `handleTokenSubmit`, reachable only from the form while no check is
     * under way (the button and the input are disabled during one): only a
     * non-blank input starts a check, with the trimmed text.
     */
    method Submit()
      requires Valid() && Screen().TokenForm? && !isValidating
      modifies this
      ensures Valid()
      ensures Trim(old(tokenInput)) != "" ==> isValidating && pending == Some(Trim(old(tokenInput))) && error.None?
      ensures Trim(old(tokenInput)) == "" ==> !isValidating && error == old(error)
      ensures token == old(token) && role == old(role) && showTokenForm == old(showTokenForm)
      ensures tokenInput == old(tokenInput) && storedToken == old(storedToken)
    {
      var t := Trim(tokenInput);
      if t != "" {
        BeginCheck(t);
      }
    }

    /** `handleLogout`: back to the signed-out state, nothing stored, the form shown. */
    method Logout()
      requires Valid() && !isValidating
      modifies this
      ensures Valid()
      ensures token.None? && role.None? && !isValidating && error.None?
      ensures storedToken.None? && showTokenForm && tokenInput == old(tokenInput)
    {
      token := None;
      role := None;
      isValidating := false;
      error := None;
      storedToken := None;
      showTokenForm := true;
    }
  }

  /**
   * A stored token whose role is outside the list, as written: the page
   * that requires sign-in ends up showing nothing, neither the form nor
   * the message it would hold.
   */
  method DisallowedStoredTokenAsWritten(t: string, role: string, allowed: seq<string>) returns (screen: Screen)
    requires t != "" && role !in allowed
    ensures screen == Empty
  {
    var layout := new Layout(true, Some(allowed), true, Some(t));
    layout.FinishCheckAsWritten(Accepted(Some(role)));
    screen := layout.Screen();
  }

  /** The same start with the corrected check: the form is shown with the role message. */
  method DisallowedStoredToken(t: string, role: string, allowed: seq<string>) returns (screen: Screen)
    requires t != "" && role !in allowed
    ensures screen == TokenForm("", Some(RoleMessagePrefix + Join(allowed, ", ")), false)
  {
    var layout := new Layout(true, Some(allowed), true, Some(t));
    layout.FinishCheck(Accepted(Some(role)));
    screen := layout.Screen();
  }

  /** Signing in with an allowed role from the form leads to the admin page, with the dashboard link for developers and project managers. */
  method SignIn(input: string, role: string, allowed: Option<seq<string>>) returns (screen: Screen)
    requires Trim(input) != "" && RoleAllowed(allowed, Some(role))
    ensures screen == Admin(Some(Navigation(role == "developer" || role == "pm", Some(role))))
  {
    var layout := new Layout(true, allowed, true, None);
    layout.Type(input);
    assert layout.showTokenForm && !layout.isValidating && layout.tokenInput == input;
    assert layout.Screen().TokenForm?;
    layout.Submit();
    assert layout.isValidating && layout.pending == Some(Trim(input));
    layout.FinishCheck(Accepted(Some(role)));
    assert layout.token == Some(Trim(input)) && layout.role == Some(role) && !layout.showTokenForm;
    screen := layout.Screen();
  }

  /** A blank input never starts a check: the form stays as it was. */
  method BlankSubmit(blank: string) returns (screen: Screen)
    requires AllWhitespace(blank)
    ensures screen == TokenForm(blank, None, false)
  {
    var layout := new Layout(true, None, true, None);
    layout.Type(blank);
    layout.Submit();
    screen := layout.Screen();
  }
}
