/** The navigation guard run on every page load: which page the path names,
    which pages are public and which protected, and where a visitor with a
    given session state is sent. */
module Navigation {
  import opened JsValues
  import opened JsStrings

  const Landing := "index.html"
  const Dashboard := "dashboard.html"
  const ProfileSetup := "profile-setup.html"

  /** Reachable without logging in; `""` is the site root. */
  const PublicPages: seq<string> := [Landing, "register.html", "login.html", ""]

  /** Reachable only when logged in. */
  const ProtectedPages: seq<string> := [Dashboard, "tasks.html", "profile.html", ProfileSetup]

  /** `path.split('/').pop()`: the text after the last `/` of the path, or
      the whole path when it has no `/`. */
  function Page(path: string): (page: string)
    ensures '/' !in page
    ensures |page| <= |path| && path[|path| - |page|..] == page
    ensures |page| < |path| ==> path[|path| - |page| - 1] == '/'
  {
    var parts := Split(path, '/');
    SplitLast(path, '/');
    parts[|parts| - 1]
  }

  /** A path that ends in `/` names the site root, which is public. */
  lemma TrailingSlashIsRoot(path: string)
    requires |path| > 0 && path[|path| - 1] == '/'
    ensures Page(path) == "" && Page(path) in PublicPages
  {
  }

  /** A path without `/` is its own page name. */
  lemma PlainNameIsPage(path: string)
    requires '/' !in path
    ensures Page(path) == path
  {
  }

  /** The targets of the four guard rules that fire, in the order the code
      tests them: logged in on a public page; logged out on a protected page;
      logged in without a profile on the dashboard; logged in with a profile
      on the profile-setup page. */
  function FiredTargets(loggedIn: bool, setupDone: bool, page: string): (fired: seq<string>)
    ensures forall i :: 0 <= i < |fired| ==> fired[i] in [Dashboard, ProfileSetup, Landing]
    ensures page !in PublicPages && page !in ProtectedPages ==> fired == []
    ensures loggedIn ==> Landing !in fired
    ensures !loggedIn ==> (fired != [] <==> page in ProtectedPages)
  {
    (if loggedIn && page in PublicPages then [if setupDone then Dashboard else ProfileSetup] else [])
    + (if !loggedIn && page in ProtectedPages then [Landing] else [])
    + (if loggedIn && !setupDone && page == Dashboard then [ProfileSetup] else [])
    + (if loggedIn && setupDone && page == ProfileSetup then [Dashboard] else [])
  }

  /** The guard as a decision table: a logged-in visitor is sent to their
      home page (the dashboard once the profile is set up, the setup page
      before) from any public page and from the other one of those two; a
      logged-out visitor is sent from any protected page to the landing page. */
  function Redirect(loggedIn: bool, setupDone: bool, page: string): (target: Option<string>)
    ensures target.Some? ==> target.value in [Dashboard, ProfileSetup, Landing]
    ensures page !in PublicPages && page !in ProtectedPages ==> target == None
    ensures !loggedIn ==> (target.Some? <==> page in ProtectedPages)
    ensures loggedIn ==> target != Some(Landing)
  {
    if loggedIn then
      var home := if setupDone then Dashboard else ProfileSetup;
      if page in PublicPages || (page in [Dashboard, ProfileSetup] && page != home) then Some(home) else None
    else if page in ProtectedPages then Some(Landing)
    else None
  }

  /** At most one rule fires, and the one that fires is the decision table's
      target; so the code's "last assignment wins" and "first matching rule
      wins" agree. */
  lemma AtMostOneRuleFires(loggedIn: bool, setupDone: bool, page: string)
    ensures |FiredTargets(loggedIn, setupDone, page)| <= 1
    ensures FiredTargets(loggedIn, setupDone, page) ==
              match Redirect(loggedIn, setupDone, page)
              case None => []
              case Some(target) => [target]
  {
  }

  /** Rule by rule: each rule that fires names the decision table's target,
      no rule fires exactly when the table gives none, and a later rule
      never fires after an earlier one. */
  lemma RuleByRule(loggedIn: bool, setupDone: bool, page: string)
    ensures loggedIn && page in PublicPages ==>
              Redirect(loggedIn, setupDone, page) == Some(if setupDone then Dashboard else ProfileSetup)
              && page != Dashboard && page != ProfileSetup
    ensures !loggedIn && page in ProtectedPages ==> Redirect(loggedIn, setupDone, page) == Some(Landing)
    ensures loggedIn && !setupDone && page == Dashboard ==> Redirect(loggedIn, setupDone, page) == Some(ProfileSetup)
    ensures loggedIn && setupDone && page == ProfileSetup ==> Redirect(loggedIn, setupDone, page) == Some(Dashboard)
    ensures !(loggedIn && page in PublicPages) && !(!loggedIn && page in ProtectedPages)
            && !(loggedIn && !setupDone && page == Dashboard) && !(loggedIn && setupDone && page == ProfileSetup) ==>
              Redirect(loggedIn, setupDone, page) == None
  {
  }

  /** Following a redirect never redirects again: the target page is
      acceptable for the session state that led there. */
  lemma NoRedirectLoop(loggedIn: bool, setupDone: bool, page: string)
    requires Redirect(loggedIn, setupDone, page).Some?
    ensures Redirect(loggedIn, setupDone, Redirect(loggedIn, setupDone, page).value) == None
  {
  }
}
