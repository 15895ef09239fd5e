/**
 * auth/login.php: a logged-in visitor is sent home at once; otherwise a posted form is
 * checked one field at a time, the subscriber lookup runs, and on success the visitor is
 * sent to the requested page, made relative to the auth/ directory.
 */
module Login {
  import opened Php
  import Csrf

  const InvalidForm := "Invalid form submission. Please refresh and try again."
  const EmailRequired := "Email is required."
  const PhoneRequired := "Phone number is required."
  const LoginFailed := "Unable to log in. Please check your email and phone number."
  const Home := "../index.php"

  /** A location the page leaves alone: one that already climbs out of auth/ or starts at the root. */
  predicate IsAnchored(p: string)
  {
    StartsWith(p, "../") || StartsWith(p, "/")
  }

  /** The redirect target after a successful login, as one function of `$redirectTo`. */
  function NormalizeRedirect(redirectTo: string): (r: string)
    ensures IsAnchored(r)
    ensures FalsyString(redirectTo) ==> r == Home
    ensures IsAnchored(redirectTo) ==> r == redirectTo
    ensures !FalsyString(redirectTo) && !IsAnchored(redirectTo) ==> r == "../" + redirectTo
  {
    var path := if FalsyString(redirectTo) then Home else redirectTo;
    assert Home[..3] == "../";
    assert FalsyString(redirectTo) ==> !IsAnchored(redirectTo) by {
      if redirectTo == "0" {
        assert redirectTo[..1][0] == '0';
      }
    }
    if IsAnchored(path) then path
    else
      assert ("../" + path)[..3] == "../";
      "../" + path
  }

  /** `$redirectPath` built by the page's reassignments. */
  method RedirectPath(redirectTo: string) returns (redirectPath: string)
    ensures redirectPath == NormalizeRedirect(redirectTo)
  {
    redirectPath := if FalsyString(redirectTo) then Home else redirectTo;
    if !StartsWith(redirectPath, "../") && !StartsWith(redirectPath, "/") {
      redirectPath := "../" + redirectPath;
    }
  }

  /** Normalising an already normalised target changes nothing. */
  lemma NormalizeRedirectIdempotent(redirectTo: string)
    ensures NormalizeRedirect(NormalizeRedirect(redirectTo)) == NormalizeRedirect(redirectTo)
  {
    var r := NormalizeRedirect(redirectTo);
    assert !FalsyString(r) by {
      assert |r| >= 1 && (r[0] == '.' || r[0] == '/');
    }
  }

  /** What login_user() answered: success, or a failure with an optional message. */
  datatype Attempt = Succeeded | Failed(error: Option<string>)

  /** The page's result: a redirect, or the form again with its errors. */
  datatype Outcome = Redirect(location: string) | Form(errors: seq<string>)

  /**
   * auth/login.php. `attempt` is what login_user() answers when it is called; `called`
   * tells whether the page called it.
   */
  method Handle(csrf: Csrf.TokenStore, loggedIn: bool, isPost: bool, redirectGet: Option<string>,
                token: Option<string>, emailPost: Option<string>, phonePost: Option<string>, attempt: Attempt)
    returns (outcome: Outcome, called: bool)
    modifies csrf
    ensures csrf.tokens == if !loggedIn && isPost && Csrf.Accepts(old(csrf.tokens), "login_form", token)
                           then Csrf.Consume(old(csrf.tokens), "login_form", token.value) else old(csrf.tokens)
    ensures loggedIn ==> outcome == Redirect(Home) && !called && csrf.tokens == old(csrf.tokens)
    ensures !loggedIn && !isPost ==> outcome == Form([]) && !called && csrf.tokens == old(csrf.tokens)
    ensures !loggedIn && isPost && !Csrf.Accepts(old(csrf.tokens), "login_form", token) ==>
              outcome == Form([InvalidForm]) && !called
    ensures !loggedIn && isPost && Csrf.Accepts(old(csrf.tokens), "login_form", token) ==>
              CallsLogin(emailPost, phonePost, called)
    ensures called && attempt.Succeeded? ==>
              outcome == Redirect(NormalizeRedirect(Sanitize(if redirectGet.Some? then redirectGet.value else "index.php")))
    ensures called && attempt.Failed? ==>
              outcome == Form([if attempt.error.Some? then attempt.error.value else LoginFailed])
    ensures outcome.Redirect? ==> IsAnchored(outcome.location)
  {
    called := false;
    if loggedIn {
      return Redirect(Home), called;
    }
    var redirectTo := Sanitize(if redirectGet.Some? then redirectGet.value else "index.php");
    if isPost {
      outcome, called := Submit(csrf, token, emailPost, phonePost, attempt, redirectTo);
    } else {
      outcome := Form([]);
    }
  }

  /** Whether login_user() is called on a valid form: only when the email and the phone are both present. */
  predicate CallsLogin(emailPost: Option<string>, phonePost: Option<string>, called: bool)
  {
    var email := Sanitize(if emailPost.Some? then emailPost.value else "");
    var phone := Sanitize(if phonePost.Some? then phonePost.value else "");
    called <==> email != "" && phone != ""
  }

  /** The POST branch: the token, then the email and phone one at a time, then login_user(). */
  method Submit(csrf: Csrf.TokenStore, token: Option<string>, emailPost: Option<string>, phonePost: Option<string>,
                attempt: Attempt, redirectTo: string)
    returns (outcome: Outcome, called: bool)
    modifies csrf
    ensures csrf.tokens == if Csrf.Accepts(old(csrf.tokens), "login_form", token)
                           then Csrf.Consume(old(csrf.tokens), "login_form", token.value) else old(csrf.tokens)
    ensures !Csrf.Accepts(old(csrf.tokens), "login_form", token) ==> outcome == Form([InvalidForm]) && !called
    ensures Csrf.Accepts(old(csrf.tokens), "login_form", token) ==>
              var email := Sanitize(if emailPost.Some? then emailPost.value else "");
              var phone := Sanitize(if phonePost.Some? then phonePost.value else "");
              && (email == "" ==> outcome == Form([EmailRequired]))
              && (email != "" && phone == "" ==> outcome == Form([PhoneRequired]))
              && CallsLogin(emailPost, phonePost, called)
    ensures called && attempt.Succeeded? ==> outcome == Redirect(NormalizeRedirect(redirectTo))
    ensures called && attempt.Failed? ==>
              outcome == Form([if attempt.error.Some? then attempt.error.value else LoginFailed])
    ensures outcome.Redirect? ==> called && attempt.Succeeded?
  {
    called := false;
    var valid := csrf.Validate("login_form", token);
    if !valid {
      return Form([InvalidForm]), called;
    }
    var email := Sanitize(if emailPost.Some? then emailPost.value else "");
    var phone := Sanitize(if phonePost.Some? then phonePost.value else "");
    if email == "" {
      return Form([EmailRequired]), called;
    }
    if phone == "" {
      return Form([PhoneRequired]), called;
    }
    called := true;
    if attempt.Succeeded? {
      var redirectPath := RedirectPath(redirectTo);
      return Redirect(redirectPath), called;
    }
    outcome := Form([if attempt.error.Some? then attempt.error.value else LoginFailed]);
  }
}
