/** The GitHub sign-in handler and the two session handlers. The GitHub
    service is outside the model: what it answers for a code is passed in. */
module AuthController {
  import opened Wrappers
  import opened Text
  import opened Http

  /** The user record the GitHub service returns; only `_id` and `login`
      are read here. */
  datatype User = User(id: Option<string>, login: string)

  /** `user._id` is truthy. */
  predicate HasId(u: User) {
    u.id.Some? && u.id.value != ""
  }

  function UserJson(u: User): Json {
    Object((if u.id.Some? then [("_id", Str(u.id.value))] else []) + [("login", Str(u.login))])
  }

  /** What `getGitHubUser(code)` did: threw with a message, or returned a
      user or nothing. */
  datatype GithubReply = Threw(message: string) | Returned(user: Option<User>)

  /** `req.body.code` is truthy. */
  predicate CodePresent(code: Option<string>) {
    code.Some? && code.value != ""
  }

  const MissingCode := Response(400, Object([("error", Str("Authorization code is missing")),
                                             ("details", Str("No authorization code received from GitHub"))]))

  /** The phrase the handler's own rejection starts with, which the
      classification recognises. */
  const InvalidUserPrefix := "Invalid user data"
  const ReceivedSuffix := " received from GitHub service"
  const InvalidUserData := InvalidUserPrefix + ReceivedSuffix

  /** The status and the `error` text of a failed sign-in, by the first of
      five substrings the thrown message contains. */
  function ClassifyAuthError(message: string): (r: (nat, string))
    ensures r.0 in {400, 500, 502}
    ensures Contains(message, "GitHub OAuth error") ==> r == (400, message)
    ensures (!Contains(message, "GitHub OAuth error") && Contains(message, "not configured")) ==>
      r == (500, "Server configuration error")
    ensures (!Contains(message, "GitHub OAuth error") && !Contains(message, "not configured")
             && Contains(message, "GitHub API error")) ==> r == (502, "GitHub API error - please try again")
    ensures (!Contains(message, "GitHub OAuth error") && !Contains(message, "not configured")
             && !Contains(message, "GitHub API error") && Contains(message, "Authentication service error")) ==>
      r == (500, "Database connection error - please try again")
    ensures (!Contains(message, "GitHub OAuth error") && !Contains(message, "not configured")
             && !Contains(message, "GitHub API error") && !Contains(message, "Authentication service error")
             && Contains(message, "Invalid user data")) ==> r == (400, "Authentication failed - invalid user data")
    ensures (!Contains(message, "GitHub OAuth error") && !Contains(message, "not configured")
             && !Contains(message, "GitHub API error") && !Contains(message, "Authentication service error")
             && !Contains(message, "Invalid user data")) ==> r == (500, "Authentication failed: " + message)
  {
    if Contains(message, "GitHub OAuth error") then (400, message)
    else if Contains(message, "not configured") then (500, "Server configuration error")
    else if Contains(message, "GitHub API error") then (502, "GitHub API error - please try again")
    else if Contains(message, "Authentication service error") then (500, "Database connection error - please try again")
    else if Contains(message, "Invalid user data") then (400, "Authentication failed - invalid user data")
    else (500, "Authentication failed: " + message)
  }

  /** A message that starts with "Invalid user data" and has no `O`, `g`
      or `A` after it matches only the fifth pattern. */
  lemma InvalidUserDataClassified(tail: string)
    requires 'O' !in tail && 'g' !in tail && 'A' !in tail
    ensures ClassifyAuthError(InvalidUserPrefix + tail) == (400, "Authentication failed - invalid user data")
  {
    var m := InvalidUserPrefix + tail;
    assert 'O' !in m && 'g' !in m && 'A' !in m;
    NotContainsWithoutChar(m, "GitHub OAuth error", 'O');
    NotContainsWithoutChar(m, "not configured", 'g');
    NotContainsWithoutChar(m, "GitHub API error", 'A');
    NotContainsWithoutChar(m, "Authentication service error", 'A');
    ContainsPrefix(InvalidUserPrefix, tail);
  }

  /** The handler's own rejection of a user without an id is a client
      error, 400. */
  lemma InvalidUserDataIsClientError()
    ensures ClassifyAuthError(InvalidUserData) == (400, "Authentication failed - invalid user data")
  {
    SuffixAvoidsPatterns();
    InvalidUserDataClassified(ReceivedSuffix);
  }

  /** The rest of the handler's message has none of the characters that
      would start an earlier pattern. */
  lemma SuffixAvoidsPatterns()
    ensures 'O' !in ReceivedSuffix && 'g' !in ReceivedSuffix && 'A' !in ReceivedSuffix
  {
  }

  /** The body of a failed sign-in: `details` carries the thrown message
      only when `NODE_ENV` is "development" (an undefined member is dropped
      from the JSON). */
  function AuthFailure(message: string, nodeEnv: Option<string>): Response {
    var (status, error) := ClassifyAuthError(message);
    Response(status, Object([("success", Bool(false)), ("error", Str(error))]
                            + (if nodeEnv == Some("development") then [("details", Str(message))] else [])))
  }

  lemma DetailsOnlyInDevelopment(message: string, nodeEnv: Option<string>)
    ensures var m := AuthFailure(message, nodeEnv).body.members;
      && (Lookup(m, "details").Some? <==> nodeEnv == Some("development"))
      && (nodeEnv == Some("development") ==> Lookup(m, "details") == Some(Str(message)))
      && Lookup(m, "success") == Some(Bool(false))
      && Lookup(m, "error") == Some(Str(ClassifyAuthError(message).1))
  {
    var m := AuthFailure(message, nodeEnv).body.members;
    LookupAt(m, 0, "success");
    LookupAt(m, 1, "error");
    if nodeEnv == Some("development") {
      LookupAt(m, 2, "details");
    }
  }

  /** What a sign-in does to the session. */
  datatype SessionUpdate = Untouched | SignIn(user: User) | Clear

  /** The sign-in decision once a code was received: a user with an id
      signs in; a thrown error, a missing user or a user without an id
      clears the session and is classified. */
  function AuthOutcome(reply: GithubReply, nodeEnv: Option<string>): (r: (SessionUpdate, Response))
    ensures r.0.SignIn? <==> reply.Returned? && reply.user.Some? && HasId(reply.user.value)
    ensures r.0.SignIn? ==> r.0.user == reply.user.value && r.1.status == 200
    ensures !r.0.SignIn? ==> r.0 == Clear && r.1.status != 200
    ensures reply.Threw? ==> r == (Clear, AuthFailure(reply.message, nodeEnv))
    ensures (reply.Returned? && !(reply.user.Some? && HasId(reply.user.value))) ==>
      r == (Clear, AuthFailure(InvalidUserData, nodeEnv))
  {
    if reply.Returned? && reply.user.Some? && HasId(reply.user.value) then
      var u := reply.user.value;
      (SignIn(u), Response(200, Object([("success", Bool(true)), ("user", UserJson(u)),
                                        ("message", Str("Authentication successful"))])))
    else
      var message := if reply.Threw? then reply.message else InvalidUserData;
      (Clear, AuthFailure(message, nodeEnv))
  }

  /** A returned user without an id, or no user at all, is answered 400 like
      any other "Invalid user data" error. */
  lemma MissingIdRejected(reply: GithubReply, nodeEnv: Option<string>)
    requires reply.Returned? && (reply.user.None? || !HasId(reply.user.value))
    ensures AuthOutcome(reply, nodeEnv) == (Clear, AuthFailure(InvalidUserData, nodeEnv))
    ensures AuthOutcome(reply, nodeEnv).1.status == 400
  {
    InvalidUserDataIsClientError();
  }

  /** The session of one request. */
  class Session {
    var userId: Option<string>
    var user: Option<User>

    constructor ()
      ensures userId == None && user == None
    {
      userId := None;
      user := None;
    }

    /** Applying a sign-in decision. */
    method Apply(update: SessionUpdate)
      modifies this
      ensures update.Untouched? ==> userId == old(userId) && user == old(user)
      ensures update.SignIn? ==> userId == update.user.id && user == Some(update.user)
      ensures update.Clear? ==> userId == None && user == None
    {
      match update
      case Untouched =>
      case SignIn(u) =>
        userId := u.id;
        user := Some(u);
      case Clear =>
        userId := None;
        user := None;
    }

    /** `githubAuth`: without a code it answers 400 and the GitHub service
        is not consulted, so its reply does not matter. */
    method GithubAuth(code: Option<string>, reply: GithubReply, nodeEnv: Option<string>) returns (res: Response)
      modifies this
      ensures !CodePresent(code) ==> res == MissingCode && userId == old(userId) && user == old(user)
      ensures CodePresent(code) ==> res == AuthOutcome(reply, nodeEnv).1
      ensures (CodePresent(code) && AuthOutcome(reply, nodeEnv).0.SignIn?) ==>
        userId == reply.user.value.id && user == reply.user
      ensures (CodePresent(code) && !AuthOutcome(reply, nodeEnv).0.SignIn?) ==> userId == None && user == None
    {
      if !CodePresent(code) {
        return MissingCode;
      }
      var (update, response) := AuthOutcome(reply, nodeEnv);
      Apply(update);
      res := response;
    }

    /** `getCurrentUser`. */
    function CurrentUser(): (res: Response)
      reads this
      ensures res.status == 401 <==> user.None?
      ensures res.status != 401 ==> res.status == 200
    {
      if user.None? then Response(401, Object([("authenticated", Bool(false)), ("user", Null)]))
      else Response(200, Object([("authenticated", Bool(true)), ("user", UserJson(user.value))]))
    }

    /** `logout`: destroying the session drops its user; a failed destroy
        answers 500 and leaves it. */
    method Logout(destroyError: Option<string>) returns (res: Response)
      modifies this
      ensures destroyError.Some? ==> res == Response(500, Object([("error", Str("Logout failed"))]))
                                     && userId == old(userId) && user == old(user)
      ensures destroyError.None? ==> res == Response(200, Object([("message", Str("Logged out successfully"))]))
                                     && userId == None && user == None
    {
      if destroyError.Some? {
        return Response(500, Object([("error", Str("Logout failed"))]));
      }
      userId := None;
      user := None;
      res := Response(200, Object([("message", Str("Logged out successfully"))]));
    }
  }

  /** After a successful sign-in the current-user handler reports the
      signed-in user; after a failed one or a logout it reports 401. */
  method SignInThenAsk(session: Session, code: Option<string>, reply: GithubReply, nodeEnv: Option<string>)
    returns (auth: Response, current: Response)
    modifies session
    ensures auth.status == 200 ==> reply.Returned? && reply.user.Some? && current == Response(200, Object([("authenticated", Bool(true)), ("user", UserJson(reply.user.value))]))
    ensures (CodePresent(code) && auth.status != 200) ==> current.status == 401
  {
    auth := session.GithubAuth(code, reply, nodeEnv);
    current := session.CurrentUser();
  }
}
