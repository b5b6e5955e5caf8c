/** `auth()`: which user a request acts for. A non-empty `user_id` URL
    parameter wins; otherwise a session without a user id gets a fresh
    random user; otherwise the session's user is recognised. Whoever it is
    is then logged in to the session. */
module Auth {
  import opened Common
  import opened Users

  /** The non-empty `user_id` URL parameter, if any. */
  function ParamId(args: map<string, string>): Option<string> {
    if "user_id" in args && args["user_id"] != "" then Some(args["user_id"]) else None
  }

  /** The precedence choice of `auth()`, before `login()`. */
  function ChooseUser(args: map<string, string>, session: map<string, string>, rand: nat -> Draw): (u: User)
    ensures ParamId(args).Some? ==> u.userId == ParamId(args).value
    ensures ParamId(args).None? && SessionId(session).None? ==> u.userId == RandomId(rand)
    ensures ParamId(args).None? && SessionId(session).Some? ==> Some(u) == FromSession(session)
    ensures u.userId != "" && u.email == u.userId + EMAIL_DOMAIN
  {
    if ParamId(args).Some? then NewUser(ParamId(args), rand)
    else if SessionId(session).None? then NewUser(None, rand)
    else FromSession(session).value
  }

  /** Once a request is authenticated, later requests without a URL
      parameter act for the same user, whatever their random draws. */
  lemma AuthIsSticky(args: map<string, string>, session: map<string, string>, rand: nat -> Draw,
                     later: map<string, string>, rand2: nat -> Draw)
    requires ParamId(later).None?
    ensures var u := ChooseUser(args, session, rand);
            ChooseUser(later, LoggedIn(session, u), rand2) == u
  {
    var u := ChooseUser(args, session, rand);
    LoginRoundTrip(session, u);
  }

  /** `auth()`: choose, log in, return the user (never `None`). */
  method Authenticate(args: map<string, string>, session: Session, rand: nat -> Draw) returns (u: User)
    modifies session
    ensures u == ChooseUser(args, old(session.data), rand)
    ensures session.data == LoggedIn(old(session.data), u)
  {
    if ParamId(args).Some? {
      u := NewUser(Some(args["user_id"]), rand);
    } else if SessionId(session.data).None? {
      u := NewUser(None, rand);
    } else {
      var s := FromSession(session.data);
      u := s.value;
    }
    session.Login(u);
  }
}
