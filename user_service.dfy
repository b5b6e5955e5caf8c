/** Sandbox identities (`User`): an id, either given or eight random hex
    digits, the e-mail derived from it, and the Flask session that
    remembers both. `random.choice` is an input: `rand(i)` is the index,
    into the alphabet, of the `i`-th draw. The same class appears twice in
    the sources, in `services/user_service.py` and in `models.py`; it is
    modelled once. */
module Users {
  import opened Common

  const ALPHABET: string := "1234567890abcdef"
  const EMAIL_DOMAIN: string := "@sandbox.com"
  const ID_LENGTH: nat := 8

  /** One `random.choice` over the 16-letter alphabet. */
  type Draw = i: int | 0 <= i < 16

  datatype User = User(userId: string, email: string)

  predicate IsGeneratedId(id: string) {
    |id| == ID_LENGTH && forall i :: 0 <= i < |id| ==> id[i] in ALPHABET
  }

  /** `_generate_random_id()`: the first eight draws, as letters. */
  function RandomId(rand: nat -> Draw): (id: string)
    ensures IsGeneratedId(id)
    ensures forall i :: 0 <= i < ID_LENGTH ==> id[i] == ALPHABET[rand(i)]
  {
    seq(ID_LENGTH, i requires 0 <= i => ALPHABET[rand(i)])
  }

  /** `User(user_id)`: a given non-empty id is kept, an absent or empty one
      (both falsy) is replaced by a random one; the e-mail follows the
      id. */
  function NewUser(given: Option<string>, rand: nat -> Draw): (u: User)
    ensures u.email == u.userId + EMAIL_DOMAIN
    ensures given.Some? && given.value != "" ==> u.userId == given.value
    ensures given.None? || given.value == "" ==> u.userId == RandomId(rand)
    ensures u.userId != ""
  {
    var id := if given.Some? && given.value != "" then given.value else RandomId(rand);
    User(id, id + EMAIL_DOMAIN)
  }

  /** The session's `user_id`, when it is there and non-empty. */
  function SessionId(session: map<string, string>): Option<string> {
    if "user_id" in session && session["user_id"] != "" then Some(session["user_id"]) else None
  }

  /** `User.from_session()`. */
  function FromSession(session: map<string, string>): (r: Option<User>)
    ensures r.None? <==> SessionId(session).None?
    ensures r.Some? ==> r.value.userId == session["user_id"]
    ensures r.Some? ==> r.value.email == session["user_id"] + EMAIL_DOMAIN
  {
    var id := SessionId(session);
    if id.Some? then Some(User(id.value, id.value + EMAIL_DOMAIN)) else None
  }

  /** The session after `login()`: exactly the two keys it writes. */
  function LoggedIn(session: map<string, string>, u: User): map<string, string> {
    session["user_id" := u.userId]["user_email" := u.email]
  }

  /** `login()` then `from_session()` gives the same user back, whatever
      the session held before, and no other session key changes. */
  lemma LoginRoundTrip(session: map<string, string>, u: User)
    requires u.userId != "" && u.email == u.userId + EMAIL_DOMAIN
    ensures FromSession(LoggedIn(session, u)) == Some(u)
    ensures forall k :: k in session && k != "user_id" && k != "user_email" ==>
              k in LoggedIn(session, u) && LoggedIn(session, u)[k] == session[k]
  {
    assert LoggedIn(session, u)["user_id"] == u.userId;
  }

  /** The Flask session cookie of one browser. */
  class Session {
    var data: map<string, string>

    constructor (data: map<string, string>)
      ensures this.data == data
    {
      this.data := data;
    }

    method Login(u: User)
      modifies this
      ensures data == LoggedIn(old(data), u)
    {
      data := data["user_id" := u.userId];
      data := data["user_email" := u.email];
    }
  }
}
