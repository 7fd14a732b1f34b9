/** The authentication commands (command/auth.go): register, login,
    logout, whoami and user. The lines typed at the prompts arrive as
    parameters; a password that could not be read is an error value. */
module AuthCommands {
  import opened Wrappers
  import opened Text
  import opened ApiTypes
  import opened Api
  import opened Sessions

  const UserUsage: string := "usage: user <userId>"

  /** What the user typed at the prompts: a name (username, or username or
      email for login), the password as read, and an email (register only). */
  datatype Credentials = Credentials(name: string, password: Result<string>, email: string)

  /** The session and client after a successful sign-in: the three session
      fields come from the response and the client sends its token. */
  function SignedIn(w: World, a: AuthResponse): (u: World)
    ensures u.session.authToken == a.token && u.session.currentUser == a.userId && u.session.username == a.username
    ensures u.wire.token == u.session.authToken
    ensures u.session.(authToken := w.session.authToken, currentUser := w.session.currentUser, username := w.session.username) == w.session
    ensures u.wire.(token := w.wire.token) == w.wire && u.clientVerbose == w.clientVerbose
  {
    w.(session := w.session.(authToken := a.token, currentUser := a.userId, username := a.username),
       wire := w.wire.(token := a.token))
  }

  function RegisterStep(w: World, c: Credentials): Step {
    var username := TrimSpace(c.name);
    if c.password.Err? then Step(w, Fail(c.password.message), Quiet)
    else
      var email := TrimSpace(c.email);
      var r := RegisterCall(w.wire, username, c.password.value, email);
      if r.result.Err? then Step(w.(wire := r.wire), Fail(r.result.message), Quiet)
      else Step(SignedIn(w.(wire := r.wire), r.result.value), Pass, Quiet)
  }

  function LoginStep(w: World, c: Credentials): Step {
    var identifier := TrimSpace(c.name);
    if c.password.Err? then Step(w, Fail(c.password.message), Quiet)
    else
      var r := LoginCall(w.wire, identifier, c.password.value);
      if r.result.Err? then Step(w.(wire := r.wire), Fail(r.result.message), Quiet)
      else Step(SignedIn(w.(wire := r.wire), r.result.value), Pass, Quiet)
  }

  function LogoutStep(w: World): Step {
    Step(w.(session := w.session.(authToken := "", currentUser := "", username := ""), wire := w.wire.(token := "")), Pass, Quiet)
  }

  function WhoamiStep(w: World): Step {
    if w.session.authToken == "" then Step(w, Pass, Quiet)
    else
      var r := CurrentUserCall(w.wire);
      Step(w.(wire := r.wire), if r.result.Err? then Fail(r.result.message) else Pass, Quiet)
  }

  function SetUserStep(w: World, args: seq<string>): Step {
    if |args| < 1 then Step(w, Fail(UserUsage), Quiet)
    else Step(w.(session := w.session.(currentUser := args[0])), Pass, Quiet)
  }

  /** Stores a successful sign-in in the session and the client. */
  method SignIn(s: Session, a: AuthResponse)
    modifies s, s.client
    ensures WorldOf(s) == SignedIn(old(WorldOf(s)), a)
  {
    s.SetAuthToken(a.token);
    s.SetCurrentUser(a.userId);
    s.SetUsername(a.username);
    s.client.SetToken(a.token);
  }

  method Register(s: Session, c: Credentials) returns (r: Outcome)
    modifies s, s.client
    ensures Step(WorldOf(s), r, Quiet) == RegisterStep(old(WorldOf(s)), c)
  {
    var username := TrimSpace(c.name);
    if c.password.Err? {
      return Fail(c.password.message);
    }
    var password := c.password.value;
    var email := TrimSpace(c.email);
    var resp := s.client.Register(username, password, email);
    if resp.Err? {
      return Fail(resp.message);
    }
    SignIn(s, resp.value);
    r := Pass;
  }

  method Login(s: Session, c: Credentials) returns (r: Outcome)
    modifies s, s.client
    ensures Step(WorldOf(s), r, Quiet) == LoginStep(old(WorldOf(s)), c)
  {
    var identifier := TrimSpace(c.name);
    if c.password.Err? {
      return Fail(c.password.message);
    }
    var resp := s.client.Login(identifier, c.password.value);
    if resp.Err? {
      return Fail(resp.message);
    }
    SignIn(s, resp.value);
    r := Pass;
  }

  method Logout(s: Session) returns (r: Outcome)
    modifies s, s.client
    ensures Step(WorldOf(s), r, Quiet) == LogoutStep(old(WorldOf(s)))
  {
    s.SetAuthToken("");
    s.SetCurrentUser("");
    s.SetUsername("");
    s.client.SetToken("");
    r := Pass;
  }

  method Whoami(s: Session) returns (r: Outcome)
    modifies s.client
    ensures Step(WorldOf(s), r, Quiet) == WhoamiStep(old(WorldOf(s)))
  {
    if s.GetAuthToken() == "" {
      return Pass;
    }
    var user := s.client.GetCurrentUser();
    r := if user.Err? then Fail(user.message) else Pass;
  }

  method SetUser(s: Session, args: seq<string>) returns (r: Outcome)
    modifies s
    ensures Step(WorldOf(s), r, Quiet) == SetUserStep(old(WorldOf(s)), args)
  {
    if |args| < 1 {
      return Fail(UserUsage);
    }
    s.SetCurrentUser(args[0]);
    r := Pass;
  }

  // ---------------------------------------------------------------------
  // Properties

  /** A password that could not be read ends register and login before any
      request, with nothing changed. */
  lemma PasswordFailureAborts(w: World, c: Credentials)
    requires c.password.Err?
    ensures RegisterStep(w, c) == Step(w, Fail(c.password.message), Quiet)
    ensures LoginStep(w, c) == Step(w, Fail(c.password.message), Quiet)
  {
  }

  /** A failed register or login leaves the session and the client's token
      as they were; a successful one signs in with the response, so the
      client's token is the session's. */
  lemma SignInAtomic(w: World, c: Credentials)
    ensures var st := RegisterStep(w, c);
            st.outcome.Fail? ==> st.world.session == w.session && st.world.wire.token == w.wire.token
    ensures var st := LoginStep(w, c);
            st.outcome.Fail? ==> st.world.session == w.session && st.world.wire.token == w.wire.token
    ensures var st := RegisterStep(w, c);
            st.outcome.Pass? ==> st.world.wire.token == st.world.session.authToken
    ensures var st := LoginStep(w, c);
            st.outcome.Pass? ==> st.world.wire.token == st.world.session.authToken
  {
  }

  /** Signing in after the round trip changes only the token of the wire. */
  lemma LoginStepWire(w: World, c: Credentials)
    requires c.password.Ok?
    ensures LoginStep(w, c).world.wire.sent == LoginCall(w.wire, TrimSpace(c.name), c.password.value).wire.sent
  {
    var r := LoginCall(w.wire, TrimSpace(c.name), c.password.value);
    assert LoginStep(w, c).world.wire == (if r.result.Err? then r.wire else r.wire.(token := r.result.value.token));
  }

  /** Login sends the trimmed identifier and the password as read. */
  lemma LoginSends(w: World, c: Credentials)
    requires c.password.Ok?
    ensures var st := LoginStep(w, c);
            |st.world.wire.sent| == |w.wire.sent| + 1 &&
            st.world.wire.sent[|w.wire.sent|].body == Some(LoginBody(TrimSpace(c.name), c.password.value)) &&
            st.world.wire.sent[|w.wire.sent|].url == w.wire.baseURL + LoginPath
  {
    var id, pw := TrimSpace(c.name), c.password.value;
    var req := BuildRequest(w.wire.baseURL, w.wire.token, "POST", LoginPath, Some(LoginBody(id, pw)));
    LoginStepWire(w, c);
    assert LoginStep(w, c).world.wire.sent == w.wire.sent + [req];
  }

  /** Logout forgets the user in the session and the client alike. */
  lemma LogoutClears(w: World)
    ensures var u := LogoutStep(w).world;
            u.session.authToken == "" && u.session.currentUser == "" && u.session.username == "" && u.wire.token == ""
    ensures var u := LogoutStep(w).world;
            u.session.(authToken := w.session.authToken, currentUser := w.session.currentUser, username := w.session.username) == w.session
            && u.wire.sent == w.wire.sent
  {
  }

  /** whoami without a token asks nothing; with one it asks exactly once and
      never changes the session. */
  lemma WhoamiGuard(w: World)
    ensures w.session.authToken == "" ==> WhoamiStep(w) == Step(w, Pass, Quiet)
    ensures WhoamiStep(w).world.session == w.session
    ensures w.session.authToken != "" ==> |WhoamiStep(w).world.wire.sent| == |w.wire.sent| + 1
  {
  }

  /** user sets only the user id; it authenticates nothing. */
  lemma SetUserOnlyId(w: World, args: seq<string>)
    ensures SetUserStep(w, []) == Step(w, Fail(UserUsage), Quiet)
    ensures |args| >= 1 ==> SetUserStep(w, args).world == w.(session := w.session.(currentUser := args[0]))
  {
  }

  lemma RegisterKeeps(w: World, c: Credentials)
    ensures Keeps(w, RegisterStep(w, c).world)
  {
    var u := RegisterStep(w, c).world;
    if c.password.Ok? {
      var r := RegisterCall(w.wire, TrimSpace(c.name), c.password.value, TrimSpace(c.email));
      var v := w.(wire := r.wire);
      assert Keeps(w, v);
      if r.result.Ok? {
        assert u == SignedIn(v, r.result.value);
      } else {
        assert u == v;
      }
    }
  }

  lemma LoginKeeps(w: World, c: Credentials)
    ensures Keeps(w, LoginStep(w, c).world)
  {
    var u := LoginStep(w, c).world;
    if c.password.Ok? {
      var r := LoginCall(w.wire, TrimSpace(c.name), c.password.value);
      var v := w.(wire := r.wire);
      assert Keeps(w, v);
      if r.result.Ok? {
        assert u == SignedIn(v, r.result.value);
      } else {
        assert u == v;
      }
    }
  }
}
