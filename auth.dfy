/** Sign-in: the account routes of routes/auth.js over a registry of accounts and the
    client's session, the two gates of middleware/auth.js, and the browser's `authManager`
    and error handler of auth.js. Password hashing is opaque: `comparePassword` is a
    parameter, as is the outcome of each save the account model performs. */
module Auth {
  import opened Wrappers
  import opened Text

  /** A stored account; `password` is whatever the account model keeps for it. */
  datatype Account = Account(id: nat, username: string, email: string, password: string,
                             lastLogin: Option<int>)

  /** `req.session.user`. */
  datatype SessionUser = SessionUser(id: nat, username: string, email: string)

  /** `req.session`; the gates also allow for there being none. */
  datatype Session = Session(user: Option<SessionUser>)

  predicate SignedIn(session: Option<Session>)
  {
    session.Some? && session.value.user.Some?
  }

  /** A JSON body field: absent, or the string sent. */
  type Field = Option<string>

  /** JavaScript falsiness of a body field: absent or empty. */
  predicate Falsy(f: Field)
  {
    f.None? || f.value == ""
  }

  datatype UserInfo = UserInfo(username: string, email: string)

  datatype AuthResponse =
    | Failure(status: int, error: string)
    | Success(message: string, user: UserInfo)
    | LoggedOut
    | StatusReport(authenticated: bool, current: Option<SessionUser>)

  /** No two accounts share a username, and no two share an email. */
  ghost predicate DistinctCredentials(a: seq<Account>)
  {
    forall i, j :: 0 <= i < j < |a| ==> a[i].username != a[j].username && a[i].email != a[j].email
  }

  ghost predicate IdsBelow(a: seq<Account>, bound: nat)
  {
    forall i :: 0 <= i < |a| ==> a[i].id < bound
  }

  predicate Matches(acc: Account, email: string, username: string)
  {
    acc.email == email || acc.username == username
  }

  /** `Auth.findOne({ $or: [{ email }, { username }] })`: the first account, in stored order,
      whose email or username is the one given. */
  function FindCredential(a: seq<Account>, email: string, username: string): (r: Option<nat>)
    ensures r.Some? ==> r.value < |a| && Matches(a[r.value], email, username)
    ensures r.Some? ==> forall j :: 0 <= j < r.value ==> !Matches(a[j], email, username)
    ensures r.None? <==> forall j :: 0 <= j < |a| ==> !Matches(a[j], email, username)
  {
    if a == [] then None
    else if Matches(a[0], email, username) then Some(0)
    else
      match FindCredential(a[1..], email, username)
      case None => None
      case Some(k) => Some(k + 1)
  }

  /** An account none of whose credentials is taken keeps the registry free of clashes. */
  lemma AddAccountKeepsDistinct(a: seq<Account>, acc: Account)
    requires DistinctCredentials(a) && FindCredential(a, acc.email, acc.username) == None
    ensures DistinctCredentials(a + [acc])
  {
    var b := a + [acc];
    forall i, j | 0 <= i < j < |b|
      ensures b[i].username != b[j].username && b[i].email != b[j].email
    {
      if j == |a| {
        assert !Matches(a[i], acc.email, acc.username);
      }
    }
  }

  /** Registration checks a username and an email separately, so one account's username may
      be another's email; the login lookup, which matches either field, then finds the older
      account for that string, and the newer one cannot sign in with it. */
  lemma LoginMayMatchTwoAccounts()
    ensures var a := [Account(0, "amy", "amy@x.io", "secret1", None)];
      var b := Account(1, "amy@x.io", "bob@x.io", "secret2", None);
      && DistinctCredentials(a) && FindCredential(a, b.email, b.username) == None
      && DistinctCredentials(a + [b])
      && Matches((a + [b])[0], "amy@x.io", "amy@x.io") && Matches((a + [b])[1], "amy@x.io", "amy@x.io")
      && FindCredential(a + [b], "amy@x.io", "amy@x.io") == Some(0)
  {
    var a := [Account(0, "amy", "amy@x.io", "secret1", None)];
    var b := Account(1, "amy@x.io", "bob@x.io", "secret2", None);
    assert FindCredential(a, b.email, b.username) == None by {
      assert a[1..] == [];
    }
    AddAccountKeepsDistinct(a, b);
  }

  /** The message `/register` answers a taken credential with. */
  function DuplicateMessage(existing: Account, email: string): (m: string)
    ensures m == "Email already exists" <==> existing.email == email
    ensures m != "Email already exists" ==> m == "Username already exists"
  {
    if existing.email == email then "Email already exists" else "Username already exists"
  }

  /** The two gates of middleware/auth.js. */
  datatype Gate = Next | Deny(status: int, error: string) | RedirectTo(path: string)

  /** `requireAuth`: the request goes on exactly when the session holds a user; otherwise it
      is answered 401 "Authentication required". */
  function RequireAuth(session: Option<Session>): (g: Gate)
    ensures g == Next <==> SignedIn(session)
    ensures g != Next ==> g == Deny(401, "Authentication required")
  {
    if SignedIn(session) then Next else Deny(401, "Authentication required")
  }

  /** `requireAuthPage`: the same condition, but a page request without a user is sent to
      the login page instead of answered 401. */
  function RequireAuthPage(session: Option<Session>): (g: Gate)
    ensures g == Next <==> SignedIn(session)
    ensures g != Next ==> g == RedirectTo("/login")
  {
    if SignedIn(session) then Next else RedirectTo("/login")
  }

  /** The two gates let the same requests through and never answer alike otherwise. */
  lemma GatesAgree(session: Option<Session>)
    ensures (RequireAuth(session) == Next) == (RequireAuthPage(session) == Next)
    ensures RequireAuth(session) != RequireAuthPage(session) <==> !SignedIn(session)
  {
  }

  /** `GET /status`: authenticated exactly when the session holds a user, which it reports. */
  function StatusReply(session: Option<Session>): (r: AuthResponse)
    ensures r.StatusReport? && (r.authenticated <==> SignedIn(session))
    ensures r.authenticated ==> r.current == session.value.user
    ensures !r.authenticated ==> r.current == None
  {
    if SignedIn(session) then StatusReport(true, session.value.user) else StatusReport(false, None)
  }

  /** The account routes, for one client's session. */
  class AuthServer {
    var accounts: seq<Account>
    var session: Option<Session>
    var nextId: nat

    ghost predicate Valid()
      reads this
    {
      DistinctCredentials(accounts) && IdsBelow(accounts, nextId)
    }

    constructor(session: Option<Session>)
      ensures Valid() && accounts == [] && this.session == session
    {
      accounts := [];
      this.session := session;
      nextId := 0;
    }

    /** `POST /register`. Missing fields, a short password and a taken credential are
        answered 400 without a change; a failed save answers 500. Otherwise the account is
        added and the session signed in as it. With no session object the sign-in throws
        after the save, and the answer is 500 with the account kept. */
    method Register(username: Field, email: Field, password: Field, saveFails: bool)
      returns (resp: AuthResponse)
      requires Valid()
      modifies this
      ensures Valid()
      ensures Falsy(username) || Falsy(email) || Falsy(password) ==>
        resp == Failure(400, "All fields are required") && unchanged(this)
      ensures !(Falsy(username) || Falsy(email) || Falsy(password)) ==>
        var u, e, p := username.value, email.value, password.value;
        var found := FindCredential(old(accounts), e, u);
        && (|p| < 6 ==> resp == Failure(400, "Password must be at least 6 characters") && unchanged(this))
        && (|p| >= 6 && found.Some? ==>
              resp == Failure(400, DuplicateMessage(old(accounts)[found.value], e)) && unchanged(this))
        && (|p| >= 6 && found.None? && saveFails ==>
              resp == Failure(500, "Registration failed") && unchanged(this))
        && (|p| >= 6 && found.None? && !saveFails ==>
              && accounts == old(accounts) + [Account(old(nextId), u, e, p, None)]
              && nextId == old(nextId) + 1
              && (old(session).Some? ==>
                    && session == Some(Session(Some(SessionUser(old(nextId), u, e))))
                    && resp == Success("Registration successful", UserInfo(u, e)))
              && (old(session).None? ==>
                    session == None && resp == Failure(500, "Registration failed")))
    {
      if Falsy(username) || Falsy(email) || Falsy(password) {
        return Failure(400, "All fields are required");
      }
      var u, e, p := username.value, email.value, password.value;
      if |p| < 6 {
        return Failure(400, "Password must be at least 6 characters");
      }
      var found := FindCredential(accounts, e, u);
      if found.Some? {
        return Failure(400, DuplicateMessage(accounts[found.value], e));
      }
      if saveFails {
        return Failure(500, "Registration failed");
      }
      var acc := Account(nextId, u, e, p, None);
      AddAccountKeepsDistinct(accounts, acc);
      accounts := accounts + [acc];
      nextId := nextId + 1;
      if session.None? {
        return Failure(500, "Registration failed");
      }
      session := Some(Session(Some(SessionUser(acc.id, u, e))));
      resp := Success("Registration successful", UserInfo(u, e));
    }

    /** `POST /login`. `login` is matched against usernames and emails alike. Missing fields
        answer 400; an unknown login and a wrong password both answer 401 with the same
        message. Otherwise `lastLogin` is set and saved and the session signed in. */
    method Login(login: Field, password: Field, comparePassword: (Account, string) -> bool,
                 now: int, saveFails: bool)
      returns (resp: AuthResponse)
      requires Valid()
      modifies this
      ensures Valid()
      ensures Falsy(login) || Falsy(password) ==>
        resp == Failure(400, "Username/email and password are required") && unchanged(this)
      ensures !(Falsy(login) || Falsy(password)) ==>
        var found := FindCredential(old(accounts), login.value, login.value);
        && (found.None? || !comparePassword(old(accounts)[found.value], password.value) ==>
              resp == Failure(401, "Invalid credentials") && unchanged(this))
        && (found.Some? && comparePassword(old(accounts)[found.value], password.value) ==>
              var acc := old(accounts)[found.value];
              && nextId == old(nextId)
              && (saveFails ==> resp == Failure(500, "Login failed") && accounts == old(accounts)
                                && session == old(session))
              && (!saveFails ==>
                    && accounts == old(accounts)[found.value := acc.(lastLogin := Some(now))]
                    && (old(session).Some? ==>
                          && session == Some(Session(Some(SessionUser(acc.id, acc.username, acc.email))))
                          && resp == Success("Login successful", UserInfo(acc.username, acc.email)))
                    && (old(session).None? ==>
                          session == None && resp == Failure(500, "Login failed"))))
    {
      if Falsy(login) || Falsy(password) {
        return Failure(400, "Username/email and password are required");
      }
      var found := FindCredential(accounts, login.value, login.value);
      if found.None? {
        return Failure(401, "Invalid credentials");
      }
      var acc := accounts[found.value];
      if !comparePassword(acc, password.value) {
        return Failure(401, "Invalid credentials");
      }
      if saveFails {
        return Failure(500, "Login failed");
      }
      accounts := accounts[found.value := acc.(lastLogin := Some(now))];
      assert forall i :: 0 <= i < |accounts| ==>
        accounts[i].username == old(accounts)[i].username && accounts[i].email == old(accounts)[i].email
        && accounts[i].id == old(accounts)[i].id;
      if session.None? {
        return Failure(500, "Login failed");
      }
      session := Some(Session(Some(SessionUser(acc.id, acc.username, acc.email))));
      resp := Success("Login successful", UserInfo(acc.username, acc.email));
    }

    /** `POST /logout`: the session is destroyed (the next request starts a fresh one
        without a user); a failed destroy answers 500 and keeps it. */
    method Logout(destroyFails: bool) returns (resp: AuthResponse)
      modifies this`session
      ensures destroyFails ==> resp == Failure(500, "Logout failed") && session == old(session)
      ensures !destroyFails ==> resp == LoggedOut && session == Some(Session(None))
    {
      if destroyFails {
        return Failure(500, "Logout failed");
      }
      session := Some(Session(None));
      resp := LoggedOut;
    }

    /** `GET /status`. */
    method Status() returns (resp: AuthResponse)
      ensures resp == StatusReply(session)
    {
      if session.Some? && session.value.user.Some? {
        resp := StatusReport(true, session.value.user);
      } else {
        resp := StatusReport(false, None);
      }
    }
  }

  /** After a successful registration or login the gates let the client through. */
  lemma SignedInAfterSuccess(session: Option<Session>, u: SessionUser)
    ensures RequireAuth(Some(Session(Some(u)))) == Next
    ensures StatusReply(Some(Session(Some(u)))) == StatusReport(true, Some(u))
    ensures RequireAuth(Some(Session(None))) == Deny(401, "Authentication required")
  {
  }

  const GenericError := "Something went wrong. Please try again."
  const ChatError := "Failed to send message. Please check your connection and try again."
  const VoiceError := "Voice feature is currently unavailable. Please try again later."
  const SettingsError := "Failed to save settings. Please try again."

  /** `handleAPIError`'s message choice by the context text: "chat" wins over "voice",
      which wins over "settings"; any other context gets the generic text. */
  function ErrorMessageFor(context: string): (m: string)
    ensures Contains(context, "chat") ==> m == ChatError
    ensures !Contains(context, "chat") && Contains(context, "voice") ==> m == VoiceError
    ensures !Contains(context, "chat") && !Contains(context, "voice") && Contains(context, "settings")
            ==> m == SettingsError
    ensures !Contains(context, "chat") && !Contains(context, "voice") && !Contains(context, "settings")
            ==> m == GenericError
  {
    if Contains(context, "chat") then ChatError
    else if Contains(context, "voice") then VoiceError
    else if Contains(context, "settings") then SettingsError
    else GenericError
  }

  /** A context naming several features gets the message of the first in that order:
      "chat" after "voice" still gives the chat message, and "voice" after "settings"
      gives the voice message whenever no "chat" appears; "settings" with neither gives the
      settings message. */
  lemma ContextPrecedence(rest: string)
    ensures ErrorMessageFor("voice chat" + rest) == ChatError
    ensures !Contains("settings voice" + rest, "chat") ==>
      ErrorMessageFor("settings voice" + rest) == VoiceError
    ensures !Contains("settings" + rest, "chat") && !Contains("settings" + rest, "voice") ==>
      ErrorMessageFor("settings" + rest) == SettingsError
  {
    ContainsAt("voice chat" + rest, "chat", 6);
    ContainsAt("settings voice" + rest, "voice", 9);
    ContainsAt("settings" + rest, "settings", 0);
  }

  /** What a request through the wrapped `fetch` gives. */
  datatype Fetched = Responded(status: int) | FetchThrew

  /** What the wrapped `fetch` resolves to: the response, `undefined`, or the error rethrown. */
  datatype FetchResult = Response(status: int) | Undefined | Rethrown

  /** The browser's `authManager` with the error notification on the page. */
  class AuthManager {
    var user: Option<SessionUser>
    var isAuthenticated: bool
    /** Where the page was sent, if anywhere. */
    var location: Option<string>
    /** The error notifications on the page, oldest first. */
    var notifications: seq<string>

    /** At most one error notification is on the page. */
    ghost predicate Valid()
      reads this
    {
      |notifications| <= 1
    }

    constructor()
      ensures Valid() && user == None && !isAuthenticated && location == None && notifications == []
    {
      user := None;
      isAuthenticated := false;
      location := None;
      notifications := [];
    }

    /** `setUser`. */
    method SetUser(u: Option<SessionUser>)
      modifies this`user, this`isAuthenticated
      ensures user == u && isAuthenticated
    {
      user := u;
      isAuthenticated := true;
    }

    /** `checkAuthStatus`: an authenticated report signs the page in; anything else sends
        it to the login page. */
    method CheckAuthStatus(reply: Option<AuthResponse>)
      modifies this`user, this`isAuthenticated, this`location
      ensures reply.Some? && reply.value.StatusReport? && reply.value.authenticated ==>
        user == reply.value.current && isAuthenticated && location == old(location)
      ensures !(reply.Some? && reply.value.StatusReport? && reply.value.authenticated) ==>
        user == old(user) && isAuthenticated == old(isAuthenticated) && location == Some("/login")
    {
      if reply.Some? && reply.value.StatusReport? && reply.value.authenticated {
        SetUser(reply.value.current);
      } else {
        location := Some("/login");
      }
    }

    /** `logout`: nothing happens unless confirmed; a successful server logout signs the
        page out and sends it to the login page; a failure changes nothing. */
    method Logout(confirmed: bool, outcome: Fetched)
      modifies this`user, this`isAuthenticated, this`location
      ensures confirmed && outcome.Responded? && 200 <= outcome.status < 300 ==>
        user == None && !isAuthenticated && location == Some("/login")
      ensures !(confirmed && outcome.Responded? && 200 <= outcome.status < 300) ==>
        user == old(user) && isAuthenticated == old(isAuthenticated) && location == old(location)
    {
      if !confirmed {
        return;
      }
      if outcome.Responded? && 200 <= outcome.status < 300 {
        user := None;
        isAuthenticated := false;
        location := Some("/login");
      }
    }

    /** The `fetch` wrapper: a 401 signs the page out, sends it to the login page and
        resolves to `undefined`; other responses pass through and errors are rethrown. */
    method WrappedFetch(outcome: Fetched) returns (r: FetchResult)
      modifies this`user, this`isAuthenticated, this`location
      ensures outcome == Responded(401) ==>
        r == Undefined && user == None && !isAuthenticated && location == Some("/login")
      ensures outcome != Responded(401) ==>
        && r == (if outcome.FetchThrew? then Rethrown else Response(outcome.status))
        && user == old(user) && isAuthenticated == old(isAuthenticated) && location == old(location)
    {
      if outcome.FetchThrew? {
        return Rethrown;
      }
      if outcome.status == 401 {
        user := None;
        isAuthenticated := false;
        location := Some("/login");
        return Undefined;
      }
      r := Response(outcome.status);
    }

    /** `showErrorNotification`: the notification already shown is removed before the new
        one is added, so the page shows exactly the new one. */
    method ShowErrorNotification(message: string)
      requires Valid()
      modifies this`notifications
      ensures Valid() && notifications == [message]
    {
      if |notifications| > 0 {
        notifications := notifications[1..];
      }
      notifications := notifications + [message];
    }

    /** `handleAPIError`: an error whose message mentions 401 logs out and shows nothing;
        any other shows the message chosen for the context. */
    method HandleAPIError(errorMessage: Option<string>, context: string, confirmed: bool,
                          outcome: Fetched)
      requires Valid()
      modifies this`user, this`isAuthenticated, this`location, this`notifications
      ensures Valid()
      ensures errorMessage.Some? && Contains(errorMessage.value, "401") ==>
        notifications == old(notifications)
      ensures errorMessage.Some? && Contains(errorMessage.value, "401") &&
              confirmed && outcome.Responded? && 200 <= outcome.status < 300 ==>
        user == None && !isAuthenticated && location == Some("/login")
      ensures errorMessage.Some? && Contains(errorMessage.value, "401") &&
              !(confirmed && outcome.Responded? && 200 <= outcome.status < 300) ==>
        user == old(user) && isAuthenticated == old(isAuthenticated) && location == old(location)
      ensures !(errorMessage.Some? && Contains(errorMessage.value, "401")) ==>
        && notifications == [ErrorMessageFor(context)]
        && user == old(user) && isAuthenticated == old(isAuthenticated) && location == old(location)
    {
      if errorMessage.Some? && Contains(errorMessage.value, "401") {
        Logout(confirmed, outcome);
        return;
      }
      ShowErrorNotification(ErrorMessageFor(context));
    }
  }
}
