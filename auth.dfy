/**
 * Google sign-in: starting the OAuth flow with the LINE id carried in the state parameter,
 * the callback that upserts the user by Google e-mail and hands out a session token, and
 * the token check the frontend uses.
 */
module Auth {
  import opened Wrappers
  import opened Text
  import opened Tables
  import opened Http

  const CodeMissing := "Authorization code not provided"
  const TokenQuery := "?token="
  const AuthFailedQuery := "?error=auth_failed"

  /** The server-side session of the browser, with the LINE id it may remember. */
  class HttpSession {
    var lineUserId: Option<string>
    var destroyed: bool

    constructor(lineUserId: Option<string>)
      ensures this.lineUserId == lineUserId && !destroyed
    {
      this.lineUserId := lineUserId;
      destroyed := false;
    }
  }

  /** The `state` query parameter as the callback sees it: absent, not JSON, or an object
      with (or without) a line_user_id. */
  datatype StateParam = NoState | Malformed | Parsed(lineUserId: Option<string>)

  /** getAuthUrl(lineUserId): the state carries the id when it is truthy. */
  function StateFor(lineUserId: Option<string>): (st: StateParam)
    ensures st.Parsed? <==> Present(lineUserId)
    ensures st.Parsed? ==> st.lineUserId == lineUserId
  {
    if Present(lineUserId) then Parsed(lineUserId) else NoState
  }

  /** initiateGoogleAuth: the query's id wins over the session's, a truthy id is remembered in
      the session, and the auth URL carries it in its state. */
  method InitiateGoogleAuth(session: HttpSession, queryLineId: Option<string>) returns (st: StateParam)
    modifies session
    ensures var chosen := if Present(queryLineId) then queryLineId else old(session.lineUserId);
            && st == StateFor(chosen)
            && session.lineUserId == (if Present(chosen) then chosen else old(session.lineUserId))
    ensures session.destroyed == old(session.destroyed)
  {
    var lineUserId := if Present(queryLineId) then queryLineId else session.lineUserId;
    if Present(lineUserId) {
      session.lineUserId := lineUserId;
    }
    st := StateFor(lineUserId);
  }

  /** The LINE id the callback binds: the state's, else the session's, else null (`|| null`
      also turns an empty id into null). A malformed state is ignored. */
  function ResolveLineId(st: StateParam, sessionLineId: Option<string>): (r: Option<string>)
    ensures r.None? || Present(r)
    ensures st.Parsed? && Present(st.lineUserId) ==> r == st.lineUserId
    ensures !(st.Parsed? && Present(st.lineUserId)) ==> r == if Present(sessionLineId) then sessionLineId else None
  {
    var fromState := if st.Parsed? then st.lineUserId else None;
    if Present(fromState) then fromState
    else if Present(sessionLineId) then sessionLineId
    else None
  }

  /** The id handed to initiateGoogleAuth comes back in the callback even when the external
      browser lost the session. */
  lemma StateRoundTrip(lineUserId: string, sessionLineId: Option<string>)
    requires lineUserId != ""
    ensures ResolveLineId(StateFor(Some(lineUserId)), sessionLineId) == Some(lineUserId)
  {
  }

  /** What the token exchange yields; the refresh token may be missing. */
  datatype Tokens = Tokens(accessToken: string, refreshToken: Option<string>)

  /** The Google calls and the token signer: each may throw. */
  datatype OAuth = OAuth(
    getTokens: string -> Result<Tokens, string>,
    userEmail: Tokens -> Result<string, string>,
    sign: User -> Result<string, string>)

  /** LIFF_URL and FRONTEND_URL. */
  datatype AuthEnv = AuthEnv(liffUrl: Option<string>, frontendUrl: string)

  datatype CallbackResponse = BadRequest(error: string) | Redirect(url: string)

  function SuccessUrl(env: AuthEnv, token: string): (url: string)
    ensures Present(env.liffUrl) ==> IsPrefix(env.liffUrl.value, url)
    ensures !Present(env.liffUrl) ==> IsPrefix(env.frontendUrl, url)
    ensures |token| <= |url| && url[|url| - |token|..] == token
  {
    var base := if Present(env.liffUrl) then env.liffUrl.value else env.frontendUrl;
    ConcatAssoc(base, TokenQuery, token);
    base + TokenQuery + token
  }

  function FailureUrl(env: AuthEnv): string {
    env.frontendUrl + AuthFailedQuery
  }

  /** A failed sign-in never looks like a successful one, whichever base the success redirect
      uses: a signed token (base64url segments and dots) has no '?', so the last '?' of either
      URL opens its own query, and the two queries differ in their first letter. */
  lemma FailureUrlHasNoToken(env: AuthEnv, token: string)
    requires '?' !in token
    ensures FailureUrl(env) != SuccessUrl(env, token)
  {
    var f, s := FailureUrl(env), SuccessUrl(env, token);
    var base := if Present(env.liffUrl) then env.liffUrl.value else env.frontendUrl;
    var query := TokenQuery + token;
    assert s == base + query;
    assert query[1..] == TokenQuery[1..] + token;
    LastIndexOfTail(base, query, '?');
    LastIndexOfTail(env.frontendUrl, AuthFailedQuery, '?');
    if |base| == |env.frontendUrl| {
      assert f[|base| + 1] == 'e' && s[|base| + 1] == 't';
    }
  }

  /** SELECT ... FROM users WHERE google_email = $1 */
  function FindUserByEmail(users: seq<User>, email: string): (r: Option<User>)
    ensures r.Some? ==> r.value in users && r.value.googleEmail == email
    ensures r.None? <==> forall u :: u in users ==> u.googleEmail != email
  {
    if users == [] then None
    else if users[0].googleEmail == email then Some(users[0])
    else FindUserByEmail(users[1..], email)
  }

  /** DO UPDATE SET google_refresh_token = EXCLUDED..., line_user_id = COALESCE(users.line_user_id, EXCLUDED...) */
  function Relogin(u: User, lineId: Option<string>, refresh: Option<string>): (v: User)
    ensures v.id == u.id && v.googleEmail == u.googleEmail && v.folderId == u.folderId
    ensures v.refreshToken == refresh
    ensures u.lineUserId.Some? ==> v.lineUserId == u.lineUserId
    ensures u.lineUserId.None? ==> v.lineUserId == lineId
  {
    u.(refreshToken := refresh, lineUserId := if u.lineUserId.Some? then u.lineUserId else lineId)
  }

  function ReloginWhere(users: seq<User>, email: string, lineId: Option<string>, refresh: Option<string>): (r: seq<User>)
    ensures |r| == |users|
    ensures forall i :: 0 <= i < |users| ==> r[i] == if users[i].googleEmail == email then Relogin(users[i], lineId, refresh) else users[i]
  {
    if users == [] then []
    else [if users[0].googleEmail == email then Relogin(users[0], lineId, refresh) else users[0]]
         + ReloginWhere(users[1..], email, lineId, refresh)
  }

  /** The row the upsert returns is the one a lookup by e-mail finds afterwards. */
  lemma {:induction false} ReloginFinds(users: seq<User>, email: string, lineId: Option<string>, refresh: Option<string>)
    requires FindUserByEmail(users, email).Some?
    ensures FindUserByEmail(ReloginWhere(users, email, lineId, refresh), email)
            == Some(Relogin(FindUserByEmail(users, email).value, lineId, refresh))
    decreases |users|
  {
    var r := ReloginWhere(users, email, lineId, refresh);
    if users[0].googleEmail != email {
      assert r[1..] == ReloginWhere(users[1..], email, lineId, refresh);
      ReloginFinds(users[1..], email, lineId, refresh);
    }
  }

  /** INSERT INTO users ... ON CONFLICT (google_email) DO UPDATE ... RETURNING: the new table and
      the returned row. */
  function Upsert(users: seq<User>, nextId: nat, lineId: Option<string>, email: string, refresh: Option<string>): (r: (seq<User>, User))
    ensures FindUserByEmail(r.0, email) == Some(r.1)
    ensures r.1.googleEmail == email && r.1.refreshToken == refresh
    ensures FindUserByEmail(users, email).None? ==> r.0 == users + [r.1] && r.1 == User(nextId, lineId, email, refresh, None)
    ensures FindUserByEmail(users, email).Some? ==>
              var prev := FindUserByEmail(users, email).value;
              && |r.0| == |users|
              && (forall i :: 0 <= i < |users| && users[i].googleEmail != email ==> r.0[i] == users[i])
              && (forall i :: 0 <= i < |users| && users[i].googleEmail == email ==> r.0[i] == Relogin(users[i], lineId, refresh))
              && r.1.id == prev.id && r.1.folderId == prev.folderId
              && r.1.lineUserId == (if prev.lineUserId.Some? then prev.lineUserId else lineId)
  {
    match FindUserByEmail(users, email)
    case None =>
      var u := User(nextId, lineId, email, refresh, None);
      assert FindUserByEmail(users + [u], email) == Some(u) by { FindInAppended(users, u, email); }
      (users + [u], u)
    case Some(u) =>
      ReloginFinds(users, email, lineId, refresh);
      (ReloginWhere(users, email, lineId, refresh), Relogin(u, lineId, refresh))
  }

  lemma {:induction false} FindInAppended(users: seq<User>, u: User, email: string)
    requires FindUserByEmail(users, email).None? && u.googleEmail == email
    ensures FindUserByEmail(users + [u], email) == Some(u)
    decreases |users|
  {
    if users == [] {
      assert users + [u] == [u];
    } else {
      assert (users + [u])[1..] == users[1..] + [u];
      FindInAppended(users[1..], u, email);
    }
  }

  /** The trial package assignment of the callback: only for a user without any package row. */
  function AssignNewbie(ups: seq<UserPackage>, packages: seq<Package>, userId: nat, today: int): (r: seq<UserPackage>)
    ensures HasAnyPackage(ups, userId) || ActiveNewbie(packages).None? ==> r == ups
    ensures !HasAnyPackage(ups, userId) && ActiveNewbie(packages).Some? ==>
              r == ups + [UserPackage(userId, ActiveNewbie(packages).value.id, today, None, true)]
    ensures ActiveNewbie(packages).Some? ==> HasAnyPackage(r, userId)
  {
    if !HasAnyPackage(ups, userId) && ActiveNewbie(packages).Some? then
      var row := UserPackage(userId, ActiveNewbie(packages).value.id, today, None, true);
      assert row in ups + [row];
      ups + [row]
    else ups
  }

  /** handleGoogleCallback. The SERIAL key is drawn by every INSERT ... ON CONFLICT, so the
      counter moves on even when the row already existed. */
  method HandleGoogleCallback(db: Database, session: HttpSession, code: Option<string>, st: StateParam,
                              oauth: OAuth, env: AuthEnv, today: int)
    returns (resp: CallbackResponse)
    modifies db, session
    ensures !Present(code) ==> resp == BadRequest(CodeMissing)
    ensures !Present(code) || oauth.getTokens(code.value).Err? || oauth.userEmail(oauth.getTokens(code.value).value).Err? ==>
              && db.users == old(db.users) && db.userPackages == old(db.userPackages) && db.nextUserId == old(db.nextUserId)
              && session.destroyed == old(session.destroyed)
    ensures Present(code) && (oauth.getTokens(code.value).Err? || oauth.userEmail(oauth.getTokens(code.value).value).Err?) ==>
              resp == Redirect(FailureUrl(env))
    ensures Present(code) && oauth.getTokens(code.value).Ok? && oauth.userEmail(oauth.getTokens(code.value).value).Ok? ==>
              var tokens := oauth.getTokens(code.value).value;
              var up := Upsert(old(db.users), old(db.nextUserId), ResolveLineId(st, old(session.lineUserId)),
                               oauth.userEmail(tokens).value, tokens.refreshToken);
              && db.users == up.0
              && db.nextUserId == old(db.nextUserId) + 1
              && db.userPackages == AssignNewbie(old(db.userPackages), db.packages, up.1.id, today)
              && (oauth.sign(up.1).Ok? ==> resp == Redirect(SuccessUrl(env, oauth.sign(up.1).value)) && session.destroyed)
              && (oauth.sign(up.1).Err? ==> resp == Redirect(FailureUrl(env)) && session.destroyed == old(session.destroyed))
    ensures resp.BadRequest? <==> !Present(code)
    ensures db.ledger == old(db.ledger) && db.pending == old(db.pending) && db.packages == old(db.packages)
    ensures db.nextPendingId == old(db.nextPendingId) && session.lineUserId == old(session.lineUserId)
  {
    if !Present(code) {
      resp := BadRequest(CodeMissing);
      return;
    }
    var lineUserId := ResolveLineId(st, session.lineUserId);
    var tokens := oauth.getTokens(code.value);
    if tokens.Err? {
      resp := Redirect(FailureUrl(env));
      return;
    }
    var email := oauth.userEmail(tokens.value);
    if email.Err? {
      resp := Redirect(FailureUrl(env));
      return;
    }
    var up := Upsert(db.users, db.nextUserId, lineUserId, email.value, tokens.value.refreshToken);
    db.users := up.0;
    db.nextUserId := db.nextUserId + 1;
    var user := up.1;
    db.userPackages := AssignNewbie(db.userPackages, db.packages, user.id, today);
    var signed := oauth.sign(user);
    if signed.Err? {
      resp := Redirect(FailureUrl(env));
      return;
    }
    session.destroyed := true;
    resp := Redirect(SuccessUrl(env, signed.value));
  }

  /** A LINE id already bound survives a later sign-in; the refresh token is replaced, even by null. */
  lemma ReloginKeepsBinding(users: seq<User>, nextId: nat, lineId: Option<string>, email: string, refresh: Option<string>)
    requires FindUserByEmail(users, email).Some? && FindUserByEmail(users, email).value.lineUserId.Some?
    ensures Upsert(users, nextId, lineId, email, refresh).1.lineUserId == FindUserByEmail(users, email).value.lineUserId
    ensures Upsert(users, nextId, lineId, email, refresh).1.refreshToken == refresh
  {
  }

  // ---------------------------------------------------------------- verifyToken

  /** The `user` object of a valid token. */
  datatype Profile = Profile(email: string, name: string, lineUserId: Option<string>, folderId: Option<string>)

  /** user.google_email.split('@')[0] */
  function DisplayName(email: string): (name: string)
    ensures IsPrefix(name, email) && '@' !in name
    ensures |name| < |email| ==> email[|name|] == '@'
  {
    BeforeFirst(email, '@')
  }

  /** The name of local@domain is local. */
  lemma DisplayNameOfAddress(local: string, domain: string)
    requires '@' !in local
    ensures DisplayName(local + "@" + domain) == local
  {
    BeforeFirstOfJoin(local, '@', domain);
  }

  /** verifyToken: every failure is a 401 with valid: false, whatever went wrong. */
  function VerifyToken(users: seq<User>, header: Option<string>, jwt: Jwt): (r: Result<Profile, Failure>)
    ensures r.Err? ==> r.error.status == 401
    ensures !Present(BearerToken(header)) ==> r == Err(Failure(401, NoTokenProvided, None))
    ensures r.Ok? <==> Present(BearerToken(header)) && jwt.verify(BearerToken(header).value).Ok?
                       && FindUserById(users, jwt.verify(BearerToken(header).value).value).Some?
    ensures r.Ok? ==> var u := FindUserById(users, jwt.verify(BearerToken(header).value).value).value;
                      r.value == Profile(u.googleEmail, DisplayName(u.googleEmail), u.lineUserId, u.folderId)
  {
    var token := BearerToken(header);
    if !Present(token) then Err(Failure(401, NoTokenProvided, None))
    else match jwt.verify(token.value)
      case Err(_) => Err(Failure(401, InvalidToken, None))
      case Ok(key) =>
        match FindUserById(users, key)
        case None => Err(Failure(401, UserNotFound, None))
        case Some(u) => Ok(Profile(u.googleEmail, DisplayName(u.googleEmail), u.lineUserId, u.folderId))
  }
}
