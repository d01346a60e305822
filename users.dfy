/**
 * The authenticated user endpoints: binding and unbinding a LINE account, the binding
 * status, the Drive folder setting and listing, and the paged upload history.
 */
module Users {
  import opened Wrappers
  import opened Text
  import opened Tables
  import opened Http
  import opened Drive
  import Processor

  const LineIdRequired := "LINE user ID is required"
  const InvalidLineIdFormat := "Invalid LINE user ID format. Please open PixcelBOB via LINE (LIFF) so we can capture your ID automatically."
  const LineIdNotFriend := "ไม่พบ LINE ID นี้ในบอท PixcelBOB กรุณาเพิ่มเพื่อน (Add Friend) กับบอทและเปิดแอปผ่าน LINE อีกครั้ง."
  const BindFailed := "Failed to bind LINE account"
  const UnbindFailed := "Failed to unbind LINE account"
  const StatusFailed := "Failed to get binding status"
  const SetFolderFailed := "Failed to set Google Drive folder"
  const GoogleNotConnected := "Google account not connected"
  const FoldersFailed := "Failed to get Google Drive folders"
  const HistoryFailed := "Failed to get upload history"
  const DefaultHistoryLimit: nat := 20

  // ---------------------------------------------------------------- LINE ids

  /** lineUserId.trim().toUpperCase() */
  function NormalizeLineId(s: string): (r: string)
    ensures |r| <= |s|
  {
    ToUpper(Trim(s))
  }

  /** Normalising an id that is already normalised changes nothing. */
  lemma NormalizeIdempotent(s: string)
    ensures NormalizeLineId(NormalizeLineId(s)) == NormalizeLineId(s)
  {
    var t := Trim(s);
    TrimIsTrimmed(s);
    ToUpperKeepsTrimmed(t);
    TrimOfTrimmed(ToUpper(t));
    ToUpperIdempotent(t);
  }

  predicate IsHexDigit(c: char) { '0' <= c <= '9' || 'a' <= c <= 'f' || 'A' <= c <= 'F' }

  predicate IsUpperHexDigit(c: char) { '0' <= c <= '9' || 'A' <= c <= 'F' }

  /** /^U[a-fA-F0-9]{32}$/ */
  predicate IsLineIdFormat(s: string) {
    |s| == 33 && s[0] == 'U' && forall i :: 1 <= i < 33 ==> IsHexDigit(s[i])
  }

  /** An id that passes the check is stored in one canonical spelling: 'U' and 32 upper-case hex digits. */
  lemma AcceptedIdsAreUpperHex(input: string)
    requires IsLineIdFormat(NormalizeLineId(input))
    ensures |NormalizeLineId(input)| == 33
    ensures forall i :: 1 <= i < 33 ==> IsUpperHexDigit(NormalizeLineId(input)[i])
  {
    var n := NormalizeLineId(input);
    forall i | 1 <= i < 33
      ensures IsUpperHexDigit(n[i])
    {
      assert n[i] == UpperChar(Trim(input)[i]);
    }
  }

  /** The id as LINE reports it, a lower-case 'u' or padded with white space, is accepted too. */
  lemma LowercaseUAccepted(hex: string, pad: string)
    requires |hex| == 32 && forall i :: 0 <= i < 32 ==> '0' <= hex[i] <= '9' || 'a' <= hex[i] <= 'f'
    requires forall i :: 0 <= i < |pad| ==> pad[i] == ' '
    ensures IsLineIdFormat(NormalizeLineId(pad + "u" + hex + pad))
  {
    var core := "u" + hex;
    assert pad + "u" + hex + pad == pad + core + pad;
    TrimPadded(pad, core);
    var n := ToUpper(core);
    assert n[0] == 'U';
    forall i | 1 <= i < 33
      ensures IsHexDigit(n[i])
    {
      assert n[i] == UpperChar(hex[i - 1]);
    }
  }

  /** Blanks on both sides are trimmed away. */
  lemma TrimPadded(pad: string, core: string)
    requires forall i :: 0 <= i < |pad| ==> pad[i] == ' '
    requires core != [] && !IsJsSpace(core[0]) && !IsJsSpace(core[|core| - 1])
    ensures Trim(pad + core + pad) == core
  {
    var s := pad + core + pad;
    assert s == pad + (core + pad);
    TrimStartSkips(pad, core + pad);
    TrimEndSkips(core, pad);
  }

  /** Leading blanks are skipped and the rest is kept when it starts with a non-space. */
  lemma {:induction false} TrimStartSkips(pad: string, rest: string)
    requires forall i :: 0 <= i < |pad| ==> pad[i] == ' '
    requires rest != [] && !IsJsSpace(rest[0])
    ensures TrimStart(pad + rest) == rest
    decreases |pad|
  {
    if pad == [] {
      assert pad + rest == rest;
    } else {
      assert (pad + rest)[1..] == pad[1..] + rest;
      TrimStartSkips(pad[1..], rest);
    }
  }

  /** Trailing blanks are dropped and the rest is kept when it ends with a non-space. */
  lemma {:induction false} TrimEndSkips(rest: string, pad: string)
    requires forall i :: 0 <= i < |pad| ==> pad[i] == ' '
    requires rest != [] && !IsJsSpace(rest[|rest| - 1])
    ensures TrimEnd(rest + pad) == rest
    decreases |pad|
  {
    if pad == [] {
      assert rest + pad == rest;
    } else {
      var s := rest + pad;
      assert s[..|s| - 1] == rest + pad[..|pad| - 1];
      TrimEndSkips(rest, pad[..|pad| - 1]);
    }
  }

  // ---------------------------------------------------------------- updates of users

  datatype Column = LineColumn | FolderColumn

  /** The row with one nullable column set. */
  function SetColumn(u: User, c: Column, v: Option<string>): User {
    match c
    case LineColumn => u.(lineUserId := v)
    case FolderColumn => u.(folderId := v)
  }

  /** UPDATE users SET <column> = v WHERE id = key */
  function UpdateWhere(users: seq<User>, key: nat, c: Column, v: Option<string>): (r: seq<User>)
    ensures |r| == |users|
    ensures forall i :: 0 <= i < |users| ==> r[i] == if users[i].id == key then SetColumn(users[i], c, v) else users[i]
  {
    if users == [] then []
    else [if users[0].id == key then SetColumn(users[0], c, v) else users[0]] + UpdateWhere(users[1..], key, c, v)
  }

  /** The updated row is the old row with the one column set, and every other column kept. */
  lemma {:induction false} UpdateWhereFinds(users: seq<User>, key: nat, c: Column, v: Option<string>)
    ensures FindUserById(UpdateWhere(users, key, c, v), key).Some? <==> FindUserById(users, key).Some?
    ensures FindUserById(users, key).Some? ==>
              FindUserById(UpdateWhere(users, key, c, v), key) == Some(SetColumn(FindUserById(users, key).value, c, v))
    decreases |users|
  {
    if users != [] {
      var r := UpdateWhere(users, key, c, v);
      assert r[1..] == UpdateWhere(users[1..], key, c, v);
      UpdateWhereFinds(users[1..], key, c, v);
    }
  }

  /** Once the binding is stored, the webhook's lookup by LINE id finds a user. */
  lemma {:induction false} BoundIdIsFound(users: seq<User>, key: nat, lineId: string)
    requires FindUserById(users, key).Some?
    ensures FindUserByLineId(UpdateWhere(users, key, LineColumn, Some(lineId)), lineId).Some?
  {
    UpdateWhereFinds(users, key, LineColumn, Some(lineId));
    var r := UpdateWhere(users, key, LineColumn, Some(lineId));
    var u := FindUserById(r, key).value;
    assert u in r && u.lineUserId == Some(lineId);
  }

  // ---------------------------------------------------------------- bindLineAccount

  /** The checks bindLineAccount makes before it looks at the token's claims, in order:
      the token, the id, its format, and whether the bot can reach it. */
  function BindCheck(header: Option<string>, lineUserId: Option<string>, profile: string -> Result<string, string>): (r: Result<(string, string), Failure>)
    ensures !Present(BearerToken(header)) ==> r == Err(Failure(401, NoTokenProvided, None))
    ensures Present(BearerToken(header)) && !Present(lineUserId) ==> r == Err(Failure(400, LineIdRequired, None))
    ensures Present(BearerToken(header)) && Present(lineUserId) && !IsLineIdFormat(NormalizeLineId(lineUserId.value)) ==>
              r == Err(Failure(400, InvalidLineIdFormat, None))
    ensures r.Ok? <==> Present(BearerToken(header)) && Present(lineUserId)
                       && IsLineIdFormat(NormalizeLineId(lineUserId.value)) && profile(NormalizeLineId(lineUserId.value)).Ok?
    ensures r.Ok? ==> r.value == (BearerToken(header).value, NormalizeLineId(lineUserId.value))
    ensures r.Ok? ==> IsLineIdFormat(r.value.1)
    ensures r.Err? && r.error.status != 401 ==> r.error.status == 400
  {
    var token := BearerToken(header);
    if !Present(token) then Err(Failure(401, NoTokenProvided, None))
    else if !Present(lineUserId) then Err(Failure(400, LineIdRequired, None))
    else
      var id := NormalizeLineId(lineUserId.value);
      if !IsLineIdFormat(id) then Err(Failure(400, InvalidLineIdFormat, None))
      else match profile(id)
        case Err(msg) => Err(Failure(400, LineIdNotFriend, Some(msg)))
        case Ok(_) => Ok((token.value, id))
  }

  /** An unreachable id is refused whatever the token says. */
  lemma UnreachableIdRefused(header: Option<string>, lineUserId: Option<string>, profile: string -> Result<string, string>)
    requires Present(BearerToken(header)) && Present(lineUserId) && IsLineIdFormat(NormalizeLineId(lineUserId.value))
    requires profile(NormalizeLineId(lineUserId.value)).Err?
    ensures BindCheck(header, lineUserId, profile) == Err(Failure(400, LineIdNotFriend, Some(profile(NormalizeLineId(lineUserId.value)).error)))
  {
  }

  /** UPDATE users SET <column> = v WHERE id = key RETURNING ...: the updated row, or 404. */
  method UpdateUser(db: Database, key: nat, c: Column, v: Option<string>) returns (r: Result<User, Failure>)
    modifies db
    ensures db.users == UpdateWhere(old(db.users), key, c, v)
    ensures FindUserById(old(db.users), key).None? ==> r == Err(Failure(404, UserNotFound, None))
    ensures FindUserById(old(db.users), key).Some? ==> r == Ok(SetColumn(FindUserById(old(db.users), key).value, c, v))
    ensures db.ledger == old(db.ledger) && db.pending == old(db.pending) && db.packages == old(db.packages)
    ensures db.userPackages == old(db.userPackages) && db.nextUserId == old(db.nextUserId) && db.nextPendingId == old(db.nextPendingId)
  {
    var found := FindUserById(db.users, key);
    db.users := UpdateWhere(db.users, key, c, v);
    if found.None? {
      r := Err(Failure(404, UserNotFound, None));
    } else {
      r := Ok(SetColumn(found.value, c, v));
    }
  }

  /** bindLineAccount: the checks, then the token, then the update of the token's user.
      `confirmed` is the id the confirmation push goes to; a failed push does not change the
      response. */
  method BindLineAccount(db: Database, header: Option<string>, lineUserId: Option<string>,
                         profile: string -> Result<string, string>, jwt: Jwt)
    returns (r: Result<User, Failure>, confirmed: Option<string>)
    modifies db
    ensures BindCheck(header, lineUserId, profile).Err? ==>
              r == Err(BindCheck(header, lineUserId, profile).error) && db.users == old(db.users)
    ensures BindCheck(header, lineUserId, profile).Ok? && jwt.verify(BindCheck(header, lineUserId, profile).value.0).Err? ==>
              r == Err(Caught(jwt.verify(BindCheck(header, lineUserId, profile).value.0).error, BindFailed))
              && db.users == old(db.users)
    ensures BindCheck(header, lineUserId, profile).Ok? && jwt.verify(BindCheck(header, lineUserId, profile).value.0).Ok? ==>
              var id, key := BindCheck(header, lineUserId, profile).value.1, jwt.verify(BindCheck(header, lineUserId, profile).value.0).value;
              && db.users == UpdateWhere(old(db.users), key, LineColumn, Some(id))
              && (FindUserById(old(db.users), key).None? ==> r == Err(Failure(404, UserNotFound, None)))
              && (FindUserById(old(db.users), key).Some? ==> r == Ok(FindUserById(old(db.users), key).value.(lineUserId := Some(id))))
    ensures confirmed.Some? <==> r.Ok?
    ensures r.Ok? ==> confirmed == r.value.lineUserId && IsLineIdFormat(confirmed.value)
    ensures r.Ok? ==> FindUserByLineId(db.users, confirmed.value).Some?
    ensures db.ledger == old(db.ledger) && db.pending == old(db.pending) && db.packages == old(db.packages)
    ensures db.userPackages == old(db.userPackages) && db.nextUserId == old(db.nextUserId) && db.nextPendingId == old(db.nextPendingId)
  {
    confirmed := None;
    var checked := BindCheck(header, lineUserId, profile);
    if checked.Err? {
      r := Err(checked.error);
      return;
    }
    var token, id := checked.value.0, checked.value.1;
    var decoded := jwt.verify(token);
    if decoded.Err? {
      r := Err(Caught(decoded.error, BindFailed));
      return;
    }
    var key := decoded.value;
    ghost var before := db.users;
    r := UpdateUser(db, key, LineColumn, Some(id));
    if r.Ok? {
      BoundIdIsFound(before, key, id);
      confirmed := Some(id);
    }
  }

  // ---------------------------------------------------------------- the other handlers

  /** unbindLineAccount: line_user_id becomes NULL for the token's user only. */
  method UnbindLineAccount(db: Database, header: Option<string>, jwt: Jwt) returns (r: Result<User, Failure>)
    modifies db
    ensures Authenticate(header, jwt, UnbindFailed).Err? ==>
              r == Err(Authenticate(header, jwt, UnbindFailed).error) && db.users == old(db.users)
    ensures Authenticate(header, jwt, UnbindFailed).Ok? ==>
              var key := Authenticate(header, jwt, UnbindFailed).value;
              && db.users == UpdateWhere(old(db.users), key, LineColumn, None)
              && (FindUserById(old(db.users), key).None? ==> r == Err(Failure(404, UserNotFound, None)))
              && (FindUserById(old(db.users), key).Some? ==> r == Ok(FindUserById(old(db.users), key).value.(lineUserId := None)))
    ensures db.ledger == old(db.ledger) && db.pending == old(db.pending) && db.packages == old(db.packages)
    ensures db.userPackages == old(db.userPackages) && db.nextUserId == old(db.nextUserId) && db.nextPendingId == old(db.nextPendingId)
  {
    var auth := Authenticate(header, jwt, UnbindFailed);
    if auth.Err? {
      r := Err(auth.error);
      return;
    }
    r := UpdateUser(db, auth.value, LineColumn, None);
  }

  /** setGoogleDriveFolder: google_folder_id becomes the body's folderId (NULL when absent). */
  method SetGoogleDriveFolder(db: Database, header: Option<string>, folderId: Option<string>, jwt: Jwt)
    returns (r: Result<Option<string>, Failure>)
    modifies db
    ensures Authenticate(header, jwt, SetFolderFailed).Err? ==>
              r == Err(Authenticate(header, jwt, SetFolderFailed).error) && db.users == old(db.users)
    ensures Authenticate(header, jwt, SetFolderFailed).Ok? ==>
              var key := Authenticate(header, jwt, SetFolderFailed).value;
              && db.users == UpdateWhere(old(db.users), key, FolderColumn, folderId)
              && (FindUserById(old(db.users), key).None? <==> r == Err(Failure(404, UserNotFound, None)))
              && (FindUserById(old(db.users), key).Some? <==> r == Ok(folderId))
    ensures db.ledger == old(db.ledger) && db.pending == old(db.pending) && db.packages == old(db.packages)
    ensures db.userPackages == old(db.userPackages) && db.nextUserId == old(db.nextUserId) && db.nextPendingId == old(db.nextPendingId)
  {
    var auth := Authenticate(header, jwt, SetFolderFailed);
    if auth.Err? {
      r := Err(auth.error);
      return;
    }
    var updated := UpdateUser(db, auth.value, FolderColumn, folderId);
    if updated.Err? {
      r := Err(updated.error);
    } else {
      r := Ok(updated.value.folderId);
    }
  }

  /** The `binding` object of getBindingStatus. */
  datatype Binding = Binding(lineConnected: bool, googleConnected: bool, lineUserId: Option<string>,
                             googleEmail: string, folderId: Option<string>)

  /** getBindingStatus: the two flags are IS NOT NULL tests, so an empty refresh token still counts as connected. */
  function GetBindingStatus(users: seq<User>, header: Option<string>, jwt: Jwt): (r: Result<Binding, Failure>)
    ensures Authenticate(header, jwt, StatusFailed).Err? ==> r == Err(Authenticate(header, jwt, StatusFailed).error)
    ensures Authenticate(header, jwt, StatusFailed).Ok? && FindUserById(users, Authenticate(header, jwt, StatusFailed).value).None? ==>
              r == Err(Failure(404, UserNotFound, None))
    ensures r.Ok? ==> var u := FindUserById(users, Authenticate(header, jwt, StatusFailed).value).value;
                      && (r.value.lineConnected <==> u.lineUserId.Some?)
                      && (r.value.googleConnected <==> u.refreshToken.Some?)
                      && r.value.lineUserId == u.lineUserId && r.value.googleEmail == u.googleEmail
                      && r.value.folderId == u.folderId
  {
    match Authenticate(header, jwt, StatusFailed)
    case Err(f) => Err(f)
    case Ok(key) =>
      match FindUserById(users, key)
      case None => Err(Failure(404, UserNotFound, None))
      case Some(u) => Ok(Binding(u.lineUserId.Some?, u.refreshToken.Some?, u.lineUserId, u.googleEmail, u.folderId))
  }

  /** getGoogleDriveFolders: the user's folders, once the user exists and has a refresh token. */
  function GetGoogleDriveFolders(users: seq<User>, header: Option<string>, jwt: Jwt,
                                 refresh: Option<string> -> Result<string, string>,
                                 listed: Result<seq<DriveItem>, string>): (r: Result<seq<DriveItem>, Failure>)
    ensures Authenticate(header, jwt, FoldersFailed).Err? ==> r == Err(Authenticate(header, jwt, FoldersFailed).error)
    ensures r.Ok? <==> Authenticate(header, jwt, FoldersFailed).Ok?
                       && FindUserById(users, Authenticate(header, jwt, FoldersFailed).value).Some?
                       && Present(FindUserById(users, Authenticate(header, jwt, FoldersFailed).value).value.refreshToken)
                       && refresh(FindUserById(users, Authenticate(header, jwt, FoldersFailed).value).value.refreshToken).Ok?
                       && listed.Ok?
    ensures r.Ok? ==> forall x :: x in r.value <==> x in listed.value && IsFolder(x)
    ensures Authenticate(header, jwt, FoldersFailed).Ok? && FindUserById(users, Authenticate(header, jwt, FoldersFailed).value).Some?
            && !Present(FindUserById(users, Authenticate(header, jwt, FoldersFailed).value).value.refreshToken) ==>
              r == Err(Failure(400, GoogleNotConnected, None))
  {
    match Authenticate(header, jwt, FoldersFailed)
    case Err(f) => Err(f)
    case Ok(key) =>
      match FindUserById(users, key)
      case None => Err(Failure(404, UserNotFound, None))
      case Some(u) =>
        if !Present(u.refreshToken) then Err(Failure(400, GoogleNotConnected, None))
        else match ListFolders(Processor.DriveUserOf(u), refresh, listed)
          case Err(_) => Err(Failure(500, FoldersFailed, None))
          case Ok(folders) => Ok(folders)
  }

  // ---------------------------------------------------------------- upload history

  /** The user's ledger rows in table order. */
  function RowsOf(ledger: seq<LedgerRow>, userId: nat): (r: seq<LedgerRow>)
    ensures |r| <= |ledger|
    ensures forall x :: x in r <==> x in ledger && x.userId == userId
  {
    if ledger == [] then []
    else (if ledger[0].userId == userId then [ledger[0]] else []) + RowsOf(ledger[1..], userId)
  }

  /** A row appended to the ledger joins the end of its user's rows and no one else's: the
      rows keep table order and multiplicity. */
  lemma {:induction false} RowsOfAppend(ledger: seq<LedgerRow>, x: LedgerRow, userId: nat)
    ensures RowsOf(ledger + [x], userId) == RowsOf(ledger, userId) + (if x.userId == userId then [x] else [])
  {
    if ledger == [] {
      assert [] + [x] == [x];
    } else {
      assert (ledger + [x])[1..] == ledger[1..] + [x];
      RowsOfAppend(ledger[1..], x, userId);
    }
  }

  function Reverse<T>(s: seq<T>): (r: seq<T>)
    ensures |r| == |s|
    ensures forall i :: 0 <= i < |s| ==> r[i] == s[|s| - 1 - i]
  {
    if s == [] then [] else Reverse(s[1..]) + [s[0]]
  }

  /** LIMIT limit OFFSET offset */
  function Page<T>(rows: seq<T>, limit: nat, offset: nat): (r: seq<T>)
    ensures |r| == if offset >= |rows| then 0 else if offset + limit <= |rows| then limit else |rows| - offset
    ensures forall i :: 0 <= i < |r| ==> r[i] == rows[offset + i]
  {
    if offset >= |rows| then [] else rows[offset..if offset + limit <= |rows| then offset + limit else |rows|]
  }

  /** Two consecutive pages make up the larger page that covers both. */
  lemma PagesConcatenate<T>(rows: seq<T>, a: nat, b: nat, offset: nat)
    ensures Page(rows, a, offset) + Page(rows, b, offset + a) == Page(rows, a + b, offset)
  {
    var p, q, w := Page(rows, a, offset), Page(rows, b, offset + a), Page(rows, a + b, offset);
    assert |p + q| == |w|;
    forall i | 0 <= i < |w|
      ensures (p + q)[i] == w[i]
    {
      if i >= |p| {
        assert (p + q)[i] == q[i - |p|];
      }
    }
  }

  /** The `pagination` object and the rows of one page. */
  datatype History = History(uploads: seq<LedgerRow>, total: nat, limit: nat, offset: nat, hasMore: bool)

  /** getUploadHistory: the user's rows newest first (the ledger grows in created_at order),
      one page of them, and whether rows remain after it. */
  function GetUploadHistory(ledger: seq<LedgerRow>, header: Option<string>, jwt: Jwt,
                            limit: Option<nat>, offset: Option<nat>): (r: Result<History, Failure>)
    ensures r.Ok? <==> Authenticate(header, jwt, HistoryFailed).Ok?
    ensures r.Err? ==> r.error == Authenticate(header, jwt, HistoryFailed).error
    ensures r.Ok? ==> r.value.limit == limit.GetOr(DefaultHistoryLimit) && r.value.offset == offset.GetOr(0)
    ensures r.Ok? ==> var key := Authenticate(header, jwt, HistoryFailed).value;
                      && r.value.total == |RowsOf(ledger, key)|
                      && r.value.uploads == Page(Reverse(RowsOf(ledger, key)), r.value.limit, r.value.offset)
                      && (forall x :: x in r.value.uploads ==> x in ledger && x.userId == key)
                      && |r.value.uploads| <= r.value.limit
  {
    match Authenticate(header, jwt, HistoryFailed)
    case Err(f) => Err(f)
    case Ok(key) =>
      var rows := Reverse(RowsOf(ledger, key));
      var l, o := limit.GetOr(DefaultHistoryLimit), offset.GetOr(0);
      var page := Page(rows, l, o);
      assert forall x :: x in page ==> x in rows;
      Ok(History(page, |RowsOf(ledger, key)|, l, o, o + |page| < |RowsOf(ledger, key)|))
  }

  /** hasMore is offset + limit < total; for a positive limit, exactly when the next page holds rows. */
  lemma HasMoreMeansNextPage(ledger: seq<LedgerRow>, header: Option<string>, jwt: Jwt, limit: Option<nat>, offset: Option<nat>)
    requires GetUploadHistory(ledger, header, jwt, limit, offset).Ok?
    ensures var h := GetUploadHistory(ledger, header, jwt, limit, offset).value;
            h.hasMore <==> h.offset + h.limit < h.total
    ensures var h := GetUploadHistory(ledger, header, jwt, limit, offset).value;
            var key := Authenticate(header, jwt, HistoryFailed).value;
            h.limit > 0 ==> (h.hasMore <==> Page(Reverse(RowsOf(ledger, key)), h.limit, h.offset + h.limit) != [])
  {
  }
}
