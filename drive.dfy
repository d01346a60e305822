/**
 * The storage upload client (googleDriveService): one upload attempt with a
 * token refresh first, the timestamp file-name scheme, the upload metadata,
 * the ledger write on both outcomes, and the folder listing filter.
 * Google's token endpoint and files.create/files.list are oracles: the
 * answers they give are inputs (DriveEnv).
 */
module Drive {
  import opened Wrappers
  import opened Text
  import opened Tables

  const MimeJpeg := "image/jpeg"
  const MimeFolder := "application/vnd.google-apps.folder"
  const UnknownName := "unknown"

  /** The local-time fields of `new Date()`; month is Date.getMonth(), so 0 is January. */
  datatype LocalTime = LocalTime(year: nat, month: nat, day: nat, hour: nat, minute: nat, second: nat)

  predicate ValidTime(t: LocalTime) {
    t.month < 12 && 1 <= t.day <= 31 && t.hour < 24 && t.minute < 60 && t.second < 60
  }

  /** LINE_YYYYMMDD_HHMMSS.jpg with a 1-based month and two-digit fields. */
  function TimestampName(t: LocalTime): string {
    "LINE_" + NatToDecimal(t.year) + Pad2(t.month + 1) + Pad2(t.day)
    + "_" + Pad2(t.hour) + Pad2(t.minute) + Pad2(t.second) + ".jpg"
  }

  /** Reads the fields back out of a name of the timestamp scheme with a four-digit year. */
  function ParseTimestampName(s: string): Option<LocalTime> {
    if |s| == 24 && s[..5] == "LINE_" && s[13] == '_' && s[20..] == ".jpg"
       && AllDigits(s[5..9]) && AllDigits(s[9..11]) && AllDigits(s[11..13])
       && AllDigits(s[14..16]) && AllDigits(s[16..18]) && AllDigits(s[18..20])
    then
      var month := DecimalValue(s[9..11]);
      if month == 0 then None
      else Some(LocalTime(DecimalValue(s[5..9]), month - 1, DecimalValue(s[11..13]),
                          DecimalValue(s[14..16]), DecimalValue(s[16..18]), DecimalValue(s[18..20])))
    else None
  }

  /** For a four-digit year the name is 24 characters and determines the time it was made from. */
  lemma TimestampNameRoundTrip(t: LocalTime)
    requires ValidTime(t) && 1000 <= t.year <= 9999
    ensures |TimestampName(t)| == 24
    ensures TimestampName(t)[..5] == "LINE_" && TimestampName(t)[20..] == ".jpg"
    ensures ParseTimestampName(TimestampName(t)) == Some(t)
  {
    var y := NatToDecimal(t.year);
    DecimalLength(t.year, 3);
    DecimalRoundTrip(t.year);
    Pad2RoundTrip(t.month + 1);
    Pad2RoundTrip(t.day);
    Pad2RoundTrip(t.hour);
    Pad2RoundTrip(t.minute);
    Pad2RoundTrip(t.second);
    var mo, d, h, mi, se := Pad2(t.month + 1), Pad2(t.day), Pad2(t.hour), Pad2(t.minute), Pad2(t.second);
    assert TimestampName(t) == "LINE_" + y + mo + d + "_" + h + mi + se + ".jpg";
    NameFields("LINE_", y, mo, d, "_", h, mi, se, ".jpg");
  }

  /** Where the fields of the timestamp scheme sit in a name made of pieces of those lengths. */
  lemma NameFields(p: string, y: string, mo: string, d: string, u: string, h: string, mi: string, se: string, q: string)
    requires |p| == 5 && |y| == 4 && |mo| == 2 && |d| == 2 && |u| == 1 && |h| == 2 && |mi| == 2 && |se| == 2 && |q| == 4
    ensures var s := p + y + mo + d + u + h + mi + se + q;
      && |s| == 24 && s[..5] == p && s[5..9] == y && s[9..11] == mo && s[11..13] == d && s[13] == u[0]
      && s[14..16] == h && s[16..18] == mi && s[18..20] == se && s[20..] == q
  {
    var s := p + y + mo + d + u + h + mi + se + q;
    assert s[..5] == p;
    assert s[5..9] == y;
    assert s[9..11] == mo;
    assert s[11..13] == d;
    assert s[14..16] == h;
    assert s[16..18] == mi;
    assert s[18..20] == se;
    assert s[20..] == q;
  }

  /** The request body of files.create. */
  datatype Metadata = Metadata(name: string, mimeType: string, parents: Option<seq<string>>)

  /** What files.create answers: id, name, size (absent when not reported) and view link. */
  datatype DriveFile = DriveFile(id: string, name: string, size: Option<nat>, webViewLink: string)

  /** What uploadToDrive returns on success. */
  datatype UploadResult = UploadResult(fileId: string, fileName: string, fileSize: nat, webViewLink: string)

  /** The user fields uploadToDrive reads. */
  datatype DriveUser = DriveUser(id: nat, refreshToken: Option<string>, folderId: Option<string>)

  /** The answers of the outside world during one upload attempt. Errors are their messages. */
  datatype DriveEnv = DriveEnv(
    refresh: Option<string> -> Result<string, string>,
    create: Metadata -> Result<DriveFile, string>,
    ledgerInsertOk: bool)

  /** The file name of an attempt: the caller's when truthy, else the timestamp name. */
  function ChosenName(fileName: Option<string>, now: LocalTime): string {
    if Present(fileName) then fileName.value else TimestampName(now)
  }

  /** The metadata object: fixed JPEG type, and parents only when the user has a folder. */
  function UploadMetadata(name: string, folderId: Option<string>): (m: Metadata)
    ensures m.name == name && m.mimeType == MimeJpeg
    ensures m.parents.Some? <==> Present(folderId)
    ensures m.parents.Some? ==> m.parents.value == [folderId.value]
  {
    Metadata(name, MimeJpeg, if Present(folderId) then Some([folderId.value]) else None)
  }

  /** The outcome of one upload attempt and the ledger row it records. */
  datatype Attempt = Attempt(result: Result<UploadResult, string>, row: LedgerRow)

  /** The ledger row logUpload writes for a failed attempt. */
  function FailedRow(userId: nat, fileName: Option<string>, message: string): LedgerRow {
    LedgerRow(userId, None, None, if Present(fileName) then fileName.value else UnknownName, 0, Failed, Some(message))
  }

  /** Reference definition of uploadToDrive's effect. */
  function UploadAttempt(image: seq<byte>, user: DriveUser, fileName: Option<string>, now: LocalTime, env: DriveEnv): Attempt {
    match env.refresh(user.refreshToken)
    case Err(e) => Attempt(Err(e), FailedRow(user.id, fileName, e))
    case Ok(_) =>
      var name := ChosenName(fileName, now);
      match env.create(UploadMetadata(name, user.folderId))
      case Err(e) => Attempt(Err(e), FailedRow(user.id, Some(name), e))
      case Ok(f) =>
        Attempt(Ok(UploadResult(f.id, f.name, f.size.GetOr(|image|), f.webViewLink)),
                LedgerRow(user.id, None, Some(f.id), name, |image|, Success, None))
  }

  /** The ledger row says success exactly when the attempt succeeded; a success row has the
      file id, the chosen name and the buffer length, a failure row no id, size 0 and the message. */
  lemma AttemptRowMatchesOutcome(image: seq<byte>, user: DriveUser, fileName: Option<string>, now: LocalTime, env: DriveEnv)
    ensures var a := UploadAttempt(image, user, fileName, now, env);
      && a.row.userId == user.id && a.row.lineMessageId.None?
      && (a.row.status == Success <==> a.result.Ok?)
      && (a.result.Ok? ==> a.row.fileId == Some(a.result.value.fileId) && a.row.fileSize == |image|
                           && a.row.fileName == ChosenName(fileName, now) && a.row.errorMessage.None?)
      && (a.result.Err? ==> a.row.fileId.None? && a.row.fileSize == 0 && a.row.errorMessage == Some(a.result.error))
  {
  }

  /** A refresh failure is re-thrown, is logged under the supplied name or 'unknown', and
      no answer of files.create can change the outcome: the refresh comes first. */
  lemma RefreshFailureComesFirst(image: seq<byte>, user: DriveUser, fileName: Option<string>, now: LocalTime, env: DriveEnv, other: Metadata -> Result<DriveFile, string>)
    requires env.refresh(user.refreshToken).Err?
    ensures var a := UploadAttempt(image, user, fileName, now, env);
      && a.result == Err(env.refresh(user.refreshToken).error)
      && a.row.fileName == (if Present(fileName) then fileName.value else UnknownName)
      && a == UploadAttempt(image, user, fileName, now, env.(create := other))
  {
  }

  /** A truthy caller-supplied name is used unchanged; otherwise the timestamp name is used. */
  lemma SuppliedNameKept(image: seq<byte>, user: DriveUser, fileName: Option<string>, now: LocalTime, env: DriveEnv)
    requires env.refresh(user.refreshToken).Ok?
    ensures var a := UploadAttempt(image, user, fileName, now, env);
      a.row.fileName == (if Present(fileName) then fileName.value else TimestampName(now))
  {
  }

  /** The reported size wins when present; otherwise the buffer length is reported. */
  lemma ReportedSize(image: seq<byte>, user: DriveUser, fileName: Option<string>, now: LocalTime, env: DriveEnv)
    requires UploadAttempt(image, user, fileName, now, env).result.Ok?
    ensures var f := env.create(UploadMetadata(ChosenName(fileName, now), user.folderId)).value;
      UploadAttempt(image, user, fileName, now, env).result.value.fileSize == (if f.size.Some? then f.size.value else |image|)
  {
  }

  /** logUpload: one INSERT attempt; a database error is swallowed and leaves the ledger as it was. */
  method LogUpload(db: Database, row: LedgerRow, insertOk: bool)
    modifies db
    ensures db.ledger == old(db.ledger) + (if insertOk then [row] else [])
    ensures db.users == old(db.users) && db.pending == old(db.pending) && db.nextPendingId == old(db.nextPendingId)
    ensures db.packages == old(db.packages) && db.userPackages == old(db.userPackages) && db.nextUserId == old(db.nextUserId)
  {
    if insertOk {
      db.InsertLedger(row);
    }
  }

  /** uploadToDrive: refresh, choose the name, build the metadata, upload, log, return or re-throw. */
  method UploadToDrive(db: Database, image: seq<byte>, user: DriveUser, fileName: Option<string>, now: LocalTime, env: DriveEnv)
    returns (r: Result<UploadResult, string>)
    modifies db
    ensures r == UploadAttempt(image, user, fileName, now, env).result
    ensures db.ledger == old(db.ledger) + (if env.ledgerInsertOk then [UploadAttempt(image, user, fileName, now, env).row] else [])
    ensures db.users == old(db.users) && db.pending == old(db.pending) && db.nextPendingId == old(db.nextPendingId)
    ensures db.packages == old(db.packages) && db.userPackages == old(db.userPackages) && db.nextUserId == old(db.nextUserId)
  {
    var name := fileName;
    var credentials := env.refresh(user.refreshToken);
    if credentials.Err? {
      LogUpload(db, FailedRow(user.id, name, credentials.error), env.ledgerInsertOk);
      return Err(credentials.error);
    }
    if !Present(name) {
      name := Some(TimestampName(now));
    }
    var metadata := Metadata(name.value, MimeJpeg, None);
    if Present(user.folderId) {
      metadata := metadata.(parents := Some([user.folderId.value]));
    }
    var response := env.create(metadata);
    if response.Err? {
      LogUpload(db, FailedRow(user.id, name, response.error), env.ledgerInsertOk);
      return Err(response.error);
    }
    var f := response.value;
    LogUpload(db, LedgerRow(user.id, None, Some(f.id), name.value, |image|, Success, None), env.ledgerInsertOk);
    var size := if f.size.Some? then f.size.value else |image|;
    r := Ok(UploadResult(f.id, f.name, size, f.webViewLink));
  }

  /** An entry of files.list. */
  datatype DriveItem = DriveItem(id: string, name: string, mimeType: string)

  predicate IsFolder(item: DriveItem) { item.mimeType == MimeFolder }

  /** files.filter(file => file.mimeType === folder type). */
  function FolderFilter(items: seq<DriveItem>): (r: seq<DriveItem>)
    ensures |r| <= |items|
    ensures forall x :: x in r <==> x in items && IsFolder(x)
  {
    if items == [] then []
    else (if IsFolder(items[0]) then [items[0]] else []) + FolderFilter(items[1..])
  }

  /** The filter keeps the original order: filtering a concatenation concatenates the filtered parts. */
  lemma {:induction false} FolderFilterAppend(a: seq<DriveItem>, b: seq<DriveItem>)
    ensures FolderFilter(a + b) == FolderFilter(a) + FolderFilter(b)
  {
    if a == [] {
      assert a + b == b;
    } else {
      assert (a + b)[0] == a[0];
      assert (a + b)[1..] == a[1..] + b;
      FolderFilterAppend(a[1..], b);
    }
  }

  /** listFolders: refresh, list, keep folders; an error of either call is re-thrown. */
  function ListFolders(user: DriveUser, refresh: Option<string> -> Result<string, string>, listed: Result<seq<DriveItem>, string>): (r: Result<seq<DriveItem>, string>)
    ensures r.Ok? <==> refresh(user.refreshToken).Ok? && listed.Ok?
    ensures r.Ok? ==> r.value == FolderFilter(listed.value)
    ensures refresh(user.refreshToken).Err? ==> r == Err(refresh(user.refreshToken).error)
  {
    match refresh(user.refreshToken)
    case Err(e) => Err(e)
    case Ok(_) =>
      match listed
      case Err(e) => Err(e)
      case Ok(items) => Ok(FolderFilter(items))
  }
}
