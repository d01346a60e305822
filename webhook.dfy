/**
 * The LINE webhook (lineWebhookController): dispatch of the events of one delivery, the image
 * handler (guards, quota, fetch, upload, batch, error reply and queueing for retry) and the
 * text handler (status commands). The LINE client is an oracle: it answers content fetches and
 * folder-name lookups, and says for each outgoing message whether sending it throws.
 */
module Webhook {
  import opened Wrappers
  import opened Text
  import opened Tables
  import opened Drive
  import opened Batch
  import opened Processor

  const DefaultUploadLimit: int := 10000

  /** A message handed to the LINE client: a reply to an event, or a push to a user. */
  datatype Outbound = Reply(replyToken: string, text: string) | Push(to: string, text: string)

  /** What the LINE side answers: the content stream of a message id, the folder name the
      Drive lookup returns for a folder id, and for each message the error sending it raises. */
  datatype LineEnv = LineEnv(
    content: string -> Result<seq<seq<byte>>, string>,
    folderName: string -> Result<Option<string>, string>,
    send: Outbound -> Option<string>)

  /** The moment of the event, as epoch milliseconds and as local calendar fields. */
  datatype Clock = Clock(ms: int, local: LocalTime)

  function AuthUrl(frontendUrl: string, lineUserId: string): string {
    frontendUrl + "?line_user_id=" + lineUserId
  }

  // ---- replies (the literal texts are carried as opaque constants) ----

  const NotLinkedImagePrefix := "กรุณาเชื่อมต่อบัญชี Google Drive ก่อนการใช้งาน\n\nเข้าไปที่: "
  const NoTokenPrefix := "คุณยังไม่ได้เชื่อมต่อบัญชี Google Drive\n\nกรุณาเข้าไปที่: "
  const NoFolderPrefix := "คุณยังไม่ได้เลือกโฟลเดอร์สำหรับอัพโหลดรูป\n\nกรุณาเข้าไปที่: "
  const LimitPrefix := "คุณใช้งานถึงขีดจำกัดแล้ว ("
  const LimitSuffix := " รูป)\nกรุณาติดต่อผู้ดูแลระบบ"
  const FirstPhotoText := "📸 เริ่มรับรูปแล้ว! กำลังอัพโหลดไปยัง Google Drive...\n\n💡 ส่งรูปต่อได้เลย ระบบจะสรุปให้อีกครั้งหลังจากที่คุณส่งรูปเสร็จ (รอประมาณ 5 นาที)"
  const ProcessingFailedText := "เกิดข้อผิดพลาดในการประมวลผลรูปภาพ กรุณาลองใหม่อีกครั้ง"
  const UploadErrorHeader := "❌ เกิดข้อผิดพลาดในการอัพโหลด\n\n"
  const TokenAdvice := "ปัญหา: Google Drive token หมดอายุ\nแก้ไข: กรุณาเชื่อมต่อ Google Drive ใหม่"
  const FolderAdvice := "ปัญหา: ไม่พบโฟลเดอร์ที่เลือก\nแก้ไข: กรุณาเลือกโฟลเดอร์ใหม่"
  const PermissionAdvice := "ปัญหา: ไม่มีสิทธิ์เข้าถึง Google Drive\nแก้ไข: กรุณาให้สิทธิ์ใหม่"
  const ProblemLabel := "ปัญหา: "
  const RetryLaterNote := "\n\nรูปของคุณจะถูกเก็บไว้และลองอัพโหลดใหม่ภายหลัง"

  // ---- image guards and quota ----

  /** The guards of the image handler, in the order they are checked. */
  datatype Guard = NotLinked | NoToken | NoFolder | Proceed(user: User)

  function ImageGuard(users: seq<User>, lineUserId: string): (g: Guard)
    ensures g.NotLinked? <==> FindUserByLineId(users, lineUserId).None?
    ensures g.NoToken? <==> FindUserByLineId(users, lineUserId).Some? && !Present(FindUserByLineId(users, lineUserId).value.refreshToken)
    ensures g.NoFolder? <==> FindUserByLineId(users, lineUserId).Some? && Present(FindUserByLineId(users, lineUserId).value.refreshToken)
                             && !Present(FindUserByLineId(users, lineUserId).value.folderId)
    ensures g.Proceed? ==> Some(g.user) == FindUserByLineId(users, lineUserId) && Present(g.user.refreshToken) && Present(g.user.folderId)
  {
    match FindUserByLineId(users, lineUserId)
    case None => NotLinked
    case Some(u) =>
      if !Present(u.refreshToken) then NoToken
      else if !Present(u.folderId) then NoFolder
      else Proceed(u)
  }

  /** The guidance reply of a failed guard, each with the link to the web app. */
  function GuardText(g: Guard, url: string): string {
    match g
    case NotLinked => NotLinkedImagePrefix + url
    case NoToken => NoTokenPrefix + url
    case NoFolder => NoFolderPrefix + url
    case Proceed(_) => ""
  }

  /** The upload_limit of the user's package with the latest start date, or 10000 when there is
      no such row or its limit is null (`??`: a limit of 0 stays 0). */
  function UploadLimit(ups: seq<UserPackage>, packages: seq<Package>, userId: nat): int {
    var newest := Newest(SubscriptionsOf(ups, packages, userId));
    if newest.Some? && newest.value.pkg.uploadLimit.Some? then newest.value.pkg.uploadLimit.value else DefaultUploadLimit
  }

  /** Without a package row the limit is 10000; a package that started after every other one
      of the user decides the limit, 0 included, and its null limit means 10000. */
  lemma UploadLimitOfNewest(ups: seq<UserPackage>, packages: seq<Package>, userId: nat, s: Subscription)
    requires s in SubscriptionsOf(ups, packages, userId)
    requires forall t :: t in SubscriptionsOf(ups, packages, userId) && t != s ==> t.up.startDate < s.up.startDate
    ensures UploadLimit(ups, packages, userId) == s.pkg.uploadLimit.GetOr(DefaultUploadLimit)
  {
    var newest := Newest(SubscriptionsOf(ups, packages, userId));
    var n := newest.value;
    assert s.up.startDate <= n.up.startDate;
    assert n == s;
  }

  lemma UploadLimitWithoutPackage(ups: seq<UserPackage>, packages: seq<Package>, userId: nat)
    requires forall up :: up in ups ==> up.userId != userId
    ensures UploadLimit(ups, packages, userId) == DefaultUploadLimit
  {
    var subs := SubscriptionsOf(ups, packages, userId);
    if subs != [] {
      assert subs[0] in subs;
    }
  }

  function LimitText(limit: int): string {
    LimitPrefix + IntToDecimal(limit) + LimitSuffix
  }

  // ---- error classification ----

  datatype Problem = TokenProblem | FolderProblem | PermissionProblem | OtherProblem

  /** The first matching rule wins; the substrings are case-sensitive. */
  function Classify(message: string): (p: Problem)
    ensures p == TokenProblem <==> Contains(message, "invalid_grant") || Contains(message, "Token")
    ensures p == FolderProblem <==> p != TokenProblem && (Contains(message, "File not found") || Contains(message, "folder"))
    ensures p == PermissionProblem <==> p != TokenProblem && p != FolderProblem
                                        && (Contains(message, "Insufficient Permission") || Contains(message, "permission"))
  {
    if Contains(message, "invalid_grant") || Contains(message, "Token") then TokenProblem
    else if Contains(message, "File not found") || Contains(message, "folder") then FolderProblem
    else if Contains(message, "Insufficient Permission") || Contains(message, "permission") then PermissionProblem
    else OtherProblem
  }

  /** The text pushed after a failed upload: the header, then the advice for the problem. */
  function ErrorMessage(message: string): (r: string)
    ensures IsPrefix(UploadErrorHeader, r)
  {
    UploadErrorHeader + match Classify(message)
      case TokenProblem => TokenAdvice
      case FolderProblem => FolderAdvice
      case PermissionProblem => PermissionAdvice
      case OtherProblem => ProblemLabel + message + RetryLaterNote
  }

  /** An unclassified error always shows its raw text to the user. */
  lemma ErrorMessageShowsRawText(message: string)
    requires Classify(message) == OtherProblem
    ensures Contains(ErrorMessage(message), message)
  {
    assert ErrorMessage(message) == (UploadErrorHeader + ProblemLabel) + message + RetryLaterNote;
    ContainsMiddle(UploadErrorHeader + ProblemLabel, message, RetryLaterNote);
  }

  // ---- fetching the image ----

  /** Buffer.concat(chunks). */
  function Flatten(chunks: seq<seq<byte>>): (b: seq<byte>) {
    if chunks == [] then [] else Flatten(chunks[..|chunks| - 1]) + chunks[|chunks| - 1]
  }

  /** Concatenating two runs of chunks is concatenating their buffers. */
  lemma {:induction false} FlattenAppend(a: seq<seq<byte>>, b: seq<seq<byte>>)
    ensures Flatten(a + b) == Flatten(a) + Flatten(b)
    decreases |b|
  {
    if b != [] {
      var init, last := b[..|b| - 1], b[|b| - 1];
      assert (a + b)[..|a + b| - 1] == a + init;
      assert (a + b)[|a + b| - 1] == last;
      FlattenAppend(a, init);
      assert Flatten(a + b) == (Flatten(a) + Flatten(init)) + last;
    } else {
      assert a + b == a;
    }
  }

  /** The buffer holds every byte of every chunk, in order. */
  lemma {:induction false} FlattenLength(chunks: seq<seq<byte>>, k: nat)
    requires k < |chunks|
    ensures |Flatten(chunks[..k])| + |chunks[k]| <= |Flatten(chunks)|
    ensures Flatten(chunks)[|Flatten(chunks[..k])|..|Flatten(chunks[..k])| + |chunks[k]|] == chunks[k]
  {
    assert chunks == chunks[..k] + [chunks[k]] + chunks[k + 1..];
    FlattenAppend(chunks[..k] + [chunks[k]], chunks[k + 1..]);
    FlattenAppend(chunks[..k], [chunks[k]]);
    assert Flatten([chunks[k]]) == chunks[k] by {
      assert [chunks[k]][..0] == [];
    }
  }

  /** for await (const chunk of imageStream) chunks.push(chunk); then Buffer.concat(chunks). */
  method CollectImage(stream: seq<seq<byte>>) returns (buffer: seq<byte>)
    ensures buffer == Flatten(stream)
  {
    var chunks: seq<seq<byte>> := [];
    var i := 0;
    while i < |stream|
      invariant 0 <= i <= |stream| && chunks == stream[..i]
    {
      chunks := chunks + [stream[i]];
      i := i + 1;
    }
    assert chunks == stream;
    buffer := Flatten(chunks);
  }

  /** How far the image handler gets before the upload, as the tables and the content fetch decide. */
  datatype Stage = Rejected(guard: Guard) | OverQuota(limit: int) | FetchFailed(error: string) | Fetched(user: User, image: seq<byte>)

  function ImageStage(users: seq<User>, ledger: seq<LedgerRow>, ups: seq<UserPackage>, packages: seq<Package>,
                      lineUserId: string, content: Result<seq<seq<byte>>, string>): Stage {
    var g := ImageGuard(users, lineUserId);
    if !g.Proceed? then Rejected(g)
    else if SuccessCount(ledger, g.user.id) >= UploadLimit(ups, packages, g.user.id) then OverQuota(UploadLimit(ups, packages, g.user.id))
    else if content.Err? then FetchFailed(content.error)
    else Fetched(g.user, Flatten(content.value))
  }

  /** A failed guard or an exhausted quota decides before the content is fetched: the answer of
      the fetch does not matter. An upload goes ahead only for a user with a token, a folder and
      fewer success rows than the limit. */
  lemma GuardsComeFirst(users: seq<User>, ledger: seq<LedgerRow>, ups: seq<UserPackage>, packages: seq<Package>,
                        lineUserId: string, c1: Result<seq<seq<byte>>, string>, c2: Result<seq<seq<byte>>, string>)
    ensures var st := ImageStage(users, ledger, ups, packages, lineUserId, c1);
      && (st.Rejected? || st.OverQuota? ==> ImageStage(users, ledger, ups, packages, lineUserId, c2) == st)
      && (st.Fetched? ==> Some(st.user) == FindUserByLineId(users, lineUserId)
                          && Present(st.user.refreshToken) && Present(st.user.folderId)
                          && SuccessCount(ledger, st.user.id) < UploadLimit(ups, packages, st.user.id)
                          && c1.Ok? && st.image == Flatten(c1.value))
      && (st.OverQuota? <==> ImageGuard(users, lineUserId).Proceed?
                             && SuccessCount(ledger, ImageGuard(users, lineUserId).user.id) >= UploadLimit(ups, packages, ImageGuard(users, lineUserId).user.id))
  {
  }

  /** The outer catch: the generic apology when the event has a reply token. Whether sending it
      throws is the second component: that escapes to the dispatcher. */
  function OuterCatch(replyToken: string, line: LineEnv): (seq<Outbound>, bool) {
    if replyToken != "" then ([Reply(replyToken, ProcessingFailedText)], line.send(Reply(replyToken, ProcessingFailedText)).Some?)
    else ([], false)
  }

  /** A guidance reply; when sending it throws, the outer catch runs. */
  function ReplyOrCatch(reply: Outbound, replyToken: string, line: LineEnv): (seq<Outbound>, bool) {
    if line.send(reply).None? then ([reply], false)
    else var c := OuterCatch(replyToken, line); ([reply] + c.0, c.1)
  }

  /** What one event can change: the tables and the open batch sessions. */
  datatype Snapshot = Snapshot(users: seq<User>, ledger: seq<LedgerRow>, pending: seq<PendingRow>, nextPendingId: nat,
                               userPackages: seq<UserPackage>, packages: seq<Package>, sessions: map<string, Session>)

  function SnapshotOf(db: Database, batch: BatchUploadService): Snapshot
    reads db, batch
  {
    Snapshot(db.users, db.ledger, db.pending, db.nextPendingId, db.userPackages, db.packages, batch.sessions)
  }

  /** The photo reaches the batch when the upload and the folder-name lookup both succeed. */
  predicate Batched(a: Attempt, line: LineEnv, user: User) {
    a.result.Ok? && !(Present(user.folderId) && line.folderName(user.folderId.value).Err?)
  }

  /** What the inner catch receives: the upload's error, else the folder-name lookup's, else the
      first-photo reply's; None when the inner block completes. */
  function InnerFailure(a: Attempt, line: LineEnv, user: User, lineUserId: string, replyToken: string,
                        sessions: map<string, Session>): (f: Option<string>)
    ensures !Batched(a, line, user) ==> f.Some?
    ensures Batched(a, line, user) && lineUserId in sessions ==> f.None?
  {
    if a.result.Err? then Some(a.result.error)
    else if Present(user.folderId) && line.folderName(user.folderId.value).Err? then Some(line.folderName(user.folderId.value).error)
    else if lineUserId !in sessions then line.send(Reply(replyToken, FirstPhotoText))
    else None
  }

  /** The sessions after `entry` joined the batch of `lineUserId`, every other batch untouched. */
  predicate JoinedBatch(before: map<string, Session>, after: map<string, Session>, lineUserId: string, entry: BatchUpload) {
    && after.Keys == before.Keys + {lineUserId}
    && (forall u :: u in before && u != lineUserId ==> after[u] == before[u])
    && after[lineUserId].uploads == (if lineUserId in before then before[lineUserId].uploads else []) + [entry]
  }

  /** The effect of handleImageMessage once the image is fetched: one upload attempt and its
      ledger row; the batch entry when the photo got that far; after any inner failure the
      classified push and, when the push goes through, exactly one pending row for the retry
      (also for a photo already on Drive, when only the folder lookup or the reply failed). */
  ghost predicate FetchedEffect(b: Snapshot, a: Snapshot, sent: seq<Outbound>, threw: bool, line: LineEnv, drive: DriveEnv,
                                messageId: string, lineUserId: string, replyToken: string, clock: Clock, user: User, image: seq<byte>)
  {
    var at := UploadAttempt(image, DriveUserOf(user), None, clock.local, drive);
    var failure := InnerFailure(at, line, user, lineUserId, replyToken, b.sessions);
    var inner: seq<Outbound> := if Batched(at, line, user) && lineUserId !in b.sessions then [Reply(replyToken, FirstPhotoText)] else [];
    var queued := failure.Some? && line.send(Push(lineUserId, ErrorMessage(failure.value))).None?;
    && a.ledger == LedgerAfter(b.ledger, at, drive.ledgerInsertOk, messageId)
    && (Batched(at, line, user) ==>
          JoinedBatch(b.sessions, a.sessions, lineUserId,
                      BatchUpload(at.result.value.fileName, at.result.value.fileId, at.result.value.webViewLink, clock.ms)))
    && (!Batched(at, line, user) ==> a.sessions == b.sessions)
    && a.pending == b.pending + (if queued then [PendingRow(b.nextPendingId, lineUserId, messageId, image, false, clock.ms)] else [])
    && a.nextPendingId == b.nextPendingId + (if queued then 1 else 0)
    && (failure.None? ==> sent == inner && !threw)
    && (queued ==> sent == inner + [Push(lineUserId, ErrorMessage(failure.value))] && !threw)
    && (failure.Some? && !queued ==>
          sent == inner + [Push(lineUserId, ErrorMessage(failure.value))] + OuterCatch(replyToken, line).0
          && threw == OuterCatch(replyToken, line).1)
  }

  /** A photo that is already on Drive is still queued for a retry when only the folder-name
      lookup fails: the ledger keeps its success row, the batch is left alone and one pending
      row for the same message is added. */
  lemma UploadedPhotoQueuedAgain(b: Snapshot, a: Snapshot, sent: seq<Outbound>, threw: bool, line: LineEnv, drive: DriveEnv,
                                 messageId: string, lineUserId: string, replyToken: string, clock: Clock, user: User, image: seq<byte>)
    requires FetchedEffect(b, a, sent, threw, line, drive, messageId, lineUserId, replyToken, clock, user, image)
    requires UploadAttempt(image, DriveUserOf(user), None, clock.local, drive).result.Ok?
    requires Present(user.folderId) && line.folderName(user.folderId.value).Err?
    requires line.send(Push(lineUserId, ErrorMessage(line.folderName(user.folderId.value).error))).None?
    ensures UploadAttempt(image, DriveUserOf(user), None, clock.local, drive).row.status == Success
    ensures a.sessions == b.sessions && !threw
    ensures |a.pending| == |b.pending| + 1 && a.pending[|b.pending|].messageId == messageId
    ensures a.pending[|b.pending|].lineUserId == lineUserId && a.pending[|b.pending|].image == image
  {
    AttemptRowMatchesOutcome(image, DriveUserOf(user), None, clock.local, drive);
  }

  /** The effect of handleImageMessage from the state `b` before it: a guard, the quota or a
      failed fetch changes nothing and replies; a fetched image goes as FetchedEffect says. */
  ghost predicate ImageEffect(b: Snapshot, a: Snapshot, sent: seq<Outbound>, threw: bool, line: LineEnv, drive: DriveEnv,
                              frontendUrl: string, messageId: string, lineUserId: string, replyToken: string, clock: Clock)
  {
    var st := ImageStage(b.users, b.ledger, b.userPackages, b.packages, lineUserId, line.content(messageId));
    && a.users == b.users && a.userPackages == b.userPackages && a.packages == b.packages
    && (!st.Fetched? ==> a == b)
    && (st.Rejected? ==> (sent, threw) == ReplyOrCatch(Reply(replyToken, GuardText(st.guard, AuthUrl(frontendUrl, lineUserId))), replyToken, line))
    && (st.OverQuota? ==> (sent, threw) == ReplyOrCatch(Reply(replyToken, LimitText(st.limit)), replyToken, line))
    && (st.FetchFailed? ==> (sent, threw) == OuterCatch(replyToken, line))
    && (st.Fetched? ==> FetchedEffect(b, a, sent, threw, line, drive, messageId, lineUserId, replyToken, clock, st.user, st.image))
  }

  /** The inner try block: upload at once, look up the folder name, add to the batch and reply
      only for the first photo. `failure` is what the inner catch receives. */
  method UploadAndBatch(db: Database, batch: BatchUploadService, line: LineEnv, drive: DriveEnv,
                        user: User, lineUserId: string, messageId: string, replyToken: string, image: seq<byte>, clock: Clock)
    returns (sent: seq<Outbound>, failure: Option<string>)
    requires batch.Valid()
    requires FindUserByLineId(db.users, lineUserId) == Some(user) && Present(user.folderId)
    modifies db, batch
    ensures batch.Valid()
    ensures db.pending == old(db.pending) && db.users == old(db.users) && db.nextPendingId == old(db.nextPendingId)
    ensures db.packages == old(db.packages) && db.userPackages == old(db.userPackages)
    ensures var a := UploadAttempt(image, DriveUserOf(user), None, clock.local, drive);
      db.ledger == LedgerAfter(old(db.ledger), a, drive.ledgerInsertOk, messageId)
    ensures var a := UploadAttempt(image, DriveUserOf(user), None, clock.local, drive);
      a.result.Err? ==> failure == Some(a.result.error) && sent == []
                        && batch.sessions == old(batch.sessions) && batch.nextToken == old(batch.nextToken)
    ensures var a := UploadAttempt(image, DriveUserOf(user), None, clock.local, drive);
      a.result.Ok? && line.folderName(user.folderId.value).Err? ==>
        failure == Some(line.folderName(user.folderId.value).error) && sent == []
        && batch.sessions == old(batch.sessions) && batch.nextToken == old(batch.nextToken)
    ensures var a := UploadAttempt(image, DriveUserOf(user), None, clock.local, drive);
      a.result.Ok? && line.folderName(user.folderId.value).Ok? ==>
        var first := lineUserId !in old(batch.sessions);
        && batch.sessions.Keys == old(batch.sessions).Keys + {lineUserId}
        && batch.sessions[lineUserId].uploads
           == (if first then [] else old(batch.sessions)[lineUserId].uploads)
              + [BatchUpload(a.result.value.fileName, a.result.value.fileId, a.result.value.webViewLink, clock.ms)]
        && (forall u :: u in old(batch.sessions) && u != lineUserId ==> u in batch.sessions && batch.sessions[u] == old(batch.sessions)[u])
        && sent == (if first then [Reply(replyToken, FirstPhotoText)] else [])
        && failure == (if first then line.send(Reply(replyToken, FirstPhotoText)) else None)
  {
    sent := [];
    failure := None;
    var r := ProcessUploadImmediately(db, lineUserId, messageId, image, drive, clock.local);
    if r.Err? {
      failure := Some(r.error);
      return;
    }
    var folderName: Option<string> := None;
    if Present(user.folderId) {
      var name := line.folderName(user.folderId.value);
      if name.Err? {
        failure := Some(name.error);
        return;
      }
      folderName := name.value;
    }
    var isFirstPhoto := batch.AddUploadToBatch(lineUserId, r.value, folderName, user.folderId, clock.ms);
    if isFirstPhoto {
      var reply := Reply(replyToken, FirstPhotoText);
      sent := [reply];
      failure := line.send(reply);
    }
  }

  /** The inner try block with its catch: after a failure, the classified push and then the
      image queued for a retry; a push that throws goes on to the outer catch. */
  method UploadOrQueue(db: Database, batch: BatchUploadService, line: LineEnv, drive: DriveEnv,
                       user: User, lineUserId: string, messageId: string, replyToken: string, image: seq<byte>, clock: Clock)
    returns (sent: seq<Outbound>, threw: bool)
    requires batch.Valid()
    requires FindUserByLineId(db.users, lineUserId) == Some(user) && Present(user.folderId)
    modifies db, batch
    ensures batch.Valid()
    ensures db.users == old(db.users) && db.packages == old(db.packages) && db.userPackages == old(db.userPackages)
    ensures FetchedEffect(old(SnapshotOf(db, batch)), SnapshotOf(db, batch), sent, threw, line, drive,
                          messageId, lineUserId, replyToken, clock, user, image)
  {
    threw := false;
    var innerFailure;
    sent, innerFailure := UploadAndBatch(db, batch, line, drive, user, lineUserId, messageId, replyToken, image, clock);
    if innerFailure.Some? {
      var push := Push(lineUserId, ErrorMessage(innerFailure.value));
      sent := sent + [push];
      if line.send(push).Some? {
        var c := OuterCatch(replyToken, line);
        sent, threw := sent + c.0, c.1;
        return;
      }
      db.InsertPending(lineUserId, messageId, image, clock.ms);
    }
  }

  /** handleImageMessage. `threw` says the outer catch's own reply threw, so the error reaches
      the dispatcher. */
  method HandleImageMessage(db: Database, batch: BatchUploadService, line: LineEnv, drive: DriveEnv, frontendUrl: string,
                            messageId: string, lineUserId: string, replyToken: string, clock: Clock)
    returns (sent: seq<Outbound>, threw: bool)
    requires batch.Valid()
    modifies db, batch
    ensures batch.Valid()
    ensures threw ==> replyToken != ""
    ensures ImageEffect(old(SnapshotOf(db, batch)), SnapshotOf(db, batch), sent, threw, line, drive, frontendUrl,
                        messageId, lineUserId, replyToken, clock)
  {
    threw := false;
    var url := AuthUrl(frontendUrl, lineUserId);
    var guard := ImageGuard(db.users, lineUserId);
    if !guard.Proceed? {
      var c := ReplyOrCatch(Reply(replyToken, GuardText(guard, url)), replyToken, line);
      sent, threw := c.0, c.1;
      return;
    }
    var user := guard.user;
    var uploadCount := SuccessCount(db.ledger, user.id);
    var uploadLimit := UploadLimit(db.userPackages, db.packages, user.id);
    if uploadCount >= uploadLimit {
      var c := ReplyOrCatch(Reply(replyToken, LimitText(uploadLimit)), replyToken, line);
      sent, threw := c.0, c.1;
      return;
    }
    var content := line.content(messageId);
    if content.Err? {
      var c := OuterCatch(replyToken, line);
      sent, threw := c.0, c.1;
      return;
    }
    var imageBuffer := CollectImage(content.value);
    sent, threw := UploadOrQueue(db, batch, line, drive, user, lineUserId, messageId, replyToken, imageBuffer, clock);
  }

  // ---- text messages ----

  const NotLinkedTextPrefix := "🔗 ยังไม่ได้เชื่อมกับ PixcelBOB\n\n1) แตะลิงก์ด้านล่างเพื่อเปิด PixcelBOB ภายใน LINE\n2) ทำตามขั้นตอน Login Google + เลือกโฟลเดอร์\n3) กลับมาที่แชทนี้แล้วส่งรูปอีกครั้ง\n\n"
  const StatusHeader := "✅ สถานะการเชื่อมต่อ:\n\n"
  const DriveConnectedLine := "✓ เชื่อมต่อ Google Drive แล้ว\n"
  const FolderChosenLine := "✓ เลือกโฟลเดอร์แล้ว\n"
  const EmailLabel := "✓ อีเมล: "
  const ReadyTail := "\n📸 พร้อมรับรูปภาพแล้ว!\nส่งรูปมาได้เลยค่ะ"
  const NeedsFolderText := "⚠️ เชื่อมต่อ Google Drive แล้ว\nแต่ยังไม่ได้เลือกโฟลเดอร์\n\nกรุณาเลือกโฟลเดอร์:\n"
  const NotConnectedText := "❌ ยังไม่ได้เชื่อมต่อ Google Drive\n\nกรุณาเชื่อมต่อ:\n"

  /** message.text.trim().toLowerCase() */
  function NormalizeCommand(text: string): string {
    ToLower(Trim(text))
  }

  predicate IsStatusCommand(t: string) {
    t == "สถานะ" || t == "status" || t == "เช็คสถานะ"
  }

  /** Commands ignore surrounding white space and the case of ASCII letters. */
  lemma CommandIgnoresCase(text: string)
    ensures NormalizeCommand(ToUpper(text)) == NormalizeCommand(text)
  {
    TrimUpper(text);
    LowerOfUpper(Trim(text));
  }

  /** The three branches of the status reply. */
  datatype Connection = Ready(email: string) | NeedsFolder | NotConnected

  function ConnectionOf(u: User): (c: Connection)
    ensures c.Ready? <==> Present(u.refreshToken) && Present(u.folderId)
    ensures c.NeedsFolder? <==> Present(u.refreshToken) && !Present(u.folderId)
    ensures c.Ready? ==> c.email == u.googleEmail
  {
    if Present(u.refreshToken) && Present(u.folderId) then Ready(u.googleEmail)
    else if Present(u.refreshToken) then NeedsFolder
    else NotConnected
  }

  function StatusText(c: Connection, url: string): (r: string)
    ensures c.Ready? ==> IsPrefix(StatusHeader, r)
    ensures !c.Ready? ==> |url| <= |r| && r[|r| - |url|..] == url
  {
    match c
    case Ready(email) =>
      StatusHeader + DriveConnectedLine + FolderChosenLine + (if email != "" then EmailLabel + email + "\n" else "") + ReadyTail
    case NeedsFolder => NeedsFolderText + url
    case NotConnected => NotConnectedText + url
  }

  /** The ready reply carries the email line exactly when an email is set. */
  lemma ReadyShowsEmail(email: string)
    requires email != ""
    ensures Contains(StatusText(Ready(email), ""), EmailLabel + email)
  {
    var head := StatusHeader + DriveConnectedLine + FolderChosenLine;
    var line := EmailLabel + email;
    var r := StatusText(Ready(email), "");
    assert r == head + line + ("\n" + ReadyTail);
    assert r[|head|..|head| + |line|] == line;
    ContainsAt(r, line, |head|);
  }

  /** handleTextMessage: what it replies, as a list of at most one message. Sending errors are
      caught there, so the handler never fails. */
  function TextReplies(users: seq<User>, frontendUrl: string, lineUserId: string, replyToken: string, text: string): (out: seq<Outbound>)
    ensures FindUserByLineId(users, lineUserId).None? ==> out == [Reply(replyToken, NotLinkedTextPrefix + AuthUrl(frontendUrl, lineUserId))]
    ensures FindUserByLineId(users, lineUserId).Some? ==>
      && (out == [] <==> !IsStatusCommand(NormalizeCommand(text)))
      && (out != [] ==> out == [Reply(replyToken, StatusText(ConnectionOf(FindUserByLineId(users, lineUserId).value), AuthUrl(frontendUrl, lineUserId)))])
  {
    var command := NormalizeCommand(text);
    match FindUserByLineId(users, lineUserId)
    case None => [Reply(replyToken, NotLinkedTextPrefix + AuthUrl(frontendUrl, lineUserId))]
    case Some(u) =>
      if IsStatusCommand(command) then [Reply(replyToken, StatusText(ConnectionOf(u), AuthUrl(frontendUrl, lineUserId)))] else []
  }

  // ---- dispatch ----

  datatype EventMessage = EventMessage(kind: string, id: string, text: Option<string>)
  datatype Event = Event(kind: string, message: Option<EventMessage>, userId: string, replyToken: string)

  /** What the dispatcher does with an event. A message event without a message object, or a text
      message without text, makes the property access throw. */
  datatype Action = ImageAction(messageId: string, lineUserId: string, replyToken: string)
                  | TextAction(lineUserId: string, replyToken: string, text: string)
                  | Ignore
                  | Crash

  function ActionOf(e: Event): (a: Action)
    ensures a.ImageAction? <==> e.kind == "message" && e.message.Some? && e.message.value.kind == "image"
    ensures a.TextAction? ==> e.kind == "message" && e.message.Some? && e.message.value.kind == "text" && e.message.value.text == Some(a.text)
    ensures a.Ignore? <==> e.kind != "message" || (e.message.Some? && e.message.value.kind != "image" && e.message.value.kind != "text")
  {
    if e.kind != "message" then Ignore
    else if e.message.None? then Crash
    else if e.message.value.kind == "image" then ImageAction(e.message.value.id, e.userId, e.replyToken)
    else if e.message.value.kind == "text" then
      (if e.message.value.text.Some? then TextAction(e.userId, e.replyToken, e.message.value.text.value) else Crash)
    else Ignore
  }

  /** The replies of a run of events none of which is an image or throws. */
  function TextTranscript(events: seq<Event>, users: seq<User>, frontendUrl: string): seq<Outbound> {
    if events == [] then []
    else
      var last := ActionOf(events[|events| - 1]);
      TextTranscript(events[..|events| - 1], users, frontendUrl)
      + (if last.TextAction? then TextReplies(users, frontendUrl, last.lineUserId, last.replyToken, last.text) else [])
  }

  /** The effect of one dispatched event: an image as ImageEffect says, a text its replies and
      nothing else, an ignored event nothing; a malformed message throws and changes nothing. */
  ghost predicate EventEffect(b: Snapshot, a: Snapshot, sent: seq<Outbound>, threw: bool, e: Event,
                              line: LineEnv, drive: DriveEnv, frontendUrl: string, clock: Clock)
  {
    match ActionOf(e)
    case ImageAction(m, u, r) => ImageEffect(b, a, sent, threw, line, drive, frontendUrl, m, u, r, clock)
    case TextAction(u, r, t) => a == b && !threw && sent == TextReplies(b.users, frontendUrl, u, r, t)
    case Ignore => a == b && !threw && sent == []
    case Crash => a == b && threw && sent == []
  }

  /** The messages of the events one after the other. */
  function Joined(outs: seq<seq<Outbound>>): seq<Outbound> {
    if outs == [] then [] else Joined(outs[..|outs| - 1]) + outs[|outs| - 1]
  }

  /** The body of the dispatch loop for one event: images and texts to their handlers, every
      other event ignored. `threw` says the error escapes to the dispatcher's catch. */
  method DispatchEvent(db: Database, batch: BatchUploadService, line: LineEnv, drive: DriveEnv, frontendUrl: string,
                       e: Event, clock: Clock)
    returns (sent: seq<Outbound>, threw: bool)
    requires batch.Valid()
    modifies db, batch
    ensures batch.Valid()
    ensures db.users == old(db.users)
    ensures ActionOf(e).Crash? ==> threw && sent == []
    ensures threw ==> ActionOf(e).Crash? || ActionOf(e).ImageAction?
    ensures !ActionOf(e).ImageAction? ==>
      && db.ledger == old(db.ledger) && db.pending == old(db.pending) && batch.sessions == old(batch.sessions)
      && sent == (if ActionOf(e).TextAction? then TextReplies(old(db.users), frontendUrl, ActionOf(e).lineUserId, ActionOf(e).replyToken, ActionOf(e).text) else [])
    ensures EventEffect(old(SnapshotOf(db, batch)), SnapshotOf(db, batch), sent, threw, e, line, drive, frontendUrl, clock)
  {
    sent, threw := [], false;
    match ActionOf(e)
    case ImageAction(messageId, lineUserId, replyToken) =>
      sent, threw := HandleImageMessage(db, batch, line, drive, frontendUrl, messageId, lineUserId, replyToken, clock);
    case TextAction(lineUserId, replyToken, text) =>
      sent := TextReplies(db.users, frontendUrl, lineUserId, replyToken, text);
    case Ignore =>
    case Crash =>
      threw := true;
  }

  /** Event k, dispatched from trace[k] to trace[k + 1] with the k-th answers of LINE and of the
      storage service and the k-th clock reading, sent outs[k]. */
  ghost predicate StepAt(trace: seq<Snapshot>, outs: seq<seq<Outbound>>, evs: seq<Event>, k: nat, threw: bool,
                         lines: nat -> LineEnv, drives: nat -> DriveEnv, frontendUrl: string, clocks: nat -> Clock)
    requires k < |evs| && k < |outs| && k + 1 < |trace|
  {
    EventEffect(trace[k], trace[k + 1], outs[k], threw, evs[k], lines(k), drives(k), frontendUrl, clocks(k))
  }

  /** Whether event k of a run of `n` threw: only the last one can, and only when the run crashed. */
  predicate ThrewAt(crashed: bool, k: nat, n: nat) {
    crashed && k == n - 1
  }

  /** The first `n` events were dispatched one after the other; none threw, except the last one
      when `crashed`. */
  ghost predicate Ran(trace: seq<Snapshot>, outs: seq<seq<Outbound>>, evs: seq<Event>, n: nat, crashed: bool,
                      lines: nat -> LineEnv, drives: nat -> DriveEnv, frontendUrl: string, clocks: nat -> Clock)
  {
    && n <= |evs| && |trace| == n + 1 && |outs| == n && (crashed ==> n > 0)
    && forall k: nat :: k < n ==> StepAt(trace, outs, evs, k, ThrewAt(crashed, k, n), lines, drives, frontendUrl, clocks)
  }

  /** One more dispatched event extends a clean run. */
  lemma RanStep(trace: seq<Snapshot>, outs: seq<seq<Outbound>>, evs: seq<Event>, n: nat, next: Snapshot, sent: seq<Outbound>,
                threw: bool, lines: nat -> LineEnv, drives: nat -> DriveEnv, frontendUrl: string, clocks: nat -> Clock)
    requires Ran(trace, outs, evs, n, false, lines, drives, frontendUrl, clocks) && n < |evs|
    requires EventEffect(trace[n], next, sent, threw, evs[n], lines(n), drives(n), frontendUrl, clocks(n))
    ensures Ran(trace + [next], outs + [sent], evs, n + 1, threw, lines, drives, frontendUrl, clocks)
  {
    var t, o, m := trace + [next], outs + [sent], n + 1;
    forall k: nat | k < n
      ensures StepAt(t, o, evs, k, ThrewAt(threw, k, m), lines, drives, frontendUrl, clocks)
    {
      assert StepAt(trace, outs, evs, k, ThrewAt(false, k, n), lines, drives, frontendUrl, clocks);
      assert t[k] == trace[k] && t[k + 1] == trace[k + 1] && o[k] == outs[k];
    }
    assert StepAt(t, o, evs, n, ThrewAt(threw, n, n + 1), lines, drives, frontendUrl, clocks) by {
      assert t[n] == trace[n] && t[n + 1] == next && o[n] == sent;
    }
  }

  /** The events before the one that threw were well-formed. */
  lemma RanNoCrashBefore(trace: seq<Snapshot>, outs: seq<seq<Outbound>>, evs: seq<Event>, n: nat, crashed: bool,
                         lines: nat -> LineEnv, drives: nat -> DriveEnv, frontendUrl: string, clocks: nat -> Clock)
    requires Ran(trace, outs, evs, n, crashed, lines, drives, frontendUrl, clocks)
    ensures forall k: nat :: k < n && !ThrewAt(crashed, k, n) ==> !ActionOf(evs[k]).Crash?
  {
    forall k: nat | k < n && !ThrewAt(crashed, k, n)
      ensures !ActionOf(evs[k]).Crash?
    {
      assert StepAt(trace, outs, evs, k, ThrewAt(crashed, k, n), lines, drives, frontendUrl, clocks);
    }
  }

  /** Without images, the first m events of a run leave the state alone and send the replies of
      their texts; a malformed event sends nothing. */
  lemma {:induction false} TextOnlyRun(trace: seq<Snapshot>, outs: seq<seq<Outbound>>, evs: seq<Event>, n: nat, crashed: bool,
                                       m: nat, lines: nat -> LineEnv, drives: nat -> DriveEnv, frontendUrl: string, clocks: nat -> Clock)
    requires Ran(trace, outs, evs, n, crashed, lines, drives, frontendUrl, clocks) && m <= n
    requires forall k :: 0 <= k < m ==> !ActionOf(evs[k]).ImageAction?
    ensures trace[m] == trace[0]
    ensures Joined(outs[..m]) == TextTranscript(evs[..m], trace[0].users, frontendUrl)
  {
    if m > 0 {
      TextOnlyRun(trace, outs, evs, n, crashed, m - 1, lines, drives, frontendUrl, clocks);
      assert StepAt(trace, outs, evs, m - 1, ThrewAt(crashed, m - 1, n), lines, drives, frontendUrl, clocks);
      assert evs[..m][..m - 1] == evs[..m - 1];
      assert outs[..m][..m - 1] == outs[..m - 1];
    }
  }

  /** A whole run over events none of which is an image: the state is unchanged and what was sent
      is the replies of the texts before the event that threw, if any. */
  lemma TextOnlyWebhook(trace: seq<Snapshot>, outs: seq<seq<Outbound>>, evs: seq<Event>, n: nat, crashed: bool,
                        lines: nat -> LineEnv, drives: nat -> DriveEnv, frontendUrl: string, clocks: nat -> Clock)
    requires Ran(trace, outs, evs, n, crashed, lines, drives, frontendUrl, clocks)
    requires forall k :: 0 <= k < |evs| ==> !ActionOf(evs[k]).ImageAction?
    ensures trace[n] == trace[0]
    ensures Joined(outs) == TextTranscript(evs[..if crashed then n - 1 else n], trace[0].users, frontendUrl)
  {
    TextOnlyRun(trace, outs, evs, n, crashed, n, lines, drives, frontendUrl, clocks);
    assert outs[..n] == outs;
    if crashed {
      assert StepAt(trace, outs, evs, n - 1, ThrewAt(crashed, n - 1, n), lines, drives, frontendUrl, clocks);
      assert evs[..n][..n - 1] == evs[..n - 1];
    }
  }

  /** handleWebhook: 200 at once for a missing or empty event list; otherwise the events in order,
      then 200, or 500 as soon as one throws. Event k meets the outside world as lines(k),
      drives(k) and clocks(k) say. `trace` holds the state before each dispatched event and after
      the last one, `outs` what each of them sent. */
  method HandleWebhook(db: Database, batch: BatchUploadService, lines: nat -> LineEnv, drives: nat -> DriveEnv, frontendUrl: string,
                       events: Option<seq<Event>>, clocks: nat -> Clock)
    returns (status: nat, sent: seq<Outbound>, ghost handled: nat, ghost trace: seq<Snapshot>, ghost outs: seq<seq<Outbound>>)
    requires batch.Valid()
    modifies db, batch
    ensures batch.Valid()
    ensures status == 200 || status == 500
    ensures events.None? || events.value == [] ==>
      status == 200 && sent == [] && SnapshotOf(db, batch) == old(SnapshotOf(db, batch))
    ensures events.Some? ==> handled <= |events.value|
    ensures status == 200 && events.Some? ==> handled == |events.value|
    ensures status == 500 ==> events.Some? && handled < |events.value|
                              && (ActionOf(events.value[handled]).Crash? || ActionOf(events.value[handled]).ImageAction?)
    ensures events.Some? ==>
      var ran := if status == 500 then handled + 1 else handled;
      && |trace| == ran + 1 && |outs| == ran
      && trace[0] == old(SnapshotOf(db, batch)) && trace[ran] == SnapshotOf(db, batch)
      && sent == Joined(outs)
      && Ran(trace, outs, events.value, ran, status == 500, lines, drives, frontendUrl, clocks)
    ensures events.Some? ==> forall k :: 0 <= k < handled ==> !ActionOf(events.value[k]).Crash?
    ensures events.Some? && (exists k :: 0 <= k < |events.value| && ActionOf(events.value[k]).Crash?) ==> status == 500
    ensures events.Some? && (forall k :: 0 <= k < |events.value| ==> !ActionOf(events.value[k]).ImageAction?) ==>
      && db.ledger == old(db.ledger) && db.pending == old(db.pending) && batch.sessions == old(batch.sessions)
      && sent == TextTranscript(events.value[..handled], old(db.users), frontendUrl)
    ensures db.users == old(db.users)
  {
    sent := [];
    handled := 0;
    trace := [SnapshotOf(db, batch)];
    outs := [];
    if events.None? || |events.value| == 0 {
      return 200, [], 0, trace, outs;
    }
    var evs := events.value;
    var n := 0;
    var crashed := false;
    while n < |evs| && !crashed
      invariant n <= |evs|
      invariant batch.Valid()
      invariant Ran(trace, outs, evs, n, crashed, lines, drives, frontendUrl, clocks)
      invariant trace[0] == old(SnapshotOf(db, batch)) && trace[n] == SnapshotOf(db, batch)
      invariant sent == Joined(outs)
      invariant db.users == old(db.users)
      invariant crashed ==> ActionOf(evs[n - 1]).Crash? || ActionOf(evs[n - 1]).ImageAction?
    {
      var s, threw := DispatchEvent(db, batch, lines(n), drives(n), frontendUrl, evs[n], clocks(n));
      RanStep(trace, outs, evs, n, SnapshotOf(db, batch), s, threw, lines, drives, frontendUrl, clocks);
      assert (outs + [s])[..n] == outs;
      trace, outs, sent := trace + [SnapshotOf(db, batch)], outs + [s], sent + s;
      n, crashed := n + 1, threw;
    }
    RanNoCrashBefore(trace, outs, evs, n, crashed, lines, drives, frontendUrl, clocks);
    if forall k :: 0 <= k < |evs| ==> !ActionOf(evs[k]).ImageAction? {
      TextOnlyWebhook(trace, outs, evs, n, crashed, lines, drives, frontendUrl, clocks);
    }
    status := if crashed then 500 else 200;
    handled := if crashed then n - 1 else n;
  }
}
