/**
 * The batch aggregator (BatchUploadService): an in-memory map from LINE user id
 * to a session of uploads. Each upload resets the session's single inactivity
 * timer; when the timer fires, one summary message is composed and the session
 * is removed. The JavaScript timer becomes an explicit token: a fresh token per
 * add, cleared on the next add, and FireTimer runs the callback of a live token.
 */
module Batch {
  import opened Wrappers
  import opened Text
  import opened Tables
  import opened Drive

  /** BATCH_TIMEOUT: five minutes in milliseconds. */
  const BatchTimeout: int := 5 * 60 * 1000

  const MyDriveUrl := "https://drive.google.com/drive/my-drive"
  const FolderUrlPrefix := "https://drive.google.com/drive/folders/"

  /** One entry of session.uploads; timestamps are milliseconds. */
  datatype BatchUpload = BatchUpload(fileName: string, fileId: string, webViewLink: string, timestamp: int)

  /** A pending setTimeout: its handle and the time it is due. */
  datatype Timer = Timer(token: nat, dueAt: int)

  datatype Session = Session(
    uploads: seq<BatchUpload>,
    startTime: int,
    timer: Option<Timer>,
    folderName: Option<string>,
    folderId: Option<string>)

  /** getBatchStatus's answer. */
  datatype BatchStatus = BatchStatus(photoCount: nat, startTime: int, timeElapsed: int)

  /** A line of the summary's file listing: a numbered file name or the "and N more" marker. */
  datatype ListingLine = Entry(number: nat, fileName: string) | More(hidden: nat)

  function Names(uploads: seq<BatchUpload>): (names: seq<string>)
    ensures |names| == |uploads|
    ensures forall i :: 0 <= i < |uploads| ==> names[i] == uploads[i].fileName
  {
    seq(|uploads|, i requires 0 <= i < |uploads| => uploads[i].fileName)
  }

  /** Names numbered consecutively from `first`. */
  function Numbered(names: seq<string>, first: nat): (r: seq<ListingLine>)
    ensures |r| == |names|
    ensures forall i :: 0 <= i < |names| ==> r[i] == Entry(first + i, names[i])
  {
    if names == [] then []
    else Numbered(names[..|names| - 1], first) + [Entry(first + |names| - 1, names[|names| - 1])]
  }

  /** The listing: everything up to six files, else the first three, a marker and the last three. */
  function Listing(names: seq<string>): seq<ListingLine> {
    if |names| <= 6 then Numbered(names, 1)
    else Numbered(names[..3], 1) + [More(|names| - 6)] + Numbered(names[|names| - 3..], |names| - 2)
  }

  /** Up to six uploads, every file is listed, numbered 1..n, in order. */
  lemma ListingShort(names: seq<string>)
    requires |names| <= 6
    ensures |Listing(names)| == |names|
    ensures forall i :: 0 <= i < |names| ==> Listing(names)[i] == Entry(i + 1, names[i])
  {
  }

  /** Beyond six: entries 1..3, the marker carrying n - 6, then entries n-2..n for the last three files. */
  lemma ListingLong(names: seq<string>)
    requires |names| > 6
    ensures var n, l := |names|, Listing(names);
      && |l| == 7
      && (forall i :: 0 <= i < 3 ==> l[i] == Entry(i + 1, names[i]))
      && l[3] == More(n - 6)
      && (forall j :: 4 <= j < 7 ==> l[j] == Entry(n - 6 + j, names[n - 7 + j]))
  {
  }

  /** The listing accounts for every upload: listed entries plus the hidden count make n. */
  lemma ListingAccountsForAll(names: seq<string>)
    ensures var l := Listing(names);
      |names| == (if |names| <= 6 then |l| else |l| - 1 + l[3].hidden)
  {
  }

  function RenderLine(l: ListingLine): string {
    match l
    case Entry(k, f) => NatToDecimal(k) + ". " + f + "\n"
    case More(m) => "... และอีก " + NatToDecimal(m) + " ไฟล์\n"
  }

  function Render(ls: seq<ListingLine>): string {
    if ls == [] then "" else Render(ls[..|ls| - 1]) + RenderLine(ls[|ls| - 1])
  }

  lemma RenderSnoc(ls: seq<ListingLine>, l: ListingLine)
    ensures Render(ls + [l]) == Render(ls) + RenderLine(l)
  {
    assert (ls + [l])[..|ls|] == ls;
  }

  /** The "see all photos" link: the folder's page when a folder id is set, else My Drive. */
  function FolderLink(folderId: Option<string>): string {
    if Present(folderId) then FolderUrlPrefix + folderId.value else MyDriveUrl
  }

  /** Reads the folder id back out of a link; None for the My Drive link. */
  function FolderIdOfLink(link: string): Option<string> {
    if IsPrefix(FolderUrlPrefix, link) && |link| > |FolderUrlPrefix| then Some(link[|FolderUrlPrefix|..]) else None
  }

  /** The link names the session's folder exactly when one is set. */
  lemma FolderLinkRoundTrip(folderId: Option<string>)
    ensures FolderIdOfLink(FolderLink(folderId)) == (if Present(folderId) then folderId else None)
  {
    if Present(folderId) {
      assert FolderLink(folderId)[..|FolderUrlPrefix|] == FolderUrlPrefix;
      assert FolderLink(folderId)[|FolderUrlPrefix|..] == folderId.value;
    } else {
      assert FolderLink(folderId) == MyDriveUrl;
      assert MyDriveUrl[..|FolderUrlPrefix|] != FolderUrlPrefix by {
        assert MyDriveUrl[31] != FolderUrlPrefix[31];
      }
    }
  }

  /** Math.floor(elapsed ms / 1000 / 60): whole minutes, rounded down. */
  function ElapsedMinutes(startTime: int, now: int): int {
    (now - startTime) / 60000
  }

  lemma ElapsedMinutesFloor(startTime: int, now: int)
    ensures ElapsedMinutes(startTime, now) * 60000 <= now - startTime < (ElapsedMinutes(startTime, now) + 1) * 60000
  {
  }

  const SummaryTitle := "✅ อัพโหลดเสร็จสิ้น!\n\n"
  const AllFilesHeading := "📸 ไฟล์ที่อัพโหลด:\n"
  const SampleHeading := "📸 ตัวอย่างไฟล์:\n"

  /** Everything above the listing: count, duration, folder name when known, link. */
  function SummaryHeader(s: Session, now: int): string {
    SummaryTitle
    + "📊 สรุป: อัพโหลดสำเร็จ " + NatToDecimal(|s.uploads|) + " รูป\n"
    + "⏱️ ใช้เวลา: " + IntToDecimal(ElapsedMinutes(s.startTime, now)) + " นาที\n"
    + (if Present(s.folderName) then "📁 โฟลเดอร์: " + s.folderName.value + "\n" else "")
    + "\n🔗 ดูรูปทั้งหมด:\n" + FolderLink(s.folderId) + "\n\n"
  }

  /** The whole summary text for a session at time `now`. */
  function SummaryMessage(s: Session, now: int): string {
    SummaryHeader(s, now)
    + (if |s.uploads| <= 6 then AllFilesHeading else SampleHeading)
    + Render(Listing(Names(s.uploads)))
  }

  /** Numbering one more name adds exactly its line at the end. */
  lemma RenderNumberedStep(names: seq<string>, i: nat, first: nat)
    requires i < |names|
    ensures Render(Numbered(names[..i + 1], first)) == Render(Numbered(names[..i], first)) + RenderLine(Entry(first + i, names[i]))
  {
    assert names[..i + 1][..i] == names[..i];
    RenderSnoc(Numbered(names[..i], first), Entry(first + i, names[i]));
  }

  /** One forEach of the listing: appends `count` numbered lines, starting at upload `from`. */
  method AppendEntries(message: string, uploads: seq<BatchUpload>, from: nat, count: nat, firstNumber: nat)
    returns (m: string)
    requires from + count <= |uploads|
    ensures m == message + Render(Numbered(Names(uploads)[from..from + count], firstNumber))
  {
    ghost var names := Names(uploads)[from..from + count];
    m := message;
    var i := 0;
    while i < count
      invariant 0 <= i <= count
      invariant m == message + Render(Numbered(names[..i], firstNumber))
    {
      var line := RenderLine(Entry(firstNumber + i, uploads[from + i].fileName));
      AppendEntryStep(message, names, i, firstNumber, uploads[from + i].fileName);
      m := m + line;
      i := i + 1;
    }
    assert names[..count] == names;
  }

  /** One trip of AppendEntries' loop: the next numbered line extends the rendered prefix. */
  lemma AppendEntryStep(message: string, names: seq<string>, i: nat, firstNumber: nat, file: string)
    requires i < |names| && names[i] == file
    ensures message + Render(Numbered(names[..i], firstNumber)) + RenderLine(Entry(firstNumber + i, file))
            == message + Render(Numbered(names[..i + 1], firstNumber))
  {
    RenderNumberedStep(names, i, firstNumber);
    ConcatAssoc(message, Render(Numbered(names[..i], firstNumber)), RenderLine(Entry(firstNumber + i, file)));
  }

  /** sendBatchSummary's message: the header, then the listing appended line by line. */
  method ComposeSummary(s: Session, now: int) returns (message: string)
    ensures message == SummaryMessage(s, now)
  {
    var totalPhotos := |s.uploads|;
    ghost var names := Names(s.uploads);
    message := SummaryHeader(s, now);
    ghost var header := message;
    if totalPhotos <= 6 {
      message := message + AllFilesHeading;
      message := AppendEntries(message, s.uploads, 0, totalPhotos, 1);
      assert names[0..totalPhotos] == names;
    } else {
      message := message + SampleHeading;
      message := AppendEntries(message, s.uploads, 0, 3, 1);
      assert names[0..3] == names[..3];
      var marker := RenderLine(More(totalPhotos - 6));
      RenderSnoc(Numbered(names[..3], 1), More(totalPhotos - 6));
      ConcatAssoc(header + SampleHeading, Render(Numbered(names[..3], 1)), marker);
      message := message + marker;
      ghost var front := Numbered(names[..3], 1) + [More(totalPhotos - 6)];
      assert message == header + SampleHeading + Render(front);
      var lastIndex := totalPhotos - 3;
      message := AppendEntries(message, s.uploads, lastIndex, 3, lastIndex + 1);
      assert names[lastIndex..lastIndex + 3] == names[totalPhotos - 3..];
      ghost var back := Numbered(names[totalPhotos - 3..], totalPhotos - 2);
      RenderAppend(front, back);
      ConcatAssoc(header + SampleHeading, Render(front), Render(back));
      assert front + back == Listing(names);
    }
  }

  lemma {:induction false} RenderAppend(a: seq<ListingLine>, b: seq<ListingLine>)
    ensures Render(a + b) == Render(a) + Render(b)
    decreases |b|
  {
    if b == [] {
      assert a + b == a;
    } else {
      var init, last := b[..|b| - 1], b[|b| - 1];
      assert a + b == (a + init) + [last];
      RenderSnoc(a + init, last);
      RenderAppend(a, init);
      assert b == init + [last];
      RenderSnoc(init, last);
      ConcatAssoc(Render(a), Render(init), RenderLine(last));
    }
  }

  class BatchUploadService {
    var sessions: map<string, Session>
    /** The next setTimeout handle. */
    var nextToken: nat

    /** Every stored timer token was handed out before, so a new token is unlike all of them;
        a session waits on a timer only once it holds an upload. */
    ghost predicate Valid()
      reads this
    {
      forall u :: u in sessions && sessions[u].timer.Some? ==>
        sessions[u].timer.value.token < nextToken && sessions[u].uploads != []
    }

    constructor()
      ensures Valid() && sessions == map[] && nextToken == 0
    {
      sessions := map[];
      nextToken := 0;
    }

    /** True when `token` is the timer the session of `user` is waiting on. */
    predicate LiveTimer(user: string, token: nat)
      reads this
    {
      user in sessions && sessions[user].timer.Some? && sessions[user].timer.value.token == token
    }

    /** startOrContinueBatch: a new empty session for a first photo; otherwise the pending timer is cleared. */
    method StartOrContinueBatch(user: string, now: int) returns (isFirstPhoto: bool)
      requires Valid()
      modifies this
      ensures Valid()
      ensures isFirstPhoto == (user !in old(sessions))
      ensures sessions == old(sessions)[user := if isFirstPhoto then Session([], now, None, None, None)
                                                else old(sessions)[user].(timer := None)]
      ensures nextToken == old(nextToken)
    {
      if user !in sessions {
        sessions := sessions[user := Session([], now, None, None, None)];
        isFirstPhoto := true;
      } else {
        sessions := sessions[user := sessions[user].(timer := None)];
        isFirstPhoto := false;
      }
    }

    /** addUploadToBatch: append one entry, refresh the cached folder, set a fresh timer. */
    method AddUploadToBatch(user: string, result: UploadResult, folderName: Option<string>, folderId: Option<string>, now: int)
      returns (isFirstPhoto: bool)
      requires Valid()
      modifies this
      ensures Valid()
      ensures isFirstPhoto == (user !in old(sessions))
      ensures sessions.Keys == old(sessions).Keys + {user}
      ensures forall u :: u in old(sessions) && u != user ==> sessions[u] == old(sessions)[u]
      ensures var s := sessions[user];
        && s.uploads == (if isFirstPhoto then [] else old(sessions)[user].uploads)
                        + [BatchUpload(result.fileName, result.fileId, result.webViewLink, now)]
        && s.startTime == (if isFirstPhoto then now else old(sessions)[user].startTime)
        && s.folderName == (if Present(folderName) then folderName
                            else if isFirstPhoto then None else old(sessions)[user].folderName)
        && s.folderId == (if Present(folderId) then folderId
                          else if isFirstPhoto then None else old(sessions)[user].folderId)
        && s.timer == Some(Timer(old(nextToken), now + BatchTimeout))
      ensures nextToken == old(nextToken) + 1
      ensures forall u, t :: old(LiveTimer(u, t)) ==> t != old(nextToken)
    {
      isFirstPhoto := StartOrContinueBatch(user, now);
      var session := sessions[user];
      session := session.(uploads := session.uploads + [BatchUpload(result.fileName, result.fileId, result.webViewLink, now)]);
      if Present(folderName) {
        session := session.(folderName := folderName);
      }
      if Present(folderId) {
        session := session.(folderId := folderId);
      }
      session := session.(timer := Some(Timer(nextToken, now + BatchTimeout)));
      sessions := sessions[user := session];
      nextToken := nextToken + 1;
    }

    /** sendBatchSummary: nothing for a missing or empty session; otherwise the summary is pushed
        and the session is removed, whether or not the push succeeds. */
    method SendBatchSummary(user: string, now: int) returns (message: Option<string>)
      requires Valid()
      modifies this
      ensures Valid()
      ensures user !in old(sessions) || old(sessions)[user].uploads == [] ==>
        message == None && sessions == old(sessions)
      ensures user in old(sessions) && old(sessions)[user].uploads != [] ==>
        message == Some(SummaryMessage(old(sessions)[user], now)) && sessions == old(sessions) - {user}
      ensures nextToken == old(nextToken)
    {
      if user !in sessions || sessions[user].uploads == [] {
        return None;
      }
      var text := ComposeSummary(sessions[user], now);
      message := Some(text);
      sessions := sessions - {user};
    }

    /** The runtime runs the callback of timer `token` for `user` once it is due. A cleared
        timer never runs, so only the token set by the latest add can send a summary. */
    method FireTimer(user: string, token: nat, now: int) returns (message: Option<string>)
      requires Valid()
      requires LiveTimer(user, token) ==> now >= sessions[user].timer.value.dueAt
      modifies this
      ensures Valid()
      ensures !old(LiveTimer(user, token)) ==> message == None && sessions == old(sessions)
      ensures old(LiveTimer(user, token)) ==>
        message == Some(SummaryMessage(old(sessions)[user], now)) && sessions == old(sessions) - {user}
      ensures nextToken == old(nextToken)
    {
      if !LiveTimer(user, token) {
        return None;
      }
      message := SendBatchSummary(user, now);
    }

    /** getBatchStatus: read-only; null exactly when there is no session. */
    function GetBatchStatus(user: string, now: int): (r: Option<BatchStatus>)
      reads this
      ensures r.None? <==> user !in sessions
      ensures r.Some? ==> r.value.photoCount == |sessions[user].uploads|
                          && r.value.startTime == sessions[user].startTime
                          && r.value.timeElapsed * 1000 <= now - sessions[user].startTime < (r.value.timeElapsed + 1) * 1000
    {
      if user !in sessions then None
      else Some(BatchStatus(|sessions[user].uploads|, sessions[user].startTime, (now - sessions[user].startTime) / 1000))
    }

    /** cancelBatch: clear the timer and drop the session without sending; no-op for absent users. */
    method CancelBatch(user: string)
      requires Valid()
      modifies this
      ensures Valid()
      ensures sessions == old(sessions) - {user}
      ensures nextToken == old(nextToken)
    {
      sessions := sessions - {user};
    }
  }
}

/** Usage of the aggregator as the webhook drives it: what a caller can conclude from the contracts alone. */
module BatchScenarios {
  import opened Wrappers
  import opened Drive
  import opened Batch

  function Entry(r: UploadResult, at: int): BatchUpload {
    BatchUpload(r.fileName, r.fileId, r.webViewLink, at)
  }

  /** Three photos seconds apart: only the first call reports a first photo, the timers of the
      first two adds can no longer fire, and the last timer sends one summary of all three. */
  method BurstOfThree(r1: UploadResult, r2: UploadResult, r3: UploadResult)
    returns (firsts: seq<bool>, early: Option<string>, summary: Option<string>)
    ensures firsts == [true, false, false]
    ensures early == None
    ensures summary == Some(SummaryMessage(
      Session([Entry(r1, 0), Entry(r2, 1000), Entry(r3, 2000)], 0, Some(Timer(2, 2000 + BatchTimeout)), None, Some("F")),
      2000 + BatchTimeout))
  {
    var b := new BatchUploadService();
    var f1 := b.AddUploadToBatch("U1", r1, None, Some("F"), 0);
    var f2 := b.AddUploadToBatch("U1", r2, None, Some("F"), 1000);
    var f3 := b.AddUploadToBatch("U1", r3, None, Some("F"), 2000);
    firsts := [f1, f2, f3];
    ghost var s := Session([Entry(r1, 0), Entry(r2, 1000), Entry(r3, 2000)], 0, Some(Timer(2, 2000 + BatchTimeout)), None, Some("F"));
    assert b.sessions["U1"].uploads == s.uploads;
    assert b.sessions["U1"] == s;
    early := b.FireTimer("U1", 0, BatchTimeout);
    assert b.sessions["U1"] == s;
    summary := b.FireTimer("U1", 2, 2000 + BatchTimeout);
  }

  /** Two photos more than a window apart: two sessions, two summaries, one photo each,
      and both calls report a first photo. */
  method TwoWindows(r1: UploadResult, r2: UploadResult)
    returns (firsts: seq<bool>, first: Option<string>, second: Option<string>)
    ensures firsts == [true, true]
    ensures first == Some(SummaryMessage(Session([Entry(r1, 0)], 0, Some(Timer(0, BatchTimeout)), None, None), BatchTimeout))
    ensures second == Some(SummaryMessage(
      Session([Entry(r2, 2 * BatchTimeout)], 2 * BatchTimeout, Some(Timer(1, 3 * BatchTimeout)), None, None), 3 * BatchTimeout))
  {
    var b := new BatchUploadService();
    var f1 := b.AddUploadToBatch("U1", r1, None, None, 0);
    assert b.sessions["U1"] == Session([Entry(r1, 0)], 0, Some(Timer(0, BatchTimeout)), None, None);
    first := b.FireTimer("U1", 0, BatchTimeout);
    assert b.sessions == map[];
    var f2 := b.AddUploadToBatch("U1", r2, None, None, 2 * BatchTimeout);
    assert b.sessions["U1"] == Session([Entry(r2, 2 * BatchTimeout)], 2 * BatchTimeout, Some(Timer(1, 3 * BatchTimeout)), None, None);
    second := b.FireTimer("U1", 1, 3 * BatchTimeout);
    firsts := [f1, f2];
  }
}
