/**
 * The upload processor (uploadProcessorService): the immediate upload used by
 * the webhook, and the retry pass over pending_uploads that gives each queued
 * image exactly one more attempt.
 */
module Processor {
  import opened Wrappers
  import opened Tables
  import opened Drive

  /** LIMIT 10 of the retry query. */
  const RetryBatchLimit: nat := 10
  const UserNotFound := "User not found"

  /** A row of the retry query: the pending row joined with its user. */
  datatype Selected = Selected(row: PendingRow, user: User)

  function DriveUserOf(u: User): DriveUser {
    DriveUser(u.id, u.refreshToken, u.folderId)
  }

  /** The users the JOIN pairs with a LINE id: every row holding it, in table order. */
  function UsersWithLineId(users: seq<User>, lineUserId: string): (r: seq<User>)
    ensures |r| <= |users|
  {
    if users == [] then []
    else (if users[0].lineUserId == Some(lineUserId) then [users[0]] else []) + UsersWithLineId(users[1..], lineUserId)
  }

  /** The JOIN partners of a LINE id are exactly the users holding it; there are none exactly
      when the webhook's lookup finds none, and the first is the one it finds. */
  lemma {:induction false} UsersWithLineIdMembers(users: seq<User>, lineUserId: string)
    ensures var r := UsersWithLineId(users, lineUserId);
      && (forall u :: u in r <==> u in users && u.lineUserId == Some(lineUserId))
      && (r == [] <==> FindUserByLineId(users, lineUserId).None?)
      && (r != [] ==> Some(r[0]) == FindUserByLineId(users, lineUserId))
  {
    if users != [] {
      UsersWithLineIdMembers(users[1..], lineUserId);
      assert users == [users[0]] + users[1..];
    }
  }

  /** One joined row per user, all with the same pending row. */
  function Pair(p: PendingRow, us: seq<User>): (r: seq<Selected>)
    ensures |r| == |us|
  {
    if us == [] then [] else [Selected(p, us[0])] + Pair(p, us[1..])
  }

  lemma {:induction false} PairMembers(p: PendingRow, us: seq<User>)
    ensures forall s :: s in Pair(p, us) <==> s.row == p && s.user in us
  {
    if us != [] {
      PairMembers(p, us[1..]);
      assert us == [us[0]] + us[1..];
    }
  }

  lemma MulStep(a: nat, b: nat)
    requires a > 0
    ensures a * b == b + (a - 1) * b
  {
  }

  /** WHERE pu.processed = false, joined with users on the LINE id: one row per pending row
      and user holding its LINE id, in table order. */
  function Eligible(pending: seq<PendingRow>, users: seq<User>): (r: seq<Selected>)
    ensures |r| <= |pending| * |users|
  {
    if pending == [] then []
    else
      MulStep(|pending|, |users|);
      (if !pending[0].processed then Pair(pending[0], UsersWithLineId(users, pending[0].lineUserId)) else [])
      + Eligible(pending[1..], users)
  }

  /** A joined row exists exactly for each unprocessed pending row and each user holding its LINE id. */
  lemma {:induction false} EligibleMembers(pending: seq<PendingRow>, users: seq<User>)
    ensures forall s :: s in Eligible(pending, users) <==>
      (s.row in pending && !s.row.processed && s.user in users && s.user.lineUserId == Some(s.row.lineUserId))
  {
    if pending != [] {
      EligibleMembers(pending[1..], users);
      PairMembers(pending[0], UsersWithLineId(users, pending[0].lineUserId));
      UsersWithLineIdMembers(users, pending[0].lineUserId);
      assert pending == [pending[0]] + pending[1..];
    }
  }

  /** No two users hold the same LINE id. */
  predicate UniqueLineIds(users: seq<User>) {
    forall i, j :: 0 <= i < j < |users| && users[i].lineUserId.Some? ==> users[i].lineUserId != users[j].lineUserId
  }

  lemma {:induction false} UniqueLineIdOneUser(users: seq<User>, lineUserId: string)
    requires UniqueLineIds(users)
    ensures |UsersWithLineId(users, lineUserId)| <= 1
  {
    if users != [] {
      var tail := users[1..];
      assert UniqueLineIds(tail) by {
        forall i, j | 0 <= i < j < |tail| && tail[i].lineUserId.Some?
          ensures tail[i].lineUserId != tail[j].lineUserId
        {
          assert tail[i] == users[i + 1] && tail[j] == users[j + 1];
        }
      }
      if users[0].lineUserId == Some(lineUserId) {
        UsersWithLineIdMembers(tail, lineUserId);
        forall u | u in tail
          ensures u.lineUserId != Some(lineUserId)
        {
          var j :| 0 <= j < |tail| && tail[j] == u;
          assert users[j + 1] == u;
        }
      } else {
        UniqueLineIdOneUser(tail, lineUserId);
      }
    }
  }

  /** While no two users share a LINE id, each pending row is joined at most once. */
  lemma {:induction false} UniqueLineIdsJoinOnce(pending: seq<PendingRow>, users: seq<User>)
    requires UniqueLineIds(users)
    ensures |Eligible(pending, users)| <= |pending|
  {
    if pending != [] {
      UniqueLineIdOneUser(users, pending[0].lineUserId);
      UniqueLineIdsJoinOnce(pending[1..], users);
    }
  }

  /** A pending row whose LINE id two users hold is joined twice, once with each of them,
      and both joined rows count against the LIMIT. */
  lemma SharedLineIdJoinedTwice(p: PendingRow, u1: User, u2: User)
    requires !p.processed && u1.lineUserId == Some(p.lineUserId) && u2.lineUserId == Some(p.lineUserId)
    ensures Eligible([p], [u1, u2]) == [Selected(p, u1), Selected(p, u2)]
    ensures SelectPending([p], [u1, u2]) == [Selected(p, u1), Selected(p, u2)]
  {
    assert [u1, u2][1..] == [u2];
    assert UsersWithLineId([u1, u2], p.lineUserId) == [u1, u2];
    assert [p][1..] == [];
    var e := [Selected(p, u1), Selected(p, u2)];
    assert Pair(p, [u1, u2]) == e;
    assert Eligible([p], [u1, u2]) == Pair(p, [u1, u2]) + Eligible([], [u1, u2]);
    assert e[1..] == [Selected(p, u2)];
    assert SortByAge([Selected(p, u2)]) == [Selected(p, u2)];
  }

  ghost predicate SortedByAge(s: seq<Selected>) {
    forall i, j :: 0 <= i < j < |s| ==> s[i].row.createdAt <= s[j].row.createdAt
  }

  lemma SortedCons(a: Selected, s: seq<Selected>)
    requires SortedByAge(s)
    requires s != [] ==> a.row.createdAt <= s[0].row.createdAt
    ensures SortedByAge([a] + s)
  {
    var t := [a] + s;
    forall i, j | 0 <= i < j < |t|
      ensures t[i].row.createdAt <= t[j].row.createdAt
    {
      if i == 0 {
        assert t[j] == s[j - 1];
        if j > 1 {
          assert s[0].row.createdAt <= s[j - 1].row.createdAt;
        }
      } else {
        assert t[i] == s[i - 1] && t[j] == s[j - 1];
      }
    }
  }

  function InsertByAge(x: Selected, sorted: seq<Selected>): (r: seq<Selected>)
    requires SortedByAge(sorted)
    ensures SortedByAge(r)
    ensures multiset(r) == multiset(sorted) + multiset{x}
    ensures |r| == |sorted| + 1
    ensures r[0] == x || (sorted != [] && r[0] == sorted[0])
  {
    if sorted == [] || x.row.createdAt <= sorted[0].row.createdAt then
      SortedCons(x, sorted);
      [x] + sorted
    else
      var tail := sorted[1..];
      assert SortedByAge(tail) by {
        forall i, j | 0 <= i < j < |tail|
          ensures tail[i].row.createdAt <= tail[j].row.createdAt
        {
          assert tail[i] == sorted[i + 1] && tail[j] == sorted[j + 1];
        }
      }
      var rest := InsertByAge(x, tail);
      assert tail != [] ==> tail[0] == sorted[1];
      SortedCons(sorted[0], rest);
      assert sorted == [sorted[0]] + tail;
      assert multiset(sorted) == multiset{sorted[0]} + multiset(tail);
      [sorted[0]] + rest
  }

  /** ORDER BY pu.created_at ASC: a stable insertion sort (among equal times, table order). */
  function SortByAge(s: seq<Selected>): (r: seq<Selected>)
    ensures SortedByAge(r)
    ensures multiset(r) == multiset(s)
    ensures |r| == |s|
  {
    if s == [] then []
    else
      assert s == [s[0]] + s[1..];
      InsertByAge(s[0], SortByAge(s[1..]))
  }

  /** The retry query: unprocessed rows with a user, oldest first, at most ten. */
  function SelectPending(pending: seq<PendingRow>, users: seq<User>): seq<Selected> {
    var sorted := SortByAge(Eligible(pending, users));
    if |sorted| <= RetryBatchLimit then sorted else sorted[..RetryBatchLimit]
  }

  /** SelectPending is a prefix of the sorted eligible rows, and the rest is the remainder. */
  lemma SelectPendingSplit(pending: seq<PendingRow>, users: seq<User>) returns (rest: seq<Selected>)
    ensures var sel, all := SelectPending(pending, users), Eligible(pending, users);
      && SortByAge(all) == sel + rest
      && multiset(all) == multiset(sel) + multiset(rest)
      && |sel| == (if |all| <= RetryBatchLimit then |all| else RetryBatchLimit)
      && rest == SortByAge(all)[|sel|..]
  {
    var sorted := SortByAge(Eligible(pending, users));
    var sel := SelectPending(pending, users);
    rest := sorted[|sel|..];
    assert sorted == sel + rest;
  }

  /** The selection is ordered oldest first. */
  lemma SelectPendingSorted(pending: seq<PendingRow>, users: seq<User>)
    ensures SortedByAge(SelectPending(pending, users))
  {
    var sorted := SortByAge(Eligible(pending, users));
    var sel := SelectPending(pending, users);
    forall i, j | 0 <= i < j < |sel|
      ensures sel[i].row.createdAt <= sel[j].row.createdAt
    {
      assert sel[i] == sorted[i] && sel[j] == sorted[j];
    }
  }

  /** Every selected row is an unprocessed pending row with a user. */
  lemma SelectPendingEligible(pending: seq<PendingRow>, users: seq<User>)
    ensures forall s :: s in SelectPending(pending, users) ==>
      s in Eligible(pending, users) && s.row in pending && !s.row.processed
  {
    var all := Eligible(pending, users);
    var sel := SelectPending(pending, users);
    var rest := SelectPendingSplit(pending, users);
    EligibleMembers(pending, users);
    forall s | s in sel
      ensures s in all
    {
      assert s in multiset(sel);
      assert s in multiset(all);
    }
  }

  /** No eligible row left out is older than a selected one. */
  lemma SelectPendingOldestFirst(pending: seq<PendingRow>, users: seq<User>)
    ensures var sel, all := SelectPending(pending, users), Eligible(pending, users);
      forall k, e :: 0 <= k < |sel| && e in multiset(all) - multiset(sel) ==> sel[k].row.createdAt <= e.row.createdAt
  {
    var all := Eligible(pending, users);
    var sorted := SortByAge(all);
    var sel := SelectPending(pending, users);
    var rest := SelectPendingSplit(pending, users);
    forall k, e | 0 <= k < |sel| && e in multiset(all) - multiset(sel)
      ensures sel[k].row.createdAt <= e.row.createdAt
    {
      assert e in multiset(rest);
      PrefixNotYounger(sorted, |sel|, k, e);
    }
  }

  /** In a sequence sorted by age, an element before position n is no younger than one after it. */
  lemma PrefixNotYounger(sorted: seq<Selected>, n: nat, k: nat, e: Selected)
    requires SortedByAge(sorted) && k < n <= |sorted| && e in multiset(sorted[n..])
    ensures sorted[k].row.createdAt <= e.row.createdAt
  {
    var rest := sorted[n..];
    var j :| 0 <= j < |rest| && rest[j] == e;
    assert sorted[n + j] == e;
  }

  /** UPDATE pending_uploads SET processed = true WHERE id = $1. */
  function MarkProcessed(pending: seq<PendingRow>, id: nat): (r: seq<PendingRow>)
    ensures |r| == |pending|
    ensures forall i :: 0 <= i < |pending| ==>
      r[i] == (if pending[i].id == id then pending[i].(processed := true) else pending[i])
  {
    if pending == [] then []
    else [if pending[0].id == id then pending[0].(processed := true) else pending[0]] + MarkProcessed(pending[1..], id)
  }

  function Ids(sel: seq<Selected>): (ids: seq<nat>)
    ensures |ids| == |sel| && forall k :: 0 <= k < |sel| ==> ids[k] == sel[k].row.id
  {
    if sel == [] then [] else Ids(sel[..|sel| - 1]) + [sel[|sel| - 1].row.id]
  }

  /** The pending table after the rows with the given ids were marked one by one. */
  function MarkAll(pending: seq<PendingRow>, ids: seq<nat>): (r: seq<PendingRow>)
    ensures |r| == |pending|
    ensures forall i :: 0 <= i < |pending| ==>
      r[i] == (if pending[i].id in ids then pending[i].(processed := true) else pending[i])
  {
    if ids == [] then pending
    else MarkProcessed(MarkAll(pending, ids[..|ids| - 1]), ids[|ids| - 1])
  }

  /** Marking the rows of one more selected row is one more MarkProcessed. */
  lemma MarkNext(pending: seq<PendingRow>, sel: seq<Selected>, i: nat)
    requires i < |sel|
    ensures MarkAll(pending, Ids(sel[..i + 1])) == MarkProcessed(MarkAll(pending, Ids(sel[..i])), sel[i].row.id)
  {
    assert sel[..i + 1][..i] == sel[..i];
    var ids := Ids(sel[..i + 1]);
    assert ids[..|ids| - 1] == Ids(sel[..i]);
  }

  /** The pending table after the first n selected rows were marked, as the retry loop goes. */
  function MarkFirst(pending: seq<PendingRow>, sel: seq<Selected>, n: nat): seq<PendingRow>
    requires n <= |sel|
  {
    if n == 0 then pending else MarkProcessed(MarkFirst(pending, sel, n - 1), sel[n - 1].row.id)
  }

  lemma {:induction false} MarkFirstIsMarkAll(pending: seq<PendingRow>, sel: seq<Selected>, n: nat)
    requires n <= |sel|
    ensures MarkFirst(pending, sel, n) == MarkAll(pending, Ids(sel[..n]))
  {
    if n > 0 {
      MarkFirstIsMarkAll(pending, sel, n - 1);
      MarkNext(pending, sel, n - 1);
    }
  }

  /** A row retried in one pass is processed afterwards, so no later pass selects it again. */
  lemma MarkedNotEligible(pending: seq<PendingRow>, users: seq<User>, ids: seq<nat>)
    ensures forall s :: s in Eligible(MarkAll(pending, ids), users) ==> s.row.id !in ids
  {
    var marked := MarkAll(pending, ids);
    EligibleMembers(marked, users);
    forall s | s in Eligible(marked, users)
      ensures s.row.id !in ids
    {
      var i :| 0 <= i < |marked| && marked[i] == s.row;
    }
  }

  /** UPDATE upload_history SET line_message_id = $1 WHERE google_file_id = $2. */
  function AttachMessageId(ledger: seq<LedgerRow>, fileId: string, messageId: string): (r: seq<LedgerRow>)
    ensures |r| == |ledger|
    ensures forall i :: 0 <= i < |ledger| ==>
      r[i] == (if ledger[i].fileId == Some(fileId) then ledger[i].(lineMessageId := Some(messageId)) else ledger[i])
  {
    if ledger == [] then []
    else [if ledger[0].fileId == Some(fileId) then ledger[0].(lineMessageId := Some(messageId)) else ledger[0]]
         + AttachMessageId(ledger[1..], fileId, messageId)
  }

  /** The ledger after one attempt: its row when the insert succeeds, then on success the
      message id attached to the rows of the returned file id. */
  function LedgerAfter(ledger: seq<LedgerRow>, a: Attempt, insertOk: bool, messageId: string): seq<LedgerRow> {
    var logged := ledger + (if insertOk then [a.row] else []);
    if a.result.Ok? then AttachMessageId(logged, a.result.value.fileId, messageId) else logged
  }

  /** The rows already in `before` keep every column of theirs in `after` but line_message_id. */
  ghost predicate MessageIdsOnly(before: seq<LedgerRow>, after: seq<LedgerRow>) {
    |before| <= |after| && forall i :: 0 <= i < |before| ==> after[i] == before[i].(lineMessageId := after[i].lineMessageId)
  }

  lemma MessageIdsOnlyTrans(a: seq<LedgerRow>, b: seq<LedgerRow>, c: seq<LedgerRow>)
    requires MessageIdsOnly(a, b) && MessageIdsOnly(b, c)
    ensures MessageIdsOnly(a, c)
  {
    forall i | 0 <= i < |a|
      ensures c[i] == a[i].(lineMessageId := c[i].lineMessageId)
    {
      assert b[i] == a[i].(lineMessageId := b[i].lineMessageId);
    }
  }

  /** One attempt adds at most one row, and the rows already there keep every column
      but line_message_id, which changes only on rows of the uploaded file. */
  lemma LedgerAfterShape(ledger: seq<LedgerRow>, a: Attempt, insertOk: bool, messageId: string)
    ensures var r := LedgerAfter(ledger, a, insertOk, messageId);
      && |r| == |ledger| + (if insertOk then 1 else 0)
      && MessageIdsOnly(ledger, r)
      && (forall i :: 0 <= i < |ledger| && (a.result.Err? || ledger[i].fileId != Some(a.result.value.fileId)) ==> r[i] == ledger[i])
  {
    var logged := ledger + (if insertOk then [a.row] else []);
    assert forall i :: 0 <= i < |ledger| ==> logged[i] == ledger[i];
  }

  /** The attempt the retry pass makes for a selected row: no file name, so a timestamp name. */
  function RetryAttempt(s: Selected, env: DriveEnv, now: LocalTime): Attempt {
    UploadAttempt(s.row.image, DriveUserOf(s.user), None, now, env)
  }

  /** processUpload: one more attempt; the row is marked processed on success and on failure;
      a failure is re-thrown. (The source's `SELECT pu.*, u.*` lets the user's id shadow the
      pending row's id in the row object; this model marks the selected pending row itself.) */
  method ProcessUpload(db: Database, s: Selected, env: DriveEnv, now: LocalTime) returns (r: Result<UploadResult, string>)
    modifies db
    ensures r == RetryAttempt(s, env, now).result
    ensures db.ledger == LedgerAfter(old(db.ledger), RetryAttempt(s, env, now), env.ledgerInsertOk, s.row.messageId)
    ensures db.pending == MarkProcessed(old(db.pending), s.row.id)
    ensures db.users == old(db.users) && db.nextPendingId == old(db.nextPendingId)
    ensures db.packages == old(db.packages) && db.userPackages == old(db.userPackages) && db.nextUserId == old(db.nextUserId)
  {
    r := UploadToDrive(db, s.row.image, DriveUserOf(s.user), None, now, env);
    db.pending := MarkProcessed(db.pending, s.row.id);
    if r.Ok? {
      db.ledger := AttachMessageId(db.ledger, r.value.fileId, s.row.messageId);
    }
  }

  /** How many of the first n attempts had their ledger insert succeed. */
  function InsertCount(envs: nat -> DriveEnv, n: nat): nat {
    if n == 0 then 0 else InsertCount(envs, n - 1) + (if envs(n - 1).ledgerInsertOk then 1 else 0)
  }

  /** The first n attempts of a pass that tries the k-th selected row as `try` says. */
  function Attempts(sel: seq<Selected>, try: (Selected, nat) -> Attempt, n: nat): (atts: seq<Attempt>)
    requires n <= |sel|
    ensures |atts| == n
  {
    if n == 0 then [] else Attempts(sel, try, n - 1) + [try(sel[n - 1], n - 1)]
  }

  /** The k-th of them is the k-th row tried. */
  lemma {:induction false} AttemptsAt(sel: seq<Selected>, try: (Selected, nat) -> Attempt, n: nat, k: nat)
    requires k < n <= |sel|
    ensures Attempts(sel, try, n)[k] == try(sel[k], k)
  {
    if k < n - 1 {
      AttemptsAt(sel, try, n - 1, k);
    }
  }

  /** The retry pass's k-th attempt: the outside world answers as envs(k) and the clock reads nows(k). */
  function Retry(envs: nat -> DriveEnv, nows: nat -> LocalTime): (Selected, nat) -> Attempt {
    (s: Selected, k: nat) => RetryAttempt(s, envs(k), nows(k))
  }

  /** The first n attempts of a pass: the k-th selected row with the k-th answers of the
      outside world and the k-th reading of the clock. */
  function PassAttempts(sel: seq<Selected>, envs: nat -> DriveEnv, nows: nat -> LocalTime, n: nat): (atts: seq<Attempt>)
    requires n <= |sel|
    ensures |atts| == n
  {
    Attempts(sel, Retry(envs, nows), n)
  }

  /** The k-th attempt of a pass is the k-th selected row tried with envs(k) at nows(k). */
  lemma PassAttemptsAt(sel: seq<Selected>, envs: nat -> DriveEnv, nows: nat -> LocalTime, n: nat, k: nat)
    requires k < n <= |sel|
    ensures PassAttempts(sel, envs, nows, n)[k] == RetryAttempt(sel[k], envs(k), nows(k))
  {
    AttemptsAt(sel, Retry(envs, nows), n, k);
  }

  /** atts[k] is the pass's k-th attempt. */
  ghost predicate TriedAt(atts: seq<Attempt>, sel: seq<Selected>, envs: nat -> DriveEnv, nows: nat -> LocalTime, k: nat)
    requires k < |atts| && k < |sel|
  {
    atts[k] == RetryAttempt(sel[k], envs(k), nows(k))
  }

  /** atts lists every attempt of a pass over sel, in order. */
  ghost predicate IsPass(atts: seq<Attempt>, sel: seq<Selected>, envs: nat -> DriveEnv, nows: nat -> LocalTime) {
    |atts| == |sel| && forall k: nat :: k < |sel| ==> TriedAt(atts, sel, envs, nows, k)
  }

  /** PassAttempts lists the attempts of the whole pass. */
  lemma PassAttemptsIsPass(sel: seq<Selected>, envs: nat -> DriveEnv, nows: nat -> LocalTime)
    ensures IsPass(PassAttempts(sel, envs, nows, |sel|), sel, envs, nows)
  {
    var atts := PassAttempts(sel, envs, nows, |sel|);
    forall k: nat | k < |sel|
      ensures TriedAt(atts, sel, envs, nows, k)
    {
      PassAttemptsAt(sel, envs, nows, |sel|, k);
    }
  }

  /** The ledger after the first n attempts of a pass: each logs its row and attaches its
      message id as LedgerAfter says. */
  function PassLedger(ledger0: seq<LedgerRow>, sel: seq<Selected>, envs: nat -> DriveEnv, atts: seq<Attempt>, n: nat): seq<LedgerRow>
    requires n <= |sel| == |atts|
  {
    if n == 0 then ledger0
    else LedgerAfter(PassLedger(ledger0, sel, envs, atts, n - 1), atts[n - 1], envs(n - 1).ledgerInsertOk, sel[n - 1].row.messageId)
  }

  /** A pass adds one row per successful ledger insert, and the rows already there keep every
      column but line_message_id. */
  lemma {:induction false} PassLedgerShape(ledger0: seq<LedgerRow>, sel: seq<Selected>, envs: nat -> DriveEnv, atts: seq<Attempt>, n: nat)
    requires n <= |sel| == |atts|
    ensures |PassLedger(ledger0, sel, envs, atts, n)| == |ledger0| + InsertCount(envs, n)
    ensures MessageIdsOnly(ledger0, PassLedger(ledger0, sel, envs, atts, n))
  {
    if n > 0 {
      var before := PassLedger(ledger0, sel, envs, atts, n - 1);
      PassLedgerShape(ledger0, sel, envs, atts, n - 1);
      LedgerAfterShape(before, atts[n - 1], envs(n - 1).ledgerInsertOk, sel[n - 1].row.messageId);
      MessageIdsOnlyTrans(ledger0, before, PassLedger(ledger0, sel, envs, atts, n));
    } else {
      assert MessageIdsOnly(ledger0, ledger0);
    }
  }

  /** The row the k-th attempt logs sits right after the rows of the attempts before it and is
      that attempt's row, up to the message id attached to it. */
  lemma {:induction false} PassLedgerRowAt(ledger0: seq<LedgerRow>, sel: seq<Selected>, envs: nat -> DriveEnv, atts: seq<Attempt>,
                                           n: nat, k: nat)
    requires k < n <= |sel| == |atts| && envs(k).ledgerInsertOk
    ensures var at := |PassLedger(ledger0, sel, envs, atts, k)|;
      var l := PassLedger(ledger0, sel, envs, atts, n);
      at < |l| && l[at] == atts[k].row.(lineMessageId := l[at].lineMessageId)
  {
    var at := |PassLedger(ledger0, sel, envs, atts, k)|;
    if n == k + 1 {
      var logged := PassLedger(ledger0, sel, envs, atts, k) + [atts[k].row];
      assert logged[at] == atts[k].row;
    } else {
      PassLedgerRowAt(ledger0, sel, envs, atts, n - 1, k);
      var before := PassLedger(ledger0, sel, envs, atts, n - 1);
      LedgerAfterShape(before, atts[n - 1], envs(n - 1).ledgerInsertOk, sel[n - 1].row.messageId);
    }
  }

  /** The first n attempts all succeeded. */
  predicate AllOk(atts: seq<Attempt>, n: nat)
    requires n <= |atts|
  {
    n == 0 || (atts[n - 1].result.Ok? && AllOk(atts, n - 1))
  }

  /** AllOk is the quantified statement it stands for. */
  lemma {:induction false} AllOkMeans(atts: seq<Attempt>, n: nat)
    requires n <= |atts|
    ensures AllOk(atts, n) <==> forall k :: 0 <= k < n ==> atts[k].result.Ok?
  {
    if n > 0 {
      AllOkMeans(atts, n - 1);
    }
  }

  /** The tables and counters a retry pass leaves alone. */
  ghost function Untouched(db: Database): (seq<User>, nat, seq<Package>, seq<UserPackage>, nat)
    reads db
  {
    (db.users, db.nextPendingId, db.packages, db.userPackages, db.nextUserId)
  }

  /** One iteration of the retry loop: the i-th selected row is attempted and marked. */
  method RetryStep(db: Database, ghost pending0: seq<PendingRow>, ghost ledger0: seq<LedgerRow>,
                   selected: seq<Selected>, envs: nat -> DriveEnv, nows: nat -> LocalTime,
                   ghost atts: seq<Attempt>, i: nat)
    returns (result: Result<UploadResult, string>)
    requires i < |selected| && IsPass(atts, selected, envs, nows)
    requires db.pending == MarkFirst(pending0, selected, i)
    requires db.ledger == PassLedger(ledger0, selected, envs, atts, i)
    modifies db
    ensures result == atts[i].result
    ensures db.pending == MarkFirst(pending0, selected, i + 1)
    ensures db.ledger == PassLedger(ledger0, selected, envs, atts, i + 1)
    ensures Untouched(db) == old(Untouched(db))
  {
    result := ProcessUpload(db, selected[i], envs(i), nows(i));
    assert TriedAt(atts, selected, envs, nows, i);
  }

  /** processPendingUploads: the selected rows one at a time, in order; `envs(k)` is what the
      outside world answers to the k-th attempt and `nows(k)` the local time it reads. The first
      failure is re-thrown and the rows after it are not attempted; every attempted row ends
      processed. */
  method ProcessPendingUploads(db: Database, envs: nat -> DriveEnv, nows: nat -> LocalTime)
    returns (r: Result<nat, string>, ghost attempted: nat)
    modifies db
    ensures attempted <= |SelectPending(old(db.pending), old(db.users))|
    ensures r.Ok? ==> r.value == attempted == |SelectPending(old(db.pending), old(db.users))|
    ensures var atts := PassAttempts(SelectPending(old(db.pending), old(db.users)), envs, nows, |SelectPending(old(db.pending), old(db.users))|);
      && (r.Ok? ==> forall k :: 0 <= k < attempted ==> atts[k].result.Ok?)
      && (r.Err? ==> 1 <= attempted && atts[attempted - 1].result == Err(r.error)
                     && forall k :: 0 <= k < attempted - 1 ==> atts[k].result.Ok?)
    ensures db.pending == MarkAll(old(db.pending), Ids(SelectPending(old(db.pending), old(db.users))[..attempted]))
    ensures var sel := SelectPending(old(db.pending), old(db.users));
      db.ledger == PassLedger(old(db.ledger), sel, envs, PassAttempts(sel, envs, nows, |sel|), attempted)
    ensures |db.ledger| == |old(db.ledger)| + InsertCount(envs, attempted)
    ensures MessageIdsOnly(old(db.ledger), db.ledger)
    ensures PassEffect(old(db.pending), old(db.users), old(db.ledger), db.pending, db.ledger, envs, nows, r)
    ensures db.users == old(db.users) && db.nextPendingId == old(db.nextPendingId)
    ensures db.packages == old(db.packages) && db.userPackages == old(db.userPackages) && db.nextUserId == old(db.nextUserId)
  {
    var selected := SelectPending(db.pending, db.users);
    ghost var atts := PassAttempts(selected, envs, nows, |selected|);
    PassAttemptsIsPass(selected, envs, nows);
    r, attempted := RetryRows(db, selected, envs, nows, atts);
    MarkFirstIsMarkAll(old(db.pending), selected, attempted);
    AllOkMeans(atts, if r.Ok? then attempted else attempted - 1);
    PassEnds(old(db.pending), old(db.users), old(db.ledger), db.pending, db.ledger, envs, nows, r, attempted);
  }

  /** The loop of processPendingUploads over the selected rows, with atts the attempts it makes. */
  method RetryRows(db: Database, selected: seq<Selected>, envs: nat -> DriveEnv, nows: nat -> LocalTime, ghost atts: seq<Attempt>)
    returns (r: Result<nat, string>, ghost attempted: nat)
    requires IsPass(atts, selected, envs, nows)
    modifies db
    ensures attempted <= |selected|
    ensures db.pending == MarkFirst(old(db.pending), selected, attempted)
    ensures db.ledger == PassLedger(old(db.ledger), selected, envs, atts, attempted)
    ensures r.Ok? ==> r.value == attempted == |selected| && AllOk(atts, attempted)
    ensures r.Err? ==> 1 <= attempted && atts[attempted - 1].result == Err(r.error) && AllOk(atts, attempted - 1)
    ensures db.users == old(db.users) && db.nextPendingId == old(db.nextPendingId)
    ensures db.packages == old(db.packages) && db.userPackages == old(db.userPackages) && db.nextUserId == old(db.nextUserId)
  {
    ghost var pending0, ledger0 := db.pending, db.ledger;
    var i, failed, error := 0, false, "";
    while i < |selected| && !failed
      invariant 0 <= i <= |selected|
      invariant db.pending == MarkFirst(pending0, selected, i)
      invariant db.ledger == PassLedger(ledger0, selected, envs, atts, i)
      invariant !failed ==> AllOk(atts, i)
      invariant failed ==> 1 <= i && atts[i - 1].result == Err(error) && AllOk(atts, i - 1)
      invariant Untouched(db) == old(Untouched(db))
    {
      var result := RetryStep(db, pending0, ledger0, selected, envs, nows, atts, i);
      if result.Err? {
        failed, error := true, result.error;
      }
      i := i + 1;
    }
    r, attempted := if failed then Err(error) else Ok(i), i;
  }

  /** What one retry pass leaves behind, as its outcome says: on success every selected row is
      processed and attempted; after a failure a non-empty prefix of them, the last of which
      failed with the error reported. The ledger is what those attempts log, and only message
      ids change on old rows. */
  ghost predicate PassEffect(pending0: seq<PendingRow>, users0: seq<User>, ledger0: seq<LedgerRow>,
                             pending1: seq<PendingRow>, ledger1: seq<LedgerRow>,
                             envs: nat -> DriveEnv, nows: nat -> LocalTime, r: Result<nat, string>) {
    var sel := SelectPending(pending0, users0);
    var atts := PassAttempts(sel, envs, nows, |sel|);
    && (r.Ok? ==> r.value == |sel| && pending1 == MarkAll(pending0, Ids(sel))
                  && ledger1 == PassLedger(ledger0, sel, envs, atts, |sel|))
    && (r.Err? ==> exists k :: 1 <= k <= |sel| && pending1 == MarkAll(pending0, Ids(sel[..k]))
                               && ledger1 == PassLedger(ledger0, sel, envs, atts, k) && atts[k - 1].result == Err(r.error))
    && MessageIdsOnly(ledger0, ledger1)
  }

  /** A pass that stopped after m attempts, the last failed if its outcome is an error, has the
      effect ProcessPendingUploads promises. */
  lemma PassEnds(pending0: seq<PendingRow>, users0: seq<User>, ledger0: seq<LedgerRow>,
                 pending1: seq<PendingRow>, ledger1: seq<LedgerRow>,
                 envs: nat -> DriveEnv, nows: nat -> LocalTime, r: Result<nat, string>, m: nat)
    requires var sel := SelectPending(pending0, users0);
      var atts := PassAttempts(sel, envs, nows, |sel|);
      && m <= |sel| && pending1 == MarkAll(pending0, Ids(sel[..m]))
      && ledger1 == PassLedger(ledger0, sel, envs, atts, m)
      && (r.Ok? ==> r.value == m == |sel|)
      && (r.Err? ==> 1 <= m && atts[m - 1].result == Err(r.error))
    ensures |ledger1| == |ledger0| + InsertCount(envs, m)
    ensures MessageIdsOnly(ledger0, ledger1)
    ensures PassEffect(pending0, users0, ledger0, pending1, ledger1, envs, nows, r)
  {
    var sel := SelectPending(pending0, users0);
    var atts := PassAttempts(sel, envs, nows, |sel|);
    PassLedgerShape(ledger0, sel, envs, atts, m);
    if r.Ok? {
      assert sel[..m] == sel;
    }
  }

  /** processUploadImmediately: 'User not found' with no upload when the LINE id has no user;
      otherwise one upload, errors propagated unchanged, and no pending row written. */
  method ProcessUploadImmediately(db: Database, lineUserId: string, messageId: string, image: seq<byte>, env: DriveEnv, now: LocalTime)
    returns (r: Result<UploadResult, string>)
    modifies db
    ensures FindUserByLineId(old(db.users), lineUserId).None? ==> r == Err(UserNotFound) && db.ledger == old(db.ledger)
    ensures FindUserByLineId(old(db.users), lineUserId).Some? ==>
      var a := UploadAttempt(image, DriveUserOf(FindUserByLineId(old(db.users), lineUserId).value), None, now, env);
      r == a.result && db.ledger == LedgerAfter(old(db.ledger), a, env.ledgerInsertOk, messageId)
    ensures db.pending == old(db.pending) && db.users == old(db.users) && db.nextPendingId == old(db.nextPendingId)
    ensures db.packages == old(db.packages) && db.userPackages == old(db.userPackages) && db.nextUserId == old(db.nextUserId)
  {
    var user := FindUserByLineId(db.users, lineUserId);
    if user.None? {
      return Err(UserNotFound);
    }
    r := UploadToDrive(db, image, DriveUserOf(user.value), None, now, env);
    if r.Ok? {
      db.ledger := AttachMessageId(db.ledger, r.value.fileId, messageId);
    }
  }
}
