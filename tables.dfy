/**
 * The relational tables the services read and write (users, upload_history,
 * pending_uploads, packages, user_packages), held as sequences of rows in
 * insertion order, and the queries over them that several services share.
 */
module Tables {
  import opened Wrappers

  newtype byte = x: int | 0 <= x < 256

  datatype Status = Success | Failed

  /** A row of `users`. Nullable columns are options. */
  datatype User = User(
    id: nat,
    lineUserId: Option<string>,
    googleEmail: string,
    refreshToken: Option<string>,
    folderId: Option<string>)

  /** A row of `upload_history`, the ledger of upload attempts. */
  datatype LedgerRow = LedgerRow(
    userId: nat,
    lineMessageId: Option<string>,
    fileId: Option<string>,
    fileName: string,
    fileSize: nat,
    status: Status,
    errorMessage: Option<string>)

  /** A row of `pending_uploads`, an image kept for one later retry. */
  datatype PendingRow = PendingRow(
    id: nat,
    lineUserId: string,
    messageId: string,
    image: seq<byte>,
    processed: bool,
    createdAt: int)

  /** A row of `packages`. */
  datatype Package = Package(id: nat, name: string, uploadLimit: Option<int>, price: Option<string>, isActive: bool)

  /** A row of `user_packages`; dates are day numbers. */
  datatype UserPackage = UserPackage(userId: nat, packageId: nat, startDate: int, endDate: Option<int>, isTrial: bool)

  /** The database, one field per table. */
  class Database {
    var users: seq<User>
    var ledger: seq<LedgerRow>
    var pending: seq<PendingRow>
    var packages: seq<Package>
    var userPackages: seq<UserPackage>
    /** The next value of the SERIAL keys of `users` and `pending_uploads`. */
    var nextUserId: nat
    var nextPendingId: nat

    constructor(users: seq<User>, ledger: seq<LedgerRow>, pending: seq<PendingRow>,
                packages: seq<Package>, userPackages: seq<UserPackage>, nextUserId: nat, nextPendingId: nat)
      ensures this.users == users && this.ledger == ledger && this.pending == pending
      ensures this.packages == packages && this.userPackages == userPackages
      ensures this.nextUserId == nextUserId && this.nextPendingId == nextPendingId
    {
      this.users := users;
      this.ledger := ledger;
      this.pending := pending;
      this.packages := packages;
      this.userPackages := userPackages;
      this.nextUserId := nextUserId;
      this.nextPendingId := nextPendingId;
    }

    /** INSERT INTO pending_uploads (line_user_id, message_id, image_data, created_at) VALUES (..., NOW()). */
    method InsertPending(lineUserId: string, messageId: string, image: seq<byte>, now: int)
      modifies this
      ensures pending == old(pending) + [PendingRow(old(nextPendingId), lineUserId, messageId, image, false, now)]
      ensures nextPendingId == old(nextPendingId) + 1
      ensures users == old(users) && ledger == old(ledger)
      ensures packages == old(packages) && userPackages == old(userPackages) && nextUserId == old(nextUserId)
    {
      pending := pending + [PendingRow(nextPendingId, lineUserId, messageId, image, false, now)];
      nextPendingId := nextPendingId + 1;
    }

    /** INSERT INTO upload_history (...): one new ledger row. */
    method InsertLedger(row: LedgerRow)
      modifies this
      ensures ledger == old(ledger) + [row]
      ensures users == old(users) && pending == old(pending) && nextPendingId == old(nextPendingId)
      ensures packages == old(packages) && userPackages == old(userPackages) && nextUserId == old(nextUserId)
    {
      ledger := ledger + [row];
    }
  }

  /** SELECT * FROM users WHERE line_user_id = $1, first row. */
  function FindUserByLineId(users: seq<User>, lineUserId: string): (r: Option<User>)
    ensures r.Some? ==> r.value in users && r.value.lineUserId == Some(lineUserId)
    ensures r.None? <==> forall u :: u in users ==> u.lineUserId != Some(lineUserId)
  {
    if users == [] then None
    else if users[0].lineUserId == Some(lineUserId) then Some(users[0])
    else FindUserByLineId(users[1..], lineUserId)
  }

  /** SELECT ... FROM users WHERE id = $1, first row. */
  function FindUserById(users: seq<User>, id: nat): (r: Option<User>)
    ensures r.Some? ==> r.value in users && r.value.id == id
    ensures r.None? <==> forall u :: u in users ==> u.id != id
  {
    if users == [] then None
    else if users[0].id == id then Some(users[0])
    else FindUserById(users[1..], id)
  }

  predicate IsSuccessOf(row: LedgerRow, userId: nat) {
    row.userId == userId && row.status == Success
  }

  /** SELECT COUNT(*) FROM upload_history WHERE user_id = $1 AND upload_status = 'success'. */
  function SuccessCount(ledger: seq<LedgerRow>, userId: nat): (n: nat)
    ensures n <= |ledger|
  {
    if ledger == [] then 0
    else SuccessCount(ledger[..|ledger| - 1], userId) + (if IsSuccessOf(ledger[|ledger| - 1], userId) then 1 else 0)
  }

  /** Appending a row adds one to the count exactly when it is a success row of that user. */
  lemma SuccessCountAppend(ledger: seq<LedgerRow>, row: LedgerRow, userId: nat)
    ensures SuccessCount(ledger + [row], userId) == SuccessCount(ledger, userId) + (if IsSuccessOf(row, userId) then 1 else 0)
  {
    assert (ledger + [row])[..|ledger|] == ledger;
  }

  /** The count is zero exactly when the user has no success row. */
  lemma {:induction false} SuccessCountZero(ledger: seq<LedgerRow>, userId: nat)
    ensures SuccessCount(ledger, userId) == 0 <==> forall i :: 0 <= i < |ledger| ==> !IsSuccessOf(ledger[i], userId)
  {
    if ledger != [] {
      var init := ledger[..|ledger| - 1];
      SuccessCountZero(init, userId);
      assert forall i :: 0 <= i < |init| ==> init[i] == ledger[i];
    }
  }

  /** SELECT ... FROM packages WHERE id = $1: the first row with that key. */
  function FindPackage(packages: seq<Package>, id: nat): (r: Option<Package>)
    ensures r.Some? ==> r.value in packages && r.value.id == id
    ensures r.None? <==> forall p :: p in packages ==> p.id != id
  {
    if packages == [] then None
    else if packages[0].id == id then Some(packages[0])
    else FindPackage(packages[1..], id)
  }

  /** A user_packages row joined with its package. */
  datatype Subscription = Subscription(up: UserPackage, pkg: Package)

  /** user_packages up JOIN packages p ON p.id = up.package_id WHERE up.user_id = $1, in table order. */
  function SubscriptionsOf(ups: seq<UserPackage>, packages: seq<Package>, userId: nat): (r: seq<Subscription>)
    ensures forall s :: s in r ==> s.up in ups && s.up.userId == userId && FindPackage(packages, s.up.packageId) == Some(s.pkg)
    ensures forall up :: up in ups && up.userId == userId && FindPackage(packages, up.packageId).Some? ==>
                           Subscription(up, FindPackage(packages, up.packageId).value) in r
  {
    if ups == [] then []
    else
      var p := FindPackage(packages, ups[0].packageId);
      (if ups[0].userId == userId && p.Some? then [Subscription(ups[0], p.value)] else [])
      + SubscriptionsOf(ups[1..], packages, userId)
  }

  /** ORDER BY up.start_date DESC LIMIT 1: a row with the latest start date (the first such
      in table order; the database leaves ties unordered). */
  function Newest(subs: seq<Subscription>): (r: Option<Subscription>)
    ensures r.None? <==> subs == []
    ensures r.Some? ==> r.value in subs && forall s :: s in subs ==> s.up.startDate <= r.value.up.startDate
  {
    if subs == [] then None
    else
      var rest := Newest(subs[1..]);
      if rest.None? || rest.value.up.startDate <= subs[0].up.startDate then Some(subs[0]) else rest
  }

  /** up.end_date IS NULL OR up.end_date >= CURRENT_DATE */
  predicate LiveOn(s: Subscription, today: int) {
    s.up.endDate.None? || s.up.endDate.value >= today
  }

  function LiveSubscriptions(subs: seq<Subscription>, today: int): (r: seq<Subscription>)
    ensures forall s :: s in r <==> s in subs && LiveOn(s, today)
  {
    if subs == [] then []
    else (if LiveOn(subs[0], today) then [subs[0]] else []) + LiveSubscriptions(subs[1..], today)
  }

  const NewbieName := "newbie"

  /** SELECT ... FROM packages WHERE name = 'newbie' AND is_active = true LIMIT 1 */
  function ActiveNewbie(packages: seq<Package>): (r: Option<Package>)
    ensures r.Some? ==> r.value in packages && r.value.name == NewbieName && r.value.isActive
    ensures r.None? <==> forall p :: p in packages ==> !(p.name == NewbieName && p.isActive)
  {
    if packages == [] then None
    else if packages[0].name == NewbieName && packages[0].isActive then Some(packages[0])
    else ActiveNewbie(packages[1..])
  }

  /** SELECT 1 FROM user_packages WHERE user_id = $1 */
  predicate HasAnyPackage(ups: seq<UserPackage>, userId: nat) {
    exists up :: up in ups && up.userId == userId
  }
}
