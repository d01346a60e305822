/**
 * The statistics endpoints: the usage summary over the user's ledger rows and the quota
 * information, which resolves the user's package and may assign the trial package.
 */
module Stats {
  import opened Wrappers
  import opened Tables
  import opened Http
  import Webhook
  import Users

  const UsageFailed := "Failed to get usage statistics"
  const QuotaFailed := "Failed to get quota information"
  /** The quota shown when the package has no (or a zero) upload_limit. */
  const DefaultQuota: int := 10000

  // ---------------------------------------------------------------- usage summary

  /** The `summary` object, without active_days. */
  datatype Summary = Summary(total: nat, successful: nat, failed: nat, totalSize: nat)

  /** COUNT(*), the two status counts and COALESCE(SUM(file_size), 0) over the user's rows. */
  function Summarize(ledger: seq<LedgerRow>, userId: nat): (s: Summary)
    ensures s.successful + s.failed == s.total
    ensures s.total <= |ledger|
    ensures s.total == 0 ==> s.totalSize == 0
  {
    if ledger == [] then Summary(0, 0, 0, 0)
    else
      var s := Summarize(ledger[..|ledger| - 1], userId);
      var row := ledger[|ledger| - 1];
      if row.userId != userId then s
      else if row.status == Success then Summary(s.total + 1, s.successful + 1, s.failed, s.totalSize + row.fileSize)
      else Summary(s.total + 1, s.successful, s.failed + 1, s.totalSize + row.fileSize)
  }

  /** The summary's successful count is the used quota, and also what the webhook's quota check counts. */
  lemma {:induction false} SummarySuccessIsUsed(ledger: seq<LedgerRow>, userId: nat)
    ensures Summarize(ledger, userId).successful == SuccessCount(ledger, userId)
  {
    if ledger != [] {
      SummarySuccessIsUsed(ledger[..|ledger| - 1], userId);
    }
  }

  /** A new row of the user adds one to the total and its size to the total size; a row of
      another user changes nothing. */
  lemma SummarizeAppend(ledger: seq<LedgerRow>, row: LedgerRow, userId: nat)
    ensures var before, after := Summarize(ledger, userId), Summarize(ledger + [row], userId);
            if row.userId == userId then after.total == before.total + 1 && after.totalSize == before.totalSize + row.fileSize
            else after == before
  {
    assert (ledger + [row])[..|ledger|] == ledger;
  }

  /** The history's total and the usage summary's total count the same rows. */
  lemma {:induction false} HistoryCountsUsage(ledger: seq<LedgerRow>, userId: nat)
    ensures |Users.RowsOf(ledger, userId)| == Summarize(ledger, userId).total
  {
    if ledger != [] {
      var init, last := ledger[..|ledger| - 1], ledger[|ledger| - 1];
      assert ledger == init + [last];
      Users.RowsOfAppend(init, last, userId);
      HistoryCountsUsage(init, userId);
    }
  }

  /** getUsageStats: the token, then the summary of the token's user. */
  function GetUsageStats(ledger: seq<LedgerRow>, header: Option<string>, jwt: Jwt): (r: Result<Summary, Failure>)
    ensures r.Ok? <==> Authenticate(header, jwt, UsageFailed).Ok?
    ensures r.Err? ==> r.error == Authenticate(header, jwt, UsageFailed).error
    ensures r.Ok? ==> r.value.successful == SuccessCount(ledger, Authenticate(header, jwt, UsageFailed).value)
    ensures r.Ok? ==> r.value.successful + r.value.failed == r.value.total
  {
    match Authenticate(header, jwt, UsageFailed)
    case Err(f) => Err(f)
    case Ok(key) =>
      SummarySuccessIsUsed(ledger, key);
      Ok(Summarize(ledger, key))
  }

  // ---------------------------------------------------------------- quota

  /** The first (newest) row of the package query: the live subscription with the latest start
      date, else the active 'newbie' package. */
  function ResolvePackage(ups: seq<UserPackage>, packages: seq<Package>, userId: nat, today: int): (p: Option<Package>)
    ensures p.None? <==> (forall s :: s in SubscriptionsOf(ups, packages, userId) ==> !LiveOn(s, today))
                         && ActiveNewbie(packages).None?
    ensures p.Some? && p != ActiveNewbie(packages) ==>
              exists s :: s in SubscriptionsOf(ups, packages, userId) && LiveOn(s, today) && s.pkg == p.value
  {
    var live := LiveSubscriptions(SubscriptionsOf(ups, packages, userId), today);
    var newest := Newest(live);
    if newest.Some? then Some(newest.value.pkg)
    else
      assert live == [];
      ActiveNewbie(packages)
  }

  /** A live subscription wins over the newbie package, and the one chosen starts no earlier
      than any other live subscription of the user. */
  lemma ResolveNewestLive(ups: seq<UserPackage>, packages: seq<Package>, userId: nat, today: int, s: Subscription)
    requires s in SubscriptionsOf(ups, packages, userId) && LiveOn(s, today)
    ensures exists n :: n in SubscriptionsOf(ups, packages, userId) && LiveOn(n, today)
                        && ResolvePackage(ups, packages, userId, today) == Some(n.pkg)
                        && forall t :: t in SubscriptionsOf(ups, packages, userId) && LiveOn(t, today) ==> t.up.startDate <= n.up.startDate
  {
    var live := LiveSubscriptions(SubscriptionsOf(ups, packages, userId), today);
    assert s in live;
    var n := Newest(live).value;
    assert n in SubscriptionsOf(ups, packages, userId) && LiveOn(n, today);
    assert forall t :: t in SubscriptionsOf(ups, packages, userId) && LiveOn(t, today) ==> t in live;
  }

  /** The user_packages table after the lookup: the trial row is added only when no live
      subscription was found, a newbie package exists and the user has no row at all. */
  function AfterLookup(ups: seq<UserPackage>, packages: seq<Package>, userId: nat, today: int): (r: seq<UserPackage>)
    ensures r == ups || (ActiveNewbie(packages).Some? && r == ups + [UserPackage(userId, ActiveNewbie(packages).value.id, today, None, true)]
                         && !HasAnyPackage(ups, userId))
    ensures HasAnyPackage(ups, userId) ==> r == ups
    ensures ActiveNewbie(packages).Some? ==> HasAnyPackage(r, userId)
  {
    var live := Newest(LiveSubscriptions(SubscriptionsOf(ups, packages, userId), today));
    var newbie := ActiveNewbie(packages);
    if live.None? && newbie.Some? && !HasAnyPackage(ups, userId) then
      var row := UserPackage(userId, newbie.value.id, today, None, true);
      assert row in ups + [row];
      ups + [row]
    else if live.Some? then
      var s := live.value;
      assert s in SubscriptionsOf(ups, packages, userId);
      assert HasAnyPackage(ups, userId);
      ups
    else
      ups
  }

  /** Looking the quota up a second time inserts nothing more. */
  lemma AfterLookupIdempotent(ups: seq<UserPackage>, packages: seq<Package>, userId: nat, today: int)
    ensures AfterLookup(AfterLookup(ups, packages, userId, today), packages, userId, today) == AfterLookup(ups, packages, userId, today)
  {
    var once := AfterLookup(ups, packages, userId, today);
    if once != ups {
      assert HasAnyPackage(once, userId);
    }
  }

  /** pkg?.upload_limit || 10000: a null or zero limit gives 10000. */
  function TotalQuota(pkg: Option<Package>): (q: int)
    ensures q != 0
    ensures pkg.Some? && pkg.value.uploadLimit.Some? && pkg.value.uploadLimit.value != 0 ==> q == pkg.value.uploadLimit.value
    ensures (pkg.None? || pkg.value.uploadLimit.None? || pkg.value.uploadLimit.value == 0) ==> q == DefaultQuota
  {
    if pkg.Some? && pkg.value.uploadLimit.Some? && pkg.value.uploadLimit.value != 0 then pkg.value.uploadLimit.value else DefaultQuota
  }

  /** Math.max(0, total - used) */
  function Remaining(total: int, used: nat): (r: int)
    ensures r >= 0 && r >= total - used
    ensures r == 0 || r == total - used
  {
    if total - used > 0 then total - used else 0
  }

  /** The `quota` object (resetDate is always null). */
  datatype Quota = Quota(packageName: string, total: int, used: nat, remaining: int, price: Option<string>)

  /** The quota object for a resolved package and a used count. */
  function QuotaOf(pkg: Option<Package>, used: nat): (q: Quota)
    ensures q.total == TotalQuota(pkg) && q.used == used
    ensures q.remaining >= 0 && q.remaining == Remaining(q.total, used)
    ensures q.packageName != ""
    ensures pkg.Some? && pkg.value.name != "" ==> q.packageName == pkg.value.name
    ensures (pkg.None? || pkg.value.name == "") ==> q.packageName == NewbieName
    ensures q.price == if pkg.Some? then pkg.value.price else None
  {
    var total := TotalQuota(pkg);
    Quota(if pkg.Some? && pkg.value.name != "" then pkg.value.name else NewbieName,
          total, used, Remaining(total, used), if pkg.Some? then pkg.value.price else None)
  }

  /** getQuotaInfo: the token, the package (and the trial assignment), the used count. */
  method GetQuotaInfo(db: Database, header: Option<string>, jwt: Jwt, today: int) returns (r: Result<Quota, Failure>)
    modifies db
    ensures Authenticate(header, jwt, QuotaFailed).Err? ==>
              r == Err(Authenticate(header, jwt, QuotaFailed).error) && db.userPackages == old(db.userPackages)
    ensures Authenticate(header, jwt, QuotaFailed).Ok? ==>
              var key := Authenticate(header, jwt, QuotaFailed).value;
              && db.userPackages == AfterLookup(old(db.userPackages), db.packages, key, today)
              && r == Ok(QuotaOf(ResolvePackage(old(db.userPackages), db.packages, key, today), SuccessCount(db.ledger, key)))
    ensures db.users == old(db.users) && db.ledger == old(db.ledger) && db.pending == old(db.pending)
    ensures db.packages == old(db.packages) && db.nextUserId == old(db.nextUserId) && db.nextPendingId == old(db.nextPendingId)
  {
    var auth := Authenticate(header, jwt, QuotaFailed);
    if auth.Err? {
      r := Err(auth.error);
      return;
    }
    var key := auth.value;
    var pkg: Option<Package> := None;
    var live := Newest(LiveSubscriptions(SubscriptionsOf(db.userPackages, db.packages, key), today));
    if live.Some? {
      pkg := Some(live.value.pkg);
    }
    if pkg.None? {
      var newbie := ActiveNewbie(db.packages);
      if newbie.Some? {
        pkg := newbie;
        if !HasAnyPackage(db.userPackages, key) {
          db.userPackages := db.userPackages + [UserPackage(key, newbie.value.id, today, None, true)];
        }
      }
    }
    var used := SuccessCount(db.ledger, key);
    r := Ok(QuotaOf(pkg, used));
  }

  /** The two quota paths disagree on a package whose upload_limit is 0: the webhook keeps the
      0 (`??`) and so refuses every image, while the statistics page shows 10000 (`||`). */
  lemma QuotaFallbacksDiffer(ups: seq<UserPackage>, packages: seq<Package>, ledger: seq<LedgerRow>,
                             userId: nat, today: int, s: Subscription)
    requires s in SubscriptionsOf(ups, packages, userId)
    requires forall t :: t in SubscriptionsOf(ups, packages, userId) && t != s ==> t.up.startDate < s.up.startDate
    requires LiveOn(s, today) && s.pkg.uploadLimit == Some(0)
    ensures Webhook.UploadLimit(ups, packages, userId) == 0
    ensures SuccessCount(ledger, userId) >= Webhook.UploadLimit(ups, packages, userId)
    ensures ResolvePackage(ups, packages, userId, today) == Some(s.pkg)
    ensures QuotaOf(ResolvePackage(ups, packages, userId, today), SuccessCount(ledger, userId)).total == DefaultQuota
  {
    Webhook.UploadLimitOfNewest(ups, packages, userId, s);
    var live := LiveSubscriptions(SubscriptionsOf(ups, packages, userId), today);
    assert s in live;
    var n := Newest(live).value;
    assert s.up.startDate <= n.up.startDate;
    assert n == s;
  }
}
