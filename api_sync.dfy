/** The serverless variant of the sync engine (api/fintoc.ts): a
    `syncTransactions` that lets provider failures escape and counts every
    batch it sends, and one `handler` that routes on method and URL. */
module ApiSync {
  import opened Basics
  import opened Store
  import opened Fintoc
  import ServerSync

  /** The loop body for one account (api/fintoc.ts:24-45), given what
      reading it gave: a failed movements request throws out of the loop; an
      empty movement list is skipped; every other batch is sent to the store
      and counted, whatever the store answers. */
  function Step(online: bool, t: Table, b: ServerSync.Batch, total: nat): ServerSync.Run {
    match b
    case FetchFailed => ServerSync.Run(t, total, true)
    case Fetched(batch) =>
      if batch == [] then ServerSync.Run(t, total, false)
      else ServerSync.Run(if Rejects(online, batch) then t else UpsertRows(t, batch), total + |batch|, false)
  }

  /** The account loop of api/fintoc.ts:22-47 over the batches of the
      accounts still to read. */
  function AccountLoop(online: bool, t: Table, bs: seq<ServerSync.Batch>, total: nat): ServerSync.Run
    decreases |bs|
  {
    if bs == [] then ServerSync.Run(t, total, false)
    else
      var r := Step(online, t, bs[0], total);
      if r.failed then r else AccountLoop(online, r.table, bs[1..], r.total)
  }

  /** `syncTransactions(userId, linkToken)` of api/fintoc.ts:13-50: the new
      table and the outcome, where `Failed` means the exception propagates to
      the caller. */
  function Sync(online: bool, t: Table, api: Api, userId: string, linkToken: string, now: string): (Table, SyncLog) {
    match ListAccounts(api, linkToken)
    case FetchFailed => (t, Failed)
    case Fetched(accounts) =>
      if accounts == [] then (t, NoAccounts)
      else
        var run := AccountLoop(online, t, Batches(accounts, userId, now), 0);
        (run.table, if run.failed then Failed else Synced(run.total))
  }

  /** Every row the loop sends to the store: the batches up to the first
      failed movements request. */
  function Attempted(bs: seq<ServerSync.Batch>): seq<Payload>
    decreases |bs|
  {
    if bs == [] then []
    else
      match bs[0]
      case FetchFailed => []
      case Fetched(batch) => batch + Attempted(bs[1..])
  }

  /** The two variants write the same rows and stop at the same failure; this
      one's `totalSynced` counts every row it sent, so it is never below the
      server's, which counts only the rows the store accepted. */
  lemma {:induction false} LoopMatchesServer(online: bool, t: Table, bs: seq<ServerSync.Batch>, ta: nat, ts: nat)
    ensures var a := AccountLoop(online, t, bs, ta);
      var s := ServerSync.AccountLoop(online, t, bs, ts);
      && a.table == s.table
      && a.failed == s.failed
      && a.total == ta + |Attempted(bs)|
      && s.total - ts <= a.total - ta
    decreases |bs|
  {
    if bs != [] {
      if bs[0].Fetched? {
        var batch := bs[0].data;
        assert Attempted(bs) == batch + Attempted(bs[1..]);
        if batch == [] {
          ServerSync.UnfoldSkipped(online, t, bs, ts);
          LoopMatchesServer(online, t, bs[1..], ta, ts);
        } else if Rejects(online, batch) {
          ServerSync.UnfoldSkipped(online, t, bs, ts);
          LoopMatchesServer(online, t, bs[1..], ta + |batch|, ts);
        } else {
          ServerSync.UnfoldAccepted(online, t, bs, ts);
          LoopMatchesServer(online, UpsertRows(t, batch), bs[1..], ta + |batch|, ts + |batch|);
        }
      } else {
        ServerSync.UnfoldFailed(online, t, bs, ts);
      }
    }
  }

  /** Both variants leave the store in the same state and fail on the same
      inputs; when both complete, this one reports at least as many rows. */
  lemma SyncMatchesServer(online: bool, t: Table, api: Api, userId: string, linkToken: string, now: string)
    ensures var (ta, la) := Sync(online, t, api, userId, linkToken, now);
      var (ts, ls) := ServerSync.Sync(online, t, api, userId, linkToken, now);
      && ta == ts
      && (la.Failed? <==> ls.Failed?)
      && (la.NoAccounts? <==> ls.NoAccounts?)
      && (la.Synced? && ls.Synced? ==> ls.total <= la.total)
  {
    if ListAccounts(api, linkToken).Fetched? {
      LoopMatchesServer(online, t, Batches(ListAccounts(api, linkToken).data, userId, now), 0, 0);
    }
  }

  /** An unreachable store takes no row, yet a completed run still reports
      every movement it read. */
  lemma OfflineStillCounts(t: Table, api: Api, userId: string, linkToken: string, now: string)
    requires ListAccounts(api, linkToken).Fetched?
    ensures var bs := Batches(ListAccounts(api, linkToken).data, userId, now);
      var (t', log) := Sync(false, t, api, userId, linkToken, now);
      && t' == t
      && (log.Synced? ==> log.total == |Attempted(bs)|)
  {
    var bs := Batches(ListAccounts(api, linkToken).data, userId, now);
    LoopMatchesServer(false, t, bs, 0, 0);
    ServerSync.AccountLoopWrites(false, t, bs, 0);
    NothingAcceptedOffline(bs);
  }

  lemma {:induction false} NothingAcceptedOffline(bs: seq<ServerSync.Batch>)
    ensures ServerSync.Accepted(false, bs) == []
    decreases |bs|
  {
    if bs != [] {
      NothingAcceptedOffline(bs[1..]);
    }
  }

  /** The loop body for one account. */
  method SyncAccount(db: Database, account: Account, userId: string, now: string, total: nat) returns (failed: bool, total': nat)
    modifies db`transacciones
    ensures ServerSync.Run(db.transacciones, total', failed)
         == Step(db.online, old(db.transacciones), BatchOf(account, userId, now), total)
  {
    var movementsRes := account.movements;
    if movementsRes.FetchFailed? {
      return true, total;
    }
    var movements := movementsRes.data;
    if |movements| == 0 {
      return false, total;
    }
    var dbTransactions := ToBatch(movements, userId, now);
    var _ := db.UpsertTransactions(dbTransactions);
    return false, total + |dbTransactions|;
  }

  method SyncTransactions(db: Database, api: Api, userId: string, linkToken: string, now: string) returns (outcome: SyncLog)
    modifies db`transacciones
    ensures (db.transacciones, outcome) == Sync(db.online, old(db.transacciones), api, userId, linkToken, now)
  {
    var accountsRes := ListAccounts(api, linkToken);
    if accountsRes.FetchFailed? {
      return Failed;
    }
    var accounts := accountsRes.data;
    if |accounts| == 0 {
      return NoAccounts;
    }
    ghost var bs := Batches(accounts, userId, now);
    var totalSynced: nat := 0;
    for i := 0 to |accounts|
      invariant AccountLoop(db.online, old(db.transacciones), bs, 0)
             == AccountLoop(db.online, db.transacciones, bs[i..], totalSynced)
    {
      assert bs[i..][0] == BatchOf(accounts[i], userId, now) && bs[i..][1..] == bs[i + 1..];
      var failed;
      failed, totalSynced := SyncAccount(db, accounts[i], userId, now, totalSynced);
      if failed {
        return Failed;
      }
    }
    outcome := Synced(totalSynced);
  }

  /** The endpoint a request reaches. */
  datatype Route = LinkIntentRoute | WebhookRoute | ManualSyncRoute | NotAllowed

  /** `req.url?.includes(word)`: false when the URL is absent. */
  predicate Mentions(url: Option<string>, word: string) {
    url.Some? && Includes(url.value, word)
  }

  /** The branch `handler` takes (api/fintoc.ts:54,69,89,110): a POST whose URL
      names neither 'webhook' nor 'sync' creates a link intent, a POST naming
      'webhook' is the webhook, a GET naming 'sync' is the manual sync, and
      everything else (a POST naming only 'sync' among them) is refused. */
  function RouteOf(verb: string, url: Option<string>): (r: Route)
    ensures r == LinkIntentRoute <==>
      verb == "POST" && !(url.Some? && exists i :: OccursAt(url.value, "webhook", i))
                       && !(url.Some? && exists i :: OccursAt(url.value, "sync", i))
    ensures r == WebhookRoute <==> verb == "POST" && url.Some? && exists i :: OccursAt(url.value, "webhook", i)
    ensures r == ManualSyncRoute <==> verb == "GET" && url.Some? && exists i :: OccursAt(url.value, "sync", i)
  {
    if verb == "POST" && !Mentions(url, "webhook") && !Mentions(url, "sync") then LinkIntentRoute
    else if verb == "POST" && Mentions(url, "webhook") then WebhookRoute
    else if verb == "GET" && Mentions(url, "sync") then ManualSyncRoute
    else NotAllowed
  }

  /** The parts of a request the handler reads. */
  datatype Request = Request(
    verb: string,
    url: Option<string>,
    linkToken: Option<string>,
    holderId: Option<string>,
    userIdQuery: Option<string>)

  /** The webhook branch (api/fintoc.ts:69-86): 400 before any write when
      `link_token` is missing or empty; otherwise the connection is upserted
      (institution 'unknown' by default, the store's answer ignored), the token
      is synced, and a sync that throws turns the answer into 500. */
  method Webhook(db: Database, api: Api, linkToken: Option<string>, holderId: Option<string>, now: string) returns (status: nat)
    requires db.Valid()
    modifies db
    ensures db.Valid()
    ensures !Truthy(linkToken) ==> status == 400 && unchanged(db)
    ensures Truthy(linkToken) ==>
      var (t', outcome) := Sync(db.online, old(db.transacciones), api, ServerSync.DEMO_USER, linkToken.value, now);
      && db.transacciones == t'
      && status == (if outcome.Failed? then 500 else 200)
      && db.conexiones == if db.online && db.conexionesWritable
                          then PutConnection(old(db.conexiones), ServerSync.DEMO_USER, linkToken.value, OrElse(holderId, "unknown"), old(db.clock))
                          else old(db.conexiones)
  {
    if !Truthy(linkToken) {
      return 400;
    }
    var userId := ServerSync.DEMO_USER;
    var _ := db.UpsertConnection(userId, linkToken.value, OrElse(holderId, "unknown"));
    var outcome := SyncTransactions(db, api, userId, linkToken.value, now);
    status := if outcome.Failed? then 500 else 200;
  }

  /** The manual-sync branch (api/fintoc.ts:89-108): the user's most recent
      connection is synced (the demo user by default); with none, or when the
      store cannot answer, 404 and no sync; a sync that throws gives 500. */
  method ManualSync(db: Database, api: Api, userIdQuery: Option<string>, now: string) returns (status: nat)
    modifies db`transacciones
    ensures var userId := OrElse(userIdQuery, ServerSync.DEMO_USER);
      var latest := LatestFor(db.conexiones, userId);
      if db.online && latest.Some? then
        var (t', outcome) := Sync(db.online, old(db.transacciones), api, userId, latest.value.linkToken, now);
        db.transacciones == t' && status == (if outcome.Failed? then 500 else 200)
      else
        db.transacciones == old(db.transacciones) && status == 404
  {
    var userId := OrElse(userIdQuery, ServerSync.DEMO_USER);
    var error, token := db.LatestLinkToken(userId);
    if error || token.None? {
      return 404;
    }
    var outcome := SyncTransactions(db, api, userId, token.value, now);
    status := if outcome.Failed? then 500 else 200;
  }

  /** `handler(req, res)`: the status of the answer. The link-intent branch
      only relays whether the provider created the intent. */
  method Handler(db: Database, api: Api, req: Request, now: string, linkIntentCreated: bool) returns (status: nat)
    requires db.Valid()
    modifies db
    ensures db.Valid()
    ensures RouteOf(req.verb, req.url) == LinkIntentRoute ==>
      status == (if linkIntentCreated then 200 else 500) && unchanged(db)
    ensures RouteOf(req.verb, req.url) == NotAllowed ==> status == 405 && unchanged(db)
    ensures RouteOf(req.verb, req.url) == WebhookRoute && !Truthy(req.linkToken) ==>
      status == 400 && unchanged(db)
    ensures RouteOf(req.verb, req.url) == WebhookRoute && Truthy(req.linkToken) ==>
      var (t', outcome) := Sync(db.online, old(db.transacciones), api, ServerSync.DEMO_USER, req.linkToken.value, now);
      && db.transacciones == t'
      && status == (if outcome.Failed? then 500 else 200)
      && db.conexiones == if db.online && db.conexionesWritable
                          then PutConnection(old(db.conexiones), ServerSync.DEMO_USER, req.linkToken.value,
                                             OrElse(req.holderId, "unknown"), old(db.clock))
                          else old(db.conexiones)
    ensures RouteOf(req.verb, req.url) == ManualSyncRoute ==>
      && db.conexiones == old(db.conexiones)
      && var userId := OrElse(req.userIdQuery, ServerSync.DEMO_USER);
         var latest := LatestFor(db.conexiones, userId);
         if db.online && latest.Some? then
           var (t', outcome) := Sync(db.online, old(db.transacciones), api, userId, latest.value.linkToken, now);
           db.transacciones == t' && status == (if outcome.Failed? then 500 else 200)
         else
           db.transacciones == old(db.transacciones) && status == 404
  {
    var route := RouteOf(req.verb, req.url);
    match route
    case LinkIntentRoute =>
      status := if linkIntentCreated then 200 else 500;
    case WebhookRoute =>
      status := Webhook(db, api, req.linkToken, req.holderId, now);
    case ManualSyncRoute =>
      status := ManualSync(db, api, req.userIdQuery, now);
    case NotAllowed =>
      status := 405;
  }
}
