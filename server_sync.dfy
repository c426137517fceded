/** The sync engine of the long-running server (server.ts): `syncTransactions`,
    which catches every failure, the webhook that stores a bank connection and
    syncs it, and the manual sync of a user's most recent connection. */
module ServerSync {
  import opened Basics
  import opened Store
  import opened Fintoc

  /** The fixed principal every request acts for. */
  const DEMO_USER := "00000000-0000-0000-0000-000000000000"

  /** The state of the account loop: the table, `totalSynced`, and whether an
      exception ended it. */
  datatype Run = Run(table: Table, total: nat, failed: bool)

  type Batch = Fetch<seq<Payload>>

  /** The loop body for one account (server.ts:103-128), given what reading
      it gave: a failed movements request throws; an empty movement list is
      skipped; a batch is upserted and counted only when the store reports no
      error. */
  function Step(online: bool, t: Table, b: Batch, total: nat): Run {
    match b
    case FetchFailed => Run(t, total, true)
    case Fetched(batch) =>
      if batch == [] || Rejects(online, batch) then Run(t, total, false)
      else Run(UpsertRows(t, batch), total + |batch|, false)
  }

  /** The account loop (server.ts:101-130) over the batches of the accounts
      still to read, ended by the first step that throws. */
  function AccountLoop(online: bool, t: Table, bs: seq<Batch>, total: nat): Run
    decreases |bs|
  {
    if bs == [] then Run(t, total, false)
    else
      var r := Step(online, t, bs[0], total);
      if r.failed then r else AccountLoop(online, r.table, bs[1..], r.total)
  }

  /** `syncTransactions(userId, linkToken)` of server.ts:87-136: the new
      `transacciones` table and what the run logs. It never throws. */
  function Sync(online: bool, t: Table, api: Api, userId: string, linkToken: string, now: string): (Table, SyncLog) {
    match ListAccounts(api, linkToken)
    case FetchFailed => (t, Failed)
    case Fetched(accounts) =>
      if accounts == [] then (t, NoAccounts)
      else
        var run := AccountLoop(online, t, Batches(accounts, userId, now), 0);
        (run.table, if run.failed then Failed else Synced(run.total))
  }

  /** The rows the store accepts during the loop: every batch it does not
      reject, up to the first failed movements request. */
  function Accepted(online: bool, bs: seq<Batch>): seq<Payload>
    decreases |bs|
  {
    if bs == [] then []
    else
      match bs[0]
      case FetchFailed => []
      case Fetched(batch) =>
        var rest := Accepted(online, bs[1..]);
        if batch == [] || Rejects(online, batch) then rest else batch + rest
  }

  /** Accepted rows come from the batches read. */
  lemma {:induction false} AcceptedPending(online: bool, bs: seq<Batch>, userId: string)
    requires AllPending(bs, userId)
    ensures forall p :: p in Accepted(online, bs) ==> p.estado == PENDIENTE && p.userId == userId
    decreases |bs|
  {
    if bs != [] {
      assert AllPending(bs[1..], userId) by {
        forall i, p | 0 <= i < |bs[1..]| && bs[1..][i].Fetched? && p in bs[1..][i].data
          ensures p.estado == PENDIENTE && p.userId == userId
        {
          assert bs[1..][i] == bs[i + 1];
        }
      }
      AcceptedPending(online, bs[1..], userId);
    }
  }

  /** Some account's movements request fails. */
  predicate Aborts(bs: seq<Batch>) {
    exists i :: 0 <= i < |bs| && bs[i].FetchFailed?
  }

  /** The loop amounts to one upsert of the accepted rows, `totalSynced`
      counts exactly those rows, and the loop throws iff some movements
      request fails. */
  lemma {:induction false} AccountLoopWrites(online: bool, t: Table, bs: seq<Batch>, total: nat)
    ensures LoopWrites(online, t, bs, total)
    decreases |bs|
  {
    if bs != [] {
      AbortsTail(bs);
      if bs[0].FetchFailed? {
        assert Accepted(online, bs) == [];
        UnfoldFailed(online, t, bs, total);
      } else {
        var batch := bs[0].data;
        if batch == [] || Rejects(online, batch) {
          AccountLoopWrites(online, t, bs[1..], total);
          SkippedStep(online, t, bs, total);
        } else {
          AccountLoopWrites(online, UpsertRows(t, batch), bs[1..], total + |batch|);
          AcceptedStep(online, t, bs, total);
        }
      }
    }
  }

  /** The statement of `AccountLoopWrites`. */
  predicate LoopWrites(online: bool, t: Table, bs: seq<Batch>, total: nat) {
    AccountLoop(online, t, bs, total)
      == Run(UpsertRows(t, Accepted(online, bs)), total + |Accepted(online, bs)|, Aborts(bs))
  }

  lemma SkippedStep(online: bool, t: Table, bs: seq<Batch>, total: nat)
    requires bs != [] && bs[0].Fetched? && (bs[0].data == [] || Rejects(online, bs[0].data))
    requires Aborts(bs) == Aborts(bs[1..])
    requires LoopWrites(online, t, bs[1..], total)
    ensures LoopWrites(online, t, bs, total)
  {
    assert Accepted(online, bs) == Accepted(online, bs[1..]);
    UnfoldSkipped(online, t, bs, total);
  }

  lemma AcceptedStep(online: bool, t: Table, bs: seq<Batch>, total: nat)
    requires bs != [] && bs[0].Fetched? && bs[0].data != [] && !Rejects(online, bs[0].data)
    requires Aborts(bs) == Aborts(bs[1..])
    requires LoopWrites(online, UpsertRows(t, bs[0].data), bs[1..], total + |bs[0].data|)
    ensures LoopWrites(online, t, bs, total)
  {
    var batch := bs[0].data;
    var rest := Accepted(online, bs[1..]);
    var accepted := Accepted(online, bs);
    assert accepted == batch + rest;
    UnfoldAccepted(online, t, bs, total);
    UpsertRowsAppend(t, batch, rest);
    assert UpsertRows(t, accepted) == UpsertRows(UpsertRows(t, batch), rest);
    assert |accepted| == |batch| + |rest|;
  }

  lemma AbortsTail(bs: seq<Batch>)
    requires bs != []
    ensures Aborts(bs) <==> bs[0].FetchFailed? || Aborts(bs[1..])
  {
    if Aborts(bs[1..]) {
      var i :| 0 <= i < |bs[1..]| && bs[1..][i].FetchFailed?;
      assert bs[i + 1].FetchFailed?;
    }
    if Aborts(bs) && !bs[0].FetchFailed? {
      var i :| 0 <= i < |bs| && bs[i].FetchFailed?;
      assert bs[1..][i - 1].FetchFailed?;
    }
  }

  /** A failed movements request stops the loop: the accounts after it are
      never read, and the run ends with what the earlier accounts wrote. */
  lemma {:induction false} FailureStopsLoop(online: bool, t: Table, bs: seq<Batch>, total: nat, k: nat)
    requires k < |bs| && bs[k].FetchFailed?
    requires forall j :: 0 <= j < k ==> bs[j].Fetched?
    ensures AccountLoop(online, t, bs, total) == AccountLoop(online, t, bs[..k], total).(failed := true)
    decreases k
  {
    if k == 0 {
      UnfoldFailed(online, t, bs, total);
      assert bs[..k] == [];
    } else {
      var prefix := bs[..k];
      assert prefix[0] == bs[0] && prefix[1..] == bs[1..][..k - 1];
      assert bs[1..][k - 1] == bs[k];
      var batch := bs[0].data;
      if batch == [] || Rejects(online, batch) {
        UnfoldSkipped(online, t, bs, total);
        UnfoldSkipped(online, t, prefix, total);
        FailureStopsLoop(online, t, bs[1..], total, k - 1);
      } else {
        UnfoldAccepted(online, t, bs, total);
        UnfoldAccepted(online, t, prefix, total);
        FailureStopsLoop(online, UpsertRows(t, batch), bs[1..], total + |batch|, k - 1);
      }
    }
  }

  /** One step of the account loop, one lemma per case. */
  lemma UnfoldFailed(online: bool, t: Table, bs: seq<Batch>, total: nat)
    requires bs != [] && bs[0].FetchFailed?
    ensures AccountLoop(online, t, bs, total) == Run(t, total, true)
  {
  }

  lemma UnfoldSkipped(online: bool, t: Table, bs: seq<Batch>, total: nat)
    requires bs != [] && bs[0].Fetched? && (bs[0].data == [] || Rejects(online, bs[0].data))
    ensures AccountLoop(online, t, bs, total) == AccountLoop(online, t, bs[1..], total)
  {
  }

  lemma UnfoldAccepted(online: bool, t: Table, bs: seq<Batch>, total: nat)
    requires bs != [] && bs[0].Fetched? && bs[0].data != [] && !Rejects(online, bs[0].data)
    ensures AccountLoop(online, t, bs, total) == AccountLoop(online, UpsertRows(t, bs[0].data), bs[1..], total + |bs[0].data|)
  {
  }

  /** Running the sync a second time with the same provider answers and the
      same clock leaves the table as the first run left it and logs the same. */
  lemma SyncIdempotent(online: bool, t: Table, api: Api, userId: string, linkToken: string, now: string)
    ensures Sync(online, Sync(online, t, api, userId, linkToken, now).0, api, userId, linkToken, now)
         == Sync(online, t, api, userId, linkToken, now)
  {
    if ListAccounts(api, linkToken).Fetched? {
      var accounts := ListAccounts(api, linkToken).data;
      if accounts != [] {
        var bs := Batches(accounts, userId, now);
        var rows := Accepted(online, bs);
        AccountLoopWrites(online, t, bs, 0);
        AccountLoopWrites(online, UpsertRows(t, rows), bs, 0);
        UpsertRowsIdempotent(t, rows);
      }
    }
  }

  /** A sync into an empty table leaves one row per distinct `fintoc_id` the
      store accepted, and a completed run's `totalSynced` is the number of
      accepted rows, so it is at least the number of stored rows. */
  lemma SyncFromEmpty(online: bool, api: Api, userId: string, linkToken: string, now: string)
    requires ListAccounts(api, linkToken).Fetched?
    ensures var rows := Accepted(online, Batches(ListAccounts(api, linkToken).data, userId, now));
      var (t, log) := Sync(online, map[], api, userId, linkToken, now);
      && t.Keys == Ids(rows)
      && (log.Synced? ==> log.total == |rows| && |t.Keys| <= log.total)
  {
    var bs := Batches(ListAccounts(api, linkToken).data, userId, now);
    var rows := Accepted(online, bs);
    AccountLoopWrites(online, map[], bs, 0);
    UpsertRowsKeys(map[], rows);
    IdsSize(rows);
  }

  /** A sync adds exactly the ids of the accepted rows to the table, so a
      reachable store holds every movement of a batch it accepted. */
  lemma SyncKeys(online: bool, t: Table, api: Api, userId: string, linkToken: string, now: string)
    requires ListAccounts(api, linkToken).Fetched?
    ensures Sync(online, t, api, userId, linkToken, now).0.Keys
         == t.Keys + Ids(Accepted(online, Batches(ListAccounts(api, linkToken).data, userId, now)))
  {
    var bs := Batches(ListAccounts(api, linkToken).data, userId, now);
    AccountLoopWrites(online, t, bs, 0);
    UpsertRowsKeys(t, Accepted(online, bs));
  }

  lemma {:induction false} IdsSize(batch: seq<Payload>)
    ensures |Ids(batch)| <= |batch|
    decreases |batch|
  {
    if batch != [] {
      IdsTail(batch);
      IdsSize(batch[1..]);
    }
  }

  /** A re-sync never touches the category columns of a stored row: it keeps
      `categoria_asignada` and `razonamiento_breve`, and its `estado_revision`
      either stays or becomes 'pendiente'. A row it inserts has no category. */
  lemma SyncKeepsClassification(online: bool, t: Table, api: Api, userId: string, linkToken: string, now: string, k: string)
    ensures var t' := Sync(online, t, api, userId, linkToken, now).0;
      && (k in t ==> k in t' && t'[k].categoria == t[k].categoria && t'[k].razonamiento == t[k].razonamiento
                     && (t'[k].estado == t[k].estado || t'[k].estado == Some(PENDIENTE)))
      && (k in t' && k !in t ==> t'[k].categoria == None && t'[k].estado == Some(PENDIENTE))
  {
    if ListAccounts(api, linkToken).Fetched? {
      var accounts := ListAccounts(api, linkToken).data;
      if accounts != [] {
        var bs := Batches(accounts, userId, now);
        var rows := Accepted(online, bs);
        AccountLoopWrites(online, t, bs, 0);
        BatchesPending(accounts, userId, now);
        AcceptedPending(online, bs, userId);
        UpsertRowsAt(t, rows, k);
        if k in Ids(rows) {
          UpsertKeepsClassification(t, rows, k);
        }
      }
    }
  }

  /** The loop body for one account. */
  method SyncAccount(db: Database, account: Account, userId: string, now: string, total: nat) returns (failed: bool, total': nat)
    modifies db`transacciones
    ensures Run(db.transacciones, total', failed) == Step(db.online, old(db.transacciones), BatchOf(account, userId, now), total)
  {
    total' := total;
    var movementsRes := account.movements;
    if movementsRes.FetchFailed? {
      return true, total;
    }
    var movements := movementsRes.data;
    if |movements| == 0 {
      return false, total;
    }
    var dbTransactions := ToBatch(movements, userId, now);
    var error := db.UpsertTransactions(dbTransactions);
    if !error {
      total' := total + |dbTransactions|;
    }
    failed := false;
  }

  method SyncTransactions(db: Database, api: Api, userId: string, linkToken: string, now: string) returns (log: SyncLog)
    modifies db`transacciones
    ensures (db.transacciones, log) == Sync(db.online, old(db.transacciones), api, userId, linkToken, now)
  {
    var accountsRes := ListAccounts(api, linkToken);
    if accountsRes.FetchFailed? {
      return Failed;
    }
    var accounts := accountsRes.data;
    if |accounts| == 0 {
      return NoAccounts;
    }
    ghost var bs := Batches(accounts, userId, now);
    var totalSynced: nat := 0;
    for i := 0 to |accounts|
      invariant AccountLoop(db.online, old(db.transacciones), bs, 0)
             == AccountLoop(db.online, db.transacciones, bs[i..], totalSynced)
    {
      assert bs[i..][0] == BatchOf(accounts[i], userId, now) && bs[i..][1..] == bs[i + 1..];
      var failed;
      failed, totalSynced := SyncAccount(db, accounts[i], userId, now, totalSynced);
      if failed {
        return Failed;
      }
    }
    log := Synced(totalSynced);
  }

  /** POST /api/fintoc/webhook (server.ts:52-82): a missing or empty
      `link_token` is refused with 400 before any write; otherwise the
      connection is upserted for the demo user (institution 'unknown' when
      `holder_id` is missing), a store error there is only logged and the token
      is synced all the same, and the answer is 200. */
  method Webhook(db: Database, api: Api, linkToken: Option<string>, holderId: Option<string>, now: string) returns (status: nat)
    requires db.Valid()
    modifies db
    ensures db.Valid()
    ensures !Truthy(linkToken) ==> status == 400 && db.transacciones == old(db.transacciones)
                                   && db.conexiones == old(db.conexiones) && db.clock == old(db.clock)
    ensures Truthy(linkToken) ==> status == 200
    ensures Truthy(linkToken) ==>
      db.conexiones == if db.online && db.conexionesWritable
                       then PutConnection(old(db.conexiones), DEMO_USER, linkToken.value, OrElse(holderId, "unknown"), old(db.clock))
                       else old(db.conexiones)
    ensures Truthy(linkToken) ==>
      db.transacciones == Sync(db.online, old(db.transacciones), api, DEMO_USER, linkToken.value, now).0
  {
    if !Truthy(linkToken) {
      return 400;
    }
    var userId := DEMO_USER;
    var dbError := db.UpsertConnection(userId, linkToken.value, OrElse(holderId, "unknown"));
    var _ := SyncTransactions(db, api, userId, linkToken.value, now);
    status := 200;
  }

  /** GET /api/fintoc/sync (server.ts:141-163): the user is the `userId` query
      parameter or the demo user; without a stored connection for them, or when
      the store cannot answer, 404 and no sync; otherwise the most recent
      connection's token is synced and the answer is 200. */
  method ManualSync(db: Database, api: Api, userIdQuery: Option<string>, now: string) returns (status: nat)
    modifies db`transacciones
    ensures var userId := OrElse(userIdQuery, DEMO_USER);
      var latest := LatestFor(db.conexiones, userId);
      && status == (if db.online && latest.Some? then 200 else 404)
      && db.transacciones == if db.online && latest.Some?
                             then Sync(db.online, old(db.transacciones), api, userId, latest.value.linkToken, now).0
                             else old(db.transacciones)
  {
    var userId := OrElse(userIdQuery, DEMO_USER);
    var error, token := db.LatestLinkToken(userId);
    if error || token.None? {
      return 404;
    }
    var _ := SyncTransactions(db, api, userId, token.value, now);
    status := 200;
  }
}
