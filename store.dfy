/** The persistent store: the `transacciones` table keyed by `fintoc_id` and the
    `conexiones_bancarias` table keyed by `link_token`, held in memory. */
module Store {
  import opened Basics

  const PENDIENTE := "pendiente"

  /** The columns a sync writes for one movement. It carries no category
      columns, so an upsert never touches them. */
  datatype Payload = Payload(
    userId: string,
    fintocId: string,
    descripcion: string,
    monto: nat,
    tipo: Tipo,
    fecha: string,
    estado: string)

  /** A stored row of `transacciones` (the store-assigned `id` and `created_at`
      columns are not modelled here). */
  datatype Row = Row(
    userId: string,
    fintocId: string,
    descripcion: string,
    monto: nat,
    tipo: Tipo,
    fecha: string,
    categoria: Option<string>,
    estado: Option<string>,
    razonamiento: Option<string>)

  type Table = map<string, Row>

  function Lookup(t: Table, k: string): Option<Row> {
    if k in t then Some(t[k]) else None
  }

  /** The row an upsert of `p` leaves behind when the key held `prior`: every
      column of the payload is overwritten, the category columns are kept
      (or null for a fresh insert). */
  function Merge(prior: Option<Row>, p: Payload): Row {
    Row(p.userId, p.fintocId, p.descripcion, p.monto, p.tipo, p.fecha,
        if prior.Some? then prior.value.categoria else None,
        Some(p.estado),
        if prior.Some? then prior.value.razonamiento else None)
  }

  /** The set of `fintoc_id`s a batch names. */
  function Ids(batch: seq<Payload>): set<string> {
    set i | 0 <= i < |batch| :: batch[i].fintocId
  }

  predicate HasDuplicateIds(batch: seq<Payload>) {
    exists i, j :: 0 <= i < j < |batch| && batch[i].fintocId == batch[j].fintocId
  }

  /** Whether the store rejects an upsert of `batch` (nothing is written then):
      when it is unreachable, or when two rows of the batch share a
      `fintoc_id`, which PostgreSQL's INSERT ... ON CONFLICT DO UPDATE refuses
      ("cannot affect row a second time"). */
  predicate Rejects(online: bool, batch: seq<Payload>) {
    !online || HasDuplicateIds(batch)
  }

  /** `upsert(batch, { onConflict: 'fintoc_id' })`, row after row. */
  function UpsertRows(t: Table, batch: seq<Payload>): Table
    decreases |batch|
  {
    if batch == [] then t
    else
      var p := batch[0];
      UpsertRows(t[p.fintocId := Merge(Lookup(t, p.fintocId), p)], batch[1..])
  }

  /** The last row of `batch` that names `k`. */
  function Last(batch: seq<Payload>, k: string): (p: Payload)
    requires k in Ids(batch)
    ensures p in batch && p.fintocId == k
    decreases |batch|
  {
    assert batch != [];
    if k in Ids(batch[1..]) then Last(batch[1..], k)
    else
      assert batch[0].fintocId == k by {
        var i :| 0 <= i < |batch| && batch[i].fintocId == k;
      }
      batch[0]
  }

  lemma IdsTail(batch: seq<Payload>)
    requires batch != []
    ensures Ids(batch) == {batch[0].fintocId} + Ids(batch[1..])
  {
    forall k | k in Ids(batch) ensures k in {batch[0].fintocId} + Ids(batch[1..]) {
      var i :| 0 <= i < |batch| && batch[i].fintocId == k;
      if i > 0 { assert batch[1..][i - 1].fintocId == k; }
    }
    forall k | k in Ids(batch[1..]) ensures k in Ids(batch) {
      var i :| 0 <= i < |batch[1..]| && batch[1..][i].fintocId == k;
      assert batch[i + 1].fintocId == k;
    }
  }

  /** The effect of an upsert on one key: a key the batch names holds the
      payload columns of the batch's last row for it, with the category
      columns it had before; every other key is untouched. */
  lemma {:induction false} UpsertRowsAt(t: Table, batch: seq<Payload>, k: string)
    ensures k in Ids(batch) ==>
      k in UpsertRows(t, batch) && UpsertRows(t, batch)[k] == Merge(Lookup(t, k), Last(batch, k))
    ensures k !in Ids(batch) ==> Lookup(UpsertRows(t, batch), k) == Lookup(t, k)
    decreases |batch|
  {
    if batch != [] {
      var p := batch[0];
      var t' := t[p.fintocId := Merge(Lookup(t, p.fintocId), p)];
      IdsTail(batch);
      UpsertRowsAt(t', batch[1..], k);
    }
  }

  /** Upserting two batches one after the other is upserting their concatenation. */
  lemma {:induction false} UpsertRowsAppend(t: Table, a: seq<Payload>, b: seq<Payload>)
    ensures UpsertRows(t, a + b) == UpsertRows(UpsertRows(t, a), b)
    decreases |a|
  {
    if a != [] {
      assert (a + b)[0] == a[0] && (a + b)[1..] == a[1..] + b;
      var p := a[0];
      var t' := t[p.fintocId := Merge(Lookup(t, p.fintocId), p)];
      assert UpsertRows(t, a + b) == UpsertRows(t', a[1..] + b);
      assert UpsertRows(t, a) == UpsertRows(t', a[1..]);
      UpsertRowsAppend(t', a[1..], b);
    } else {
      assert a + b == b;
    }
  }

  /** After an upsert the table holds exactly the keys it held plus the ids
      the batch names: no duplicate rows, one row per distinct `fintoc_id`. */
  lemma UpsertRowsKeys(t: Table, batch: seq<Payload>)
    ensures UpsertRows(t, batch).Keys == t.Keys + Ids(batch)
  {
    var u := UpsertRows(t, batch);
    forall k ensures k in u <==> k in t || k in Ids(batch) {
      UpsertRowsAt(t, batch, k);
    }
  }

  /** Upserting the same batch again changes nothing. */
  lemma UpsertRowsIdempotent(t: Table, batch: seq<Payload>)
    ensures UpsertRows(UpsertRows(t, batch), batch) == UpsertRows(t, batch)
  {
    var u := UpsertRows(t, batch);
    var uu := UpsertRows(u, batch);
    forall k ensures Lookup(uu, k) == Lookup(u, k) {
      UpsertRowsAt(t, batch, k);
      UpsertRowsAt(u, batch, k);
    }
    UpsertRowsKeys(t, batch);
    UpsertRowsKeys(u, batch);
    assert forall k :: k in uu ==> Lookup(uu, k) == Lookup(u, k);
  }

  /** A row the batch touches ends up with the batch's `estado_revision` and
      keeps its `categoria_asignada` and `razonamiento_breve`; a new row has
      neither. */
  lemma UpsertKeepsClassification(t: Table, batch: seq<Payload>, k: string)
    requires k in Ids(batch)
    ensures k in UpsertRows(t, batch)
    ensures UpsertRows(t, batch)[k].estado == Some(Last(batch, k).estado)
    ensures k in t ==> (UpsertRows(t, batch)[k].categoria == t[k].categoria &&
                        UpsertRows(t, batch)[k].razonamiento == t[k].razonamiento)
    ensures k !in t ==> (UpsertRows(t, batch)[k].categoria == None &&
                         UpsertRows(t, batch)[k].razonamiento == None)
  {
    UpsertRowsAt(t, batch, k);
  }

  /** A row of `conexiones_bancarias`; `createdAt` is the store's insertion clock. */
  datatype Connection = Connection(userId: string, linkToken: string, institution: string, createdAt: nat)

  predicate HasToken(conns: seq<Connection>, token: string) {
    exists i :: 0 <= i < |conns| && conns[i].linkToken == token
  }

  predicate TokensUnique(conns: seq<Connection>) {
    forall i, j :: 0 <= i < j < |conns| ==> conns[i].linkToken != conns[j].linkToken
  }

  /** The rows of `conns` with the given token moved to the new user and institution. */
  function Refresh(conns: seq<Connection>, userId: string, token: string, institution: string): (r: seq<Connection>)
    ensures |r| == |conns|
    ensures forall i :: 0 <= i < |conns| ==>
      r[i] == if conns[i].linkToken == token then conns[i].(userId := userId, institution := institution) else conns[i]
    decreases |conns|
  {
    if conns == [] then []
    else
      var c := conns[0];
      [if c.linkToken == token then c.(userId := userId, institution := institution) else c]
        + Refresh(conns[1..], userId, token, institution)
  }

  /** `upsert([{user_id, link_token, institution}], { onConflict: 'link_token' })`:
      the row with that token gets the new user and institution and keeps its
      `created_at`; without one, a row stamped `now` is appended. */
  function PutConnection(conns: seq<Connection>, userId: string, token: string, institution: string, now: nat): seq<Connection> {
    Refresh(conns, userId, token, institution)
      + if HasToken(conns, token) then [] else [Connection(userId, token, institution, now)]
  }

  /** The most recent connection of a user: `.eq('user_id', userId)
      .order('created_at', { ascending: false }).limit(1)`. */
  function LatestFor(conns: seq<Connection>, userId: string): (r: Option<Connection>)
    ensures r.None? <==> forall i :: 0 <= i < |conns| ==> conns[i].userId != userId
    ensures r.Some? ==> r.value in conns && r.value.userId == userId
    ensures r.Some? ==> forall i :: 0 <= i < |conns| && conns[i].userId == userId ==> conns[i].createdAt <= r.value.createdAt
    decreases |conns|
  {
    if conns == [] then None
    else
      var rest := LatestFor(conns[1..], userId);
      assert forall i :: 1 <= i < |conns| ==> conns[i] == conns[1..][i - 1];
      if conns[0].userId != userId then rest
      else if rest.Some? && rest.value.createdAt > conns[0].createdAt then rest
      else Some(conns[0])
  }

  /** The database the sync engine writes to. An offline store answers every
      request with an error and changes nothing. A reachable store may still
      refuse writes to `conexiones_bancarias` alone (a row-security policy or
      a constraint of that table) while `transacciones` stays writable. */
  class Database {
    const online: bool
    const conexionesWritable: bool
    var transacciones: Table
    var conexiones: seq<Connection>
    var clock: nat

    /** Link tokens are unique (the conflict key) and every `created_at` is
        distinct and earlier than the clock. */
    ghost predicate Valid()
      reads this
    {
      && TokensUnique(conexiones)
      && (forall i :: 0 <= i < |conexiones| ==> conexiones[i].createdAt < clock)
      && (forall i, j :: 0 <= i < j < |conexiones| ==> conexiones[i].createdAt != conexiones[j].createdAt)
    }

    constructor (online: bool, conexionesWritable: bool)
      ensures Valid()
      ensures this.online == online && this.conexionesWritable == conexionesWritable
      ensures transacciones == map[] && conexiones == [] && clock == 0
    {
      this.online := online;
      this.conexionesWritable := conexionesWritable;
      transacciones := map[];
      conexiones := [];
      clock := 0;
    }

    method UpsertTransactions(batch: seq<Payload>) returns (error: bool)
      modifies this`transacciones
      ensures error <==> Rejects(online, batch)
      ensures transacciones == if error then old(transacciones) else UpsertRows(old(transacciones), batch)
    {
      error := Rejects(online, batch);
      if !error {
        transacciones := UpsertRows(transacciones, batch);
      }
    }

    method UpsertConnection(userId: string, token: string, institution: string) returns (error: bool)
      requires Valid()
      modifies this`conexiones, this`clock
      ensures Valid()
      ensures error <==> !online || !conexionesWritable
      ensures error ==> conexiones == old(conexiones) && clock == old(clock)
      ensures !error ==> (conexiones == PutConnection(old(conexiones), userId, token, institution, old(clock)) &&
                          clock == old(clock) + 1)
    {
      error := !online || !conexionesWritable;
      if !error {
        PutConnectionValid(conexiones, userId, token, institution, clock);
        conexiones := PutConnection(conexiones, userId, token, institution, clock);
        clock := clock + 1;
      }
    }

    /** The `link_token` of the user's most recent connection; `error` when the
        store cannot answer. */
    method LatestLinkToken(userId: string) returns (error: bool, token: Option<string>)
      ensures error <==> !online
      ensures error ==> token == None
      ensures !error ==> token == if LatestFor(conexiones, userId).Some? then Some(LatestFor(conexiones, userId).value.linkToken) else None
    {
      error := !online;
      token := None;
      if !error {
        var latest := LatestFor(conexiones, userId);
        if latest.Some? {
          token := Some(latest.value.linkToken);
        }
      }
    }
  }

  /** The connection upsert keeps the table's invariant when it is stamped
      with the current clock. */
  lemma PutConnectionValid(conns: seq<Connection>, userId: string, token: string, institution: string, clock: nat)
    requires TokensUnique(conns)
    requires forall i :: 0 <= i < |conns| ==> conns[i].createdAt < clock
    requires forall i, j :: 0 <= i < j < |conns| ==> conns[i].createdAt != conns[j].createdAt
    ensures var r := PutConnection(conns, userId, token, institution, clock);
      && TokensUnique(r)
      && (forall i :: 0 <= i < |r| ==> r[i].createdAt < clock + 1)
      && (forall i, j :: 0 <= i < j < |r| ==> r[i].createdAt != r[j].createdAt)
  {
    var r := PutConnection(conns, userId, token, institution, clock);
    assert forall i :: 0 <= i < |conns| ==> r[i].linkToken == conns[i].linkToken && r[i].createdAt == conns[i].createdAt;
    assert !HasToken(conns, token) ==> |r| == |conns| + 1 && r[|conns|].linkToken == token && r[|conns|].createdAt == clock;
    assert HasToken(conns, token) ==> |r| == |conns|;
  }

  /** After a fresh link token is stored for a user, that link is the user's
      most recent connection, so a manual sync for the user syncs it. */
  lemma NewLinkIsLatest(conns: seq<Connection>, userId: string, token: string, institution: string, clock: nat)
    requires !HasToken(conns, token)
    requires forall i :: 0 <= i < |conns| ==> conns[i].createdAt < clock
    ensures LatestFor(PutConnection(conns, userId, token, institution, clock), userId)
         == Some(Connection(userId, token, institution, clock))
  {
    var r := PutConnection(conns, userId, token, institution, clock);
    var latest := LatestFor(r, userId);
    assert r[|conns|].userId == userId;
    var j :| 0 <= j < |r| && r[j] == latest.value;
    assert r[|conns|].createdAt <= latest.value.createdAt;
  }
}
