/** What the bank-movement provider answers, and the mapping of one raw
    movement to the row a sync writes (the same expression in server.ts and
    api/fintoc.ts). */
module Fintoc {
  import opened Basics
  import opened Store

  const NO_DESCRIPTION := "Sin descripción"

  /** A movement as the provider reports it; `amount` is signed (positive is
      money in), `description` and `postDate` may be absent. */
  datatype RawMovement = RawMovement(id: string, description: Option<string>, amount: int, postDate: Option<string>)

  /** The answer to one provider request: its data, or a failure (the request
      throws). */
  datatype Fetch<T> = Fetched(data: T) | FetchFailed

  /** An account of a link together with what its movements request answers. */
  datatype Account = Account(id: string, movements: Fetch<seq<RawMovement>>)

  /** The provider: the accounts each link token reaches. Any other token,
      like any transport failure, makes the accounts request throw. */
  datatype Api = Api(links: map<string, seq<Account>>)

  function ListAccounts(api: Api, linkToken: string): Fetch<seq<Account>> {
    if linkToken in api.links then Fetched(api.links[linkToken]) else FetchFailed
  }

  /** What a run of `syncTransactions` ends with: no accounts to read, a
      completed loop with its `totalSynced`, or an exception. */
  datatype SyncLog = NoAccounts | Synced(total: nat) | Failed

  function Abs(x: int): nat {
    if x < 0 then -x else x
  }

  /** `s.split('T')[0]`: the longest prefix of `s` without a 'T'. */
  function DatePart(s: string): (r: string)
    ensures r <= s
    ensures 'T' !in r
    ensures |r| < |s| ==> s[|r|] == 'T'
    decreases |s|
  {
    if s == [] || s[0] == 'T' then []
    else [s[0]] + DatePart(s[1..])
  }

  /** The three properties of `DatePart` pin it down: any prefix of `s` free
      of 'T' and stopped by a 'T' or the end is `DatePart(s)`. */
  lemma DatePartUnique(s: string, r: string)
    requires r <= s && 'T' !in r && (|r| < |s| ==> s[|r|] == 'T')
    ensures r == DatePart(s)
  {
  }

  /** The row written for one movement (server.ts:111-119). */
  function ToPayload(m: RawMovement, userId: string, now: string): Payload {
    Payload(
      userId,
      m.id,
      OrElse(m.description, NO_DESCRIPTION),
      Abs(m.amount),
      if m.amount > 0 then Abono else Cargo,
      DatePart(if Truthy(m.postDate) then m.postDate.value else now),
      PENDIENTE)
  }

  /** The row of a movement: the magnitude of the amount with its sign moved
      to `tipo` ('abono' only for a strictly positive amount, so zero is a
      'cargo'), the description or a placeholder when it is missing or empty,
      the date part of the posting timestamp or of the current time `now`, and
      review state 'pendiente'. */
  lemma ToPayloadSpec(m: RawMovement, userId: string, now: string)
    ensures var p := ToPayload(m, userId, now);
      && p.userId == userId && p.fintocId == m.id
      && (p.tipo == Abono <==> m.amount > 0)
      && (p.tipo == Abono ==> p.monto == m.amount)
      && (p.tipo == Cargo ==> p.monto == -m.amount)
      && (Truthy(m.description) ==> p.descripcion == m.description.value)
      && (!Truthy(m.description) ==> p.descripcion == NO_DESCRIPTION)
      && p.estado == PENDIENTE
      && var stamp := if Truthy(m.postDate) then m.postDate.value else now;
         p.fecha <= stamp && 'T' !in p.fecha && (|p.fecha| < |stamp| ==> stamp[|p.fecha|] == 'T')
  {
  }

  /** `movements.map(...)`: one row per movement, in order. */
  function ToBatch(ms: seq<RawMovement>, userId: string, now: string): (b: seq<Payload>)
    ensures |b| == |ms|
    ensures forall i :: 0 <= i < |ms| ==> b[i] == ToPayload(ms[i], userId, now)
    decreases |ms|
  {
    if ms == [] then [] else [ToPayload(ms[0], userId, now)] + ToBatch(ms[1..], userId, now)
  }

  /** A batch names exactly the ids of its movements, every row of it is
      'pendiente', and it carries no category columns. */
  lemma ToBatchIds(ms: seq<RawMovement>, userId: string, now: string)
    ensures Ids(ToBatch(ms, userId, now)) == set i | 0 <= i < |ms| :: ms[i].id
    ensures forall p :: p in ToBatch(ms, userId, now) ==> p.estado == PENDIENTE && p.userId == userId
  {
    var b := ToBatch(ms, userId, now);
    forall k | k in Ids(b) ensures exists i :: 0 <= i < |ms| && ms[i].id == k {
      var i :| 0 <= i < |b| && b[i].fintocId == k;
    }
    forall i | 0 <= i < |ms| ensures ms[i].id in Ids(b) {
      assert b[i].fintocId == ms[i].id;
    }
  }

  /** What reading one account gives the sync loop: the rows its movements
      map to, or the exception of its movements request. */
  function BatchOf(a: Account, userId: string, now: string): Fetch<seq<Payload>> {
    match a.movements
    case FetchFailed => FetchFailed
    case Fetched(ms) => Fetched(ToBatch(ms, userId, now))
  }

  /** The batches of the accounts, in account order. */
  function Batches(accounts: seq<Account>, userId: string, now: string): (bs: seq<Fetch<seq<Payload>>>)
    ensures |bs| == |accounts|
    ensures forall i :: 0 <= i < |accounts| ==> bs[i] == BatchOf(accounts[i], userId, now)
    decreases |accounts|
  {
    if accounts == [] then []
    else [BatchOf(accounts[0], userId, now)] + Batches(accounts[1..], userId, now)
  }

  /** Every row of every batch is 'pendiente' and belongs to `userId`. */
  predicate AllPending(bs: seq<Fetch<seq<Payload>>>, userId: string) {
    forall i, p :: 0 <= i < |bs| && bs[i].Fetched? && p in bs[i].data ==> p.estado == PENDIENTE && p.userId == userId
  }

  lemma BatchesPending(accounts: seq<Account>, userId: string, now: string)
    ensures AllPending(Batches(accounts, userId, now), userId)
  {
    var bs := Batches(accounts, userId, now);
    forall i | 0 <= i < |bs| && bs[i].Fetched?
      ensures forall p :: p in bs[i].data ==> p.estado == PENDIENTE && p.userId == userId
    {
      ToBatchIds(accounts[i].movements.data, userId, now);
    }
  }
}
