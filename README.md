# nexus-finance: the sync engine and the dashboard, modelled in Dafny

nexus-finance reads a user's bank movements from the Fintoc provider into a
Supabase `transacciones` table. A React dashboard then shows those movements,
classifies them with an AI model and tracks spending against budgets. This
project models three parts of it:

- **The store** (`store.dfy`). It holds `transacciones` as a map keyed by
  `fintoc_id`, and `conexiones_bancarias` as a sequence of connections with an
  insertion clock. Upserting a batch overwrites the payload columns and keeps
  the category columns. The store rejects a batch when it is unreachable, or
  when two rows of the batch share a `fintoc_id`.
- **The sync engine, twice.** `server_sync.dfy` is the long-running server
  (`server.ts`). Its `syncTransactions` catches every failure and counts only
  the rows the store accepted. `api_sync.dfy` is the serverless handler
  (`api/fintoc.ts`). Its `syncTransactions` lets provider failures escape and
  counts every row it sends, and one `handler` routes requests by method and
  URL. `fintoc.dfy` holds what both share: the provider's answers as values,
  and the mapping of a raw movement to a row.
- **The dashboard** (`classification.dfy`, `aggregates.dfy`, `dashboard.dfy`).
  This covers the classification map and its handlers (load, classify one,
  classify all, manual override), the expense chart, the budget panel, net
  savings, the budget editor and the search filter. The `Dashboard` class
  holds the component's state, and its methods are the handlers.

Each loop of a sync routine or an event handler is a method with a loop, and
each such method is proved equal to a specification function (`Sync`,
`LoadInto`, `ClassifyAll`, …). The derived figures of the dashboard
(`useMemo` computations such as the chart's `forEach`) are recursive
functions. Lemmas state what all of those functions promise. `basics.dfy` holds the JavaScript
vocabulary both sides use: truthiness, `||` defaults, `includes` and `filter`.

The provider, the clock, the AI classifier and `toLowerCase` are parameters.
An `Api` value gives the accounts behind each link token, and what each
account's movements request answers. `now` is the ISO time string. A
`Classifier` is a function that returns a result, or `None` when the call
throws. Whether the store is reachable is the `online` flag of the `Database`.
A reachable store can still refuse writes to `conexiones_bancarias` alone; that
is its `conexionesWritable` flag.

## Model

| member | source | states |
|---|---|---|
| Basics.Includes | src/App.tsx:186-190 | `includes` is true exactly when some position of the string starts an occurrence of the substring |
| Basics.IncludesEmpty | src/App.tsx:186-190 | every string includes the empty string, so an empty search matches everything |
| Basics.Filter | src/App.tsx:168 | `filter` keeps exactly the elements that pass, each as often as it occurs, and never more than it was given |
| Basics.FilterKeepsOrder | src/App.tsx:168 | `filter` keeps the original order (the result is a subsequence) |
| Basics.FilterAll | src/App.tsx:186-190 | a filter that every element passes returns the whole list |
| Store.UpsertRows | server.ts:121-123 | the upsert on `fintoc_id`, row after row; its contract is stated by `UpsertRowsAt`, `UpsertRowsKeys`, `UpsertRowsAppend` and `UpsertRowsIdempotent` |
| Store.UpsertRowsAt | server.ts:121-123 | after an upsert on `fintoc_id`, a key the batch names holds the payload of the batch's last row for it, plus the category columns it had before; every other key is untouched |
| Store.UpsertRowsAppend | server.ts:121-123 | upserting two batches one after the other equals upserting their concatenation |
| Store.UpsertRowsKeys | server.ts:121-123 | after an upsert the table holds exactly the old keys plus the batch's ids, so there is one row per `fintoc_id` |
| Store.UpsertRowsIdempotent | server.ts:121-123 | upserting the same batch again changes nothing |
| Store.UpsertKeepsClassification | server.ts:111-123 | an upserted row takes the batch's `estado_revision`; it keeps `categoria_asignada` and `razonamiento_breve`, and a new row has neither |
| Store.Refresh | server.ts:64-68 | the connections with the token get the new user and institution; every other connection is unchanged and the order is kept |
| Store.PutConnection | server.ts:64-68 | the connection upsert on `link_token`: `Refresh` gives the rows with the token, a new token is appended with the clock, and `PutConnectionValid` and `NewLinkIsLatest` state what it keeps |
| Store.PutConnectionValid | server.ts:64-68 | the connection upsert keeps link tokens unique and every `created_at` distinct and earlier than the clock |
| Store.LatestFor | server.ts:145-150 | the query ordered by `created_at` descending with limit 1: none exactly when the user has no connection, else the user's connection with the greatest `created_at` |
| Store.NewLinkIsLatest | server.ts:64-68 | a freshly stored link token becomes the user's most recent connection |
| Store.Database.UpsertTransactions | server.ts:121-123 | the store answers with an error exactly when it rejects the batch, and then writes nothing; otherwise the table is the upsert of the batch |
| Store.Database.UpsertConnection | server.ts:64-68 | the store fails exactly when it is unreachable or refuses writes to `conexiones_bancarias`, and then changes nothing; otherwise the connection is upserted on `link_token`, stamped with the clock, and the invariant is kept |
| Store.Database.LatestLinkToken | server.ts:145-150 | an error exactly when the store is unreachable; otherwise the token of the user's most recent connection, if any |
| Fintoc.DatePart | server.ts:117 | `split('T')[0]` is a prefix of the timestamp with no 'T', ended by a 'T' or by the end |
| Fintoc.DatePartUnique | server.ts:117 | those three properties determine `split('T')[0]` completely |
| Fintoc.ToPayload | server.ts:111-119 | the row written for one movement (the same mapping as api/fintoc.ts:32-40); its contract is `ToPayloadSpec` |
| Fintoc.ToPayloadSpec | server.ts:111-119 | the row of a movement: its id, the magnitude of the amount, 'abono' only for a strictly positive amount, the description or 'Sin descripción', the date part of `post_date` or of now, and 'pendiente' |
| Fintoc.ToBatch | server.ts:111-119 | `map` gives one row per movement, in order |
| Fintoc.ToBatchIds | server.ts:111-119 | a batch names exactly its movements' ids, and every row of it is 'pendiente' and belongs to the user |
| Fintoc.Batches | server.ts:101-110 | one batch per account, in account order |
| Fintoc.BatchesPending | server.ts:101-119 | every row of every batch is 'pendiente' and belongs to the user |
| ServerSync.Step | server.ts:103-129 | the loop body for one account as a function; `SyncAccount` is proved equal to it |
| ServerSync.AccountLoop | server.ts:101-130 | the account loop as a function; its contract is `AccountLoopWrites` and `FailureStopsLoop` |
| ServerSync.Sync | server.ts:87-136 | `syncTransactions` as a function of the table and the provider's answers; its contract is `SyncIdempotent`, `SyncKeys`, `SyncFromEmpty` and `SyncKeepsClassification` |
| ServerSync.AcceptedPending | server.ts:111-123 | every row the store accepts during a sync is 'pendiente' and belongs to the user |
| ServerSync.AccountLoopWrites | server.ts:101-130 | the account loop amounts to one upsert of the rows the store accepted; `totalSynced` counts exactly those rows; the loop throws iff some movements request fails |
| ServerSync.FailureStopsLoop | server.ts:101-130 | a failed movements request stops the loop: later accounts are never read and the table is what the earlier accounts wrote |
| ServerSync.SyncIdempotent | server.ts:87-136 | a second sync with the same provider answers and the same clock leaves the table and the log as the first sync did |
| ServerSync.SyncKeys | server.ts:87-136 | a sync adds exactly the ids of the rows the store accepted to the table |
| ServerSync.SyncFromEmpty | server.ts:87-136 | a sync into an empty table leaves one row per distinct accepted `fintoc_id`; a completed run's `totalSynced` is the number of accepted rows, so it is at least the number of stored rows |
| ServerSync.SyncKeepsClassification | server.ts:87-136 | a re-sync keeps every stored row's category and rationale; its review state stays or becomes 'pendiente'; a new row has no category |
| ServerSync.SyncAccount | server.ts:103-129 | one pass of the loop body: a failed movements request throws, an empty list is skipped, a batch is upserted and counted only when the store accepts it |
| ServerSync.SyncTransactions | server.ts:87-136 | the method's table and log equal the `Sync` specification: a failed accounts request or a thrown loop is logged as a failure, no accounts logs that, otherwise the total |
| ServerSync.Webhook | server.ts:52-82 | 400 with no write when `link_token` is missing or empty; otherwise the connection is upserted for the demo user ('unknown' institution by default), the token is synced even when that upsert failed, and the answer is 200 whatever failed |
| ServerSync.ManualSync | server.ts:141-163 | 404 and no sync when the store cannot answer or the user (the query's `userId` or the demo user) has no connection; otherwise the most recent connection is synced and the answer is 200 |
| ApiSync.Step | api/fintoc.ts:24-46 | the loop body for one account as a function; `ApiSync.SyncAccount` is proved equal to it |
| ApiSync.AccountLoop | api/fintoc.ts:22-47 | the account loop as a function; its contract, relative to the server's loop, is `LoopMatchesServer` |
| ApiSync.Sync | api/fintoc.ts:13-50 | `syncTransactions` as a function; its contract is `SyncMatchesServer` and `OfflineStillCounts` |
| ApiSync.LoopMatchesServer | api/fintoc.ts:22-47 | both account loops write the same table and stop at the same failure; this one's total counts every row sent, never fewer than the server's |
| ApiSync.SyncMatchesServer | api/fintoc.ts:13-50 | both syncs leave the same table and fail on the same inputs; when both complete, this one reports at least as many rows |
| ApiSync.OfflineStillCounts | api/fintoc.ts:42-46 | with the store unreachable nothing is written, yet a completed run reports every movement it read |
| ApiSync.SyncAccount | api/fintoc.ts:24-46 | one pass of the loop body: a failed movements request escapes, an empty list is skipped, every other batch is sent and counted whatever the store answers |
| ApiSync.SyncTransactions | api/fintoc.ts:13-50 | the method's table and outcome equal this variant's `Sync` specification |
| ApiSync.RouteOf | api/fintoc.ts:52-111 | a POST whose URL names neither 'webhook' nor 'sync' creates a link intent; a POST naming 'webhook' is the webhook; a GET naming 'sync' is the manual sync; anything else is refused |
| ApiSync.Webhook | api/fintoc.ts:69-86 | 400 with nothing changed when `link_token` is missing or empty; otherwise the connection is upserted when the store accepts it, the token is synced whatever that upsert answered, and a sync that throws gives 500, else 200 |
| ApiSync.ManualSync | api/fintoc.ts:88-108 | 404 and no sync without a reachable store and a connection for the user; otherwise the most recent connection is synced, giving 500 if the sync throws and 200 if not |
| ApiSync.Handler | api/fintoc.ts:52-111 | link intent gives 200 or 500 with no write; a refused route gives 405 with no write; the webhook branch has the whole contract of `ApiSync.Webhook` (status, table and connections) and the manual-sync branch that of `ApiSync.ManualSync` (status and table) with the connections unchanged |
| Classification.LoadInto | src/App.tsx:71-80 | the entries built from the loaded rows; its contract is `LoadIntoAt` |
| Classification.LoadIntoAt | src/App.tsx:71-80 | on load, an id gets an entry exactly when some row of it has a non-empty category, and the entry comes from the last such row |
| Classification.Find | src/App.tsx:136 | `find` returns the first transaction with the id, or none exactly when no transaction has it |
| Classification.SelectionSpec | src/App.tsx:168 | "classify all" visits, in list order, exactly the transactions with no entry or an 'error' entry, each as often as it occurs in the list |
| Classification.ClassifyOne | src/App.tsx:135-150 | the entries after `handleClassify`; `Dashboard.Dashboard.Classify` is proved equal to it, and `ClassifyEachAt` states what a run of it leaves |
| Classification.ClassifyEachAt | src/App.tsx:169-171 | classifying a list one after the other: each listed id ends with its classifier outcome, and the classification written for it is the result; every other id keeps its entry and its written classification |
| Classification.ClassifyAll | src/App.tsx:167-172 | the entries after "classify all"; its contract is `ClassifyAllOutcome`, `ManualSurvivesClassifyAll` and `ClassifyAllSettles` |
| Classification.ClassifyAllOutcome | src/App.tsx:167-172 | after "classify all", a listed id with no entry or an 'error' entry holds its outcome; every other id keeps its entry |
| Classification.ManualSurvivesClassifyAll | src/App.tsx:152-172 | a manual override survives a later "classify all" |
| Classification.ClassifyAllSettles | src/App.tsx:167-172 | with a classifier that always answers, nothing is left to select and a second "classify all" changes nothing |
| Aggregates.TotalSavings | src/App.tsx:214-218 | income minus expenses; its contract is `TotalSavingsIsBalance` |
| Aggregates.TotalSavingsIsBalance | src/App.tsx:214-218 | net savings is the signed sum of all movements; it ignores classifications and is negative exactly when expenses exceed income |
| Aggregates.AddTo | src/App.tsx:199 | adding to a record entry keeps names unique, adds the name, adds the amount to that entry only, and adds it to the total |
| Aggregates.ChartData | src/App.tsx:192-203 | the expense chart; its contract is `ChartDataSpec` and `BudgetAgreesWithChart` |
| Aggregates.ChartDataSpec | src/App.tsx:192-203 | each chart category appears once; a slice exists exactly for the categories some expense falls in; its value is their sum; slices add up to total expenses |
| Aggregates.BudgetData | src/App.tsx:205-212 | one budget row per budget, in order, with its limit and the classified expenses of its category |
| Aggregates.SpentInSplits | src/App.tsx:192-212 | a chart slice is the budget spending of its name plus, for 'Por Definir', the unclassified expenses |
| Aggregates.BudgetAgreesWithChart | src/App.tsx:192-212 | budget spending equals the chart slice of the same name except for 'Por Definir', and never exceeds it |
| Aggregates.UnclassifiedNeverCounts | src/App.tsx:205-212 | turning an entry that is not a result into 'loading' or 'error' never moves a budget |
| Aggregates.SpentZeroWithoutMatches | src/App.tsx:205-212 | a budget with no classified expense in its category shows 0 spent |
| Aggregates.SpentAppend | src/App.tsx:205-212 | spending over two lists of movements is the sum of the two |
| Aggregates.OverBudget | src/components/GrowthCenter.tsx:99-107 | the over-budget flag, strictly more spent than the limit; `StaysOverBudget` states what keeps it set |
| Aggregates.StaysOverBudget | src/components/GrowthCenter.tsx:99-107 | more movements never clear a budget's over-budget flag (spent above the limit) |
| Aggregates.Put | src/App.tsx:291 | `{...prev, [cat]: limit}` keeps the keys unique and has exactly the old keys plus the edited one |
| Aggregates.PutSpec | src/App.tsx:291 | the edited key has the new value and every other keeps its own; an existing key keeps its place, a new one is appended |
| Aggregates.Search | src/App.tsx:186-190 | the search filter; its contract is `SearchSpec` |
| Aggregates.SearchSpec | src/App.tsx:186-190 | the search keeps list order and exactly the transactions whose lower-cased description contains the lower-cased term, each as often as it occurs; an empty term keeps all |
| Dashboard.Dashboard.constructor | src/App.tsx:38-43 | the dashboard starts with no transactions or entries and with the four initial budgets |
| Dashboard.Dashboard.LoadTransactions | src/App.tsx:49-83 | on a query error nothing changes; otherwise the list is the rows in order and the entries are rebuilt from the rows alone |
| Dashboard.Dashboard.Classify | src/App.tsx:135-150 | the entry goes to 'loading' and then to the result or 'error'; the result is written for the row; an unknown id changes nothing |
| Dashboard.Dashboard.ManualClassify | src/App.tsx:152-165 | the entry and the written row become the category as 'oficial' with the manual rationale, and editing ends |
| Dashboard.Dashboard.ClassifyAll | src/App.tsx:167-172 | the entries and the written rows are those of classifying, one after the other, the selection taken before the loop |
| Dashboard.Dashboard.SetBudget | src/App.tsx:291 | the budgets become the record update and stay free of duplicate names |

## Left out

- Creating a link intent (server.ts:26-46, api/fintoc.ts:54-66) is a provider call that only relays the provider's answer. `ApiSync.Handler` takes its success as a boolean. The server's copy of that endpoint is not modelled.
- The widget flow of the dashboard (src/App.tsx:91-133) loads an external script and opens a provider widget. It is browser I/O and is not modelled.
- The Gemini classifier and recommendations (src/services/geminiService.ts) are not modelled. The classifier is a function parameter, and an answer that fails `JSON.parse` counts as a thrown call (`None`).
- Store-assigned columns (`id`, `created_at` of `transacciones`) are not modelled. Connection `created_at` is a clock the `Database` advances.
- A batch of `transacciones` is refused only when the store is unreachable (`online` false) or the batch repeats a `fintoc_id`. A connection write is refused only when the store is unreachable or `conexionesWritable` is false. No other database errors are modelled.
- A provider body that is not an array, or that is null, is not modelled. A provider answer is either a list or a thrown request.
- Request body parsing and the webhook's 500 branch in server.ts (lines 78-81) are not modelled. In the model nothing in that branch throws: `syncTransactions` catches everything and the connection error is only logged.
- HTTP framing, JSON bodies and logging are left out. The handlers return only the status code.
- The dashboard's query orders rows by `fecha` in the store. The model takes the rows in the order the query returns them.
- ChartData and BudgetData do not model JavaScript's key order. A record is kept in insertion order, but `Object.entries` lists array-index keys first, in ascending order.
- ChartData does not model keys inherited from `Object.prototype`, because the chart's `data` is a plain `{}` (src/App.tsx:193,199). For a category such as "constructor" or "toString", `data[cat] || 0` reads the inherited function and the slice's value becomes a string. A category "__proto__" is never stored and its slice never appears. `ChartDataSpec` claims a numeric slice for each such name.
- JavaScript numbers are modelled as integers (`RawMovement.amount`, `monto`, budget limits). Fractional amounts, `NaN` from a missing `amount`, and floating-point rounding in the sums are not modelled.
- `toLowerCase` is the parameter `lower` of `Search` and is not modelled further (no Unicode case mapping).
- The progress bars (floating-point percentages in src/components/GrowthCenter.tsx) are not modelled; only the over-budget flag is.
- React's asynchronous interleaving is not modelled. Each handler runs to completion before the next one starts, so the transient 'loading' entry is visible only in `ClassifyOne`'s definition.
- View switching, the search box, the savings goal and `setEditingId` outside the manual override are plain state passthroughs and are not modelled.
- `Dashboard.Dashboard.written` stands for the category columns the dashboard writes, keyed by row id. It is not linked to `Store.Database`, and store errors on that write are not modelled (the source ignores them).
- ServerSync.SyncKeepsClassification: a re-sync resets `estado_revision` of a stored row to 'pendiente' even when a person had marked it 'oficial'. The lemma states this behaviour of the code as it is.
