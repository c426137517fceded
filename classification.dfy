/** The dashboard's classification state (src/App.tsx): one entry per
    transaction id, filled from the store on load, by the AI classifier, or
    by a manual override. */
module Classification {
  import opened Basics

  const POR_DEFINIR := "Por Definir"
  const OFICIAL := "oficial"
  const MANUAL_RATIONALE := "Modificado manualmente por el usuario"

  /** A movement as the dashboard shows it; `id` is the store's row id. */
  datatype Transaction = Transaction(id: string, descripcion: string, monto: nat, tipo: Tipo, fecha: string)

  /** A category with its review state and a short rationale. The review
      state is whatever string the store or the classifier produced. */
  datatype ClassificationResult = ClassificationResult(categoria: string, estado: Option<string>, razonamiento: string)

  /** A value of the classification map: 'loading', 'error' or a result. */
  datatype Entry = Loading | Failed | Classified(result: ClassificationResult)

  type Classifications = map<string, Entry>

  /** The AI classifier as seen from the dashboard: a result, or `None` when
      the call throws. */
  type Classifier = Transaction -> Option<ClassificationResult>

  /** A row of `transacciones` as the dashboard's query returns it. */
  datatype DbRow = DbRow(
    id: string,
    descripcion: string,
    monto: nat,
    tipo: Tipo,
    fecha: string,
    categoria: Option<string>,
    estado: Option<string>,
    razonamiento: Option<string>)

  function ToTransaction(row: DbRow): Transaction {
    Transaction(row.id, row.descripcion, row.monto, row.tipo, row.fecha)
  }

  /** The entry loaded for a row with a category; a missing or empty
      rationale becomes the empty string. */
  function LoadedResult(row: DbRow): ClassificationResult {
    ClassificationResult(OrElse(row.categoria, ""), row.estado, OrElse(row.razonamiento, ""))
  }

  /** `data.forEach(...)` over the loaded rows (src/App.tsx:71-80), starting
      from the entries in `m`: a row with a non-empty category sets the entry
      of its id; later rows overwrite earlier ones. */
  function LoadInto(m: Classifications, rows: seq<DbRow>): Classifications
    decreases |rows|
  {
    if rows == [] then m
    else
      var m' := if Truthy(rows[0].categoria) then m[rows[0].id := Classified(LoadedResult(rows[0]))] else m;
      LoadInto(m', rows[1..])
  }

  /** Which ids get an entry on load and which row it comes from: an id gets
      one exactly when some row of it has a non-empty category, and the entry
      is the one of the last such row; other ids keep what `m` had. */
  lemma {:induction false} LoadIntoAt(m: Classifications, rows: seq<DbRow>, k: string)
    ensures var r := LoadInto(m, rows);
      && (k in r <==> k in m || exists i :: 0 <= i < |rows| && rows[i].id == k && Truthy(rows[i].categoria))
      && (forall i :: 0 <= i < |rows| && rows[i].id == k && Truthy(rows[i].categoria)
            && (forall j :: i < j < |rows| && rows[j].id == k ==> !Truthy(rows[j].categoria))
            ==> k in r && r[k] == Classified(LoadedResult(rows[i])))
      && ((forall i :: 0 <= i < |rows| && rows[i].id == k ==> !Truthy(rows[i].categoria))
            ==> (k in m ==> r[k] == m[k]))
    decreases |rows|
  {
    if rows != [] {
      var row := rows[0];
      var m' := if Truthy(row.categoria) then m[row.id := Classified(LoadedResult(row))] else m;
      LoadIntoAt(m', rows[1..], k);
      assert forall i :: 1 <= i < |rows| ==> rows[i] == rows[1..][i - 1];
      assert forall i :: 0 <= i < |rows| - 1 ==> rows[1..][i] == rows[i + 1];
    }
  }

  /** `transactions.find(t => t.id === id)`: the first transaction with that
      id, or none. */
  function Find(txs: seq<Transaction>, id: string): (r: Option<Transaction>)
    ensures r.None? <==> forall i :: 0 <= i < |txs| ==> txs[i].id != id
    ensures r.Some? ==> exists i :: 0 <= i < |txs| && txs[i] == r.value
                          && r.value.id == id && forall j :: 0 <= j < i ==> txs[j].id != id
    decreases |txs|
  {
    if txs == [] then None
    else if txs[0].id == id then Some(txs[0])
    else
      var r := Find(txs[1..], id);
      assert forall i :: 1 <= i < |txs| ==> txs[i] == txs[1..][i - 1];
      r
  }

  /** `!classifications[id] || classifications[id] === 'error'`. */
  predicate NeedsClassification(m: Classifications, id: string) {
    id !in m || m[id] == Failed
  }

  /** The transactions "classify all" visits (src/App.tsx:168). */
  function Selection(txs: seq<Transaction>, m: Classifications): seq<Transaction> {
    Filter(txs, (t: Transaction) => NeedsClassification(m, t.id))
  }

  /** "Classify all" visits, in list order, exactly the transactions with no
      entry or an 'error' entry, each as often as the list holds it: a
      'loading' entry and a result, whether 'oficial' or 'pendiente', are
      skipped. */
  lemma SelectionSpec(txs: seq<Transaction>, m: Classifications)
    ensures SubsequenceOf(Selection(txs, m), txs)
    ensures forall t :: t in Selection(txs, m) <==> t in txs && (t.id !in m || m[t.id] == Failed)
    ensures forall t :: multiset(Selection(txs, m))[t] == if t.id !in m || m[t.id] == Failed then multiset(txs)[t] else 0
  {
    FilterKeepsOrder(txs, (t: Transaction) => NeedsClassification(m, t.id));
  }

  /** The result a manual override stores (src/App.tsx:153-157). */
  function ManualResult(category: string): ClassificationResult {
    ClassificationResult(category, Some(OFICIAL), MANUAL_RATIONALE)
  }

  function Outcome(r: Option<ClassificationResult>): Entry {
    if r.Some? then Classified(r.value) else Failed
  }

  /** The entries after `handleClassify(id)` (src/App.tsx:135-150): nothing
      changes for an id no transaction has; otherwise the entry goes to
      'loading' and then to the classifier's result or to 'error'. */
  function ClassifyOne(txs: seq<Transaction>, m: Classifications, id: string, classify: Classifier): Classifications {
    match Find(txs, id)
    case None => m
    case Some(t) => m[id := Loading][id := Outcome(classify(t))]
  }

  /** The classification the same call writes to the row with that id, if
      the classifier answered. */
  function WriteOne(txs: seq<Transaction>, w: map<string, ClassificationResult>, id: string, classify: Classifier): map<string, ClassificationResult> {
    match Find(txs, id)
    case None => w
    case Some(t) => if classify(t).Some? then w[id := classify(t).value] else w
  }

  /** `for (const t of ts) await handleClassify(t.id)`, one call after the
      other. */
  function ClassifyEach(txs: seq<Transaction>, m: Classifications, ts: seq<Transaction>, classify: Classifier): Classifications
    decreases |ts|
  {
    if ts == [] then m else ClassifyEach(txs, ClassifyOne(txs, m, ts[0].id, classify), ts[1..], classify)
  }

  function WriteEach(txs: seq<Transaction>, w: map<string, ClassificationResult>, ts: seq<Transaction>, classify: Classifier): map<string, ClassificationResult>
    decreases |ts|
  {
    if ts == [] then w else WriteEach(txs, WriteOne(txs, w, ts[0].id, classify), ts[1..], classify)
  }

  /** Classifying a list of transactions one after the other: an id on the
      list ends with its own outcome (the classifier answers the same for the
      same transaction, so the order of visits does not matter), and every
      other id keeps its entry and its written classification. */
  lemma {:induction false} ClassifyEachAt(txs: seq<Transaction>, m: Classifications, w: map<string, ClassificationResult>,
                                          ts: seq<Transaction>, classify: Classifier, k: string)
    ensures var r := ClassifyEach(txs, m, ts, classify);
      var rw := WriteEach(txs, w, ts, classify);
      if (exists t :: t in ts && t.id == k) && Find(txs, k).Some? then
        var out := classify(Find(txs, k).value);
        && k in r && r[k] == Outcome(out)
        && (out.Some? ==> k in rw && rw[k] == out.value)
        && (out.None? ==> (k in rw <==> k in w) && (k in w ==> rw[k] == w[k]))
      else
        && (k in r <==> k in m) && (k in m ==> r[k] == m[k])
        && (k in rw <==> k in w) && (k in w ==> rw[k] == w[k])
    decreases |ts|
  {
    if ts != [] {
      var id := ts[0].id;
      ClassifyEachAt(txs, ClassifyOne(txs, m, id, classify), WriteOne(txs, w, id, classify), ts[1..], classify, k);
      assert forall t :: t in ts <==> t == ts[0] || t in ts[1..];
    }
  }

  /** The entries after "classify all" (src/App.tsx:167-172). */
  function ClassifyAll(txs: seq<Transaction>, m: Classifications, classify: Classifier): Classifications {
    ClassifyEach(txs, m, Selection(txs, m), classify)
  }

  /** After "classify all", an id of the list with no entry or an 'error'
      entry holds its classifier outcome; every other id keeps its entry. */
  lemma ClassifyAllOutcome(txs: seq<Transaction>, m: Classifications, classify: Classifier, k: string)
    ensures var r := ClassifyAll(txs, m, classify);
      if Find(txs, k).Some? && NeedsClassification(m, k) then
        k in r && r[k] == Outcome(classify(Find(txs, k).value))
      else
        (k in r <==> k in m) && (k in m ==> r[k] == m[k])
  {
    var sel := Selection(txs, m);
    SelectionSpec(txs, m);
    ClassifyEachAt(txs, m, map[], sel, classify, k);
    if Find(txs, k).Some? && NeedsClassification(m, k) {
      assert Find(txs, k).value in sel;
    }
  }

  /** A manual override survives a later "classify all". */
  lemma ManualSurvivesClassifyAll(txs: seq<Transaction>, m: Classifications, id: string, category: string, classify: Classifier)
    ensures var manual := Classified(ManualResult(category));
      var r := ClassifyAll(txs, m[id := manual], classify);
      id in r && r[id] == manual
  {
    var manual := Classified(ManualResult(category));
    ClassifyAllOutcome(txs, m[id := manual], classify, id);
  }

  /** With a classifier that always answers, a second "classify all" finds
      nothing left to do. */
  lemma ClassifyAllSettles(txs: seq<Transaction>, m: Classifications, classify: Classifier)
    requires forall t :: classify(t).Some?
    ensures Selection(txs, ClassifyAll(txs, m, classify)) == []
    ensures ClassifyAll(txs, ClassifyAll(txs, m, classify), classify) == ClassifyAll(txs, m, classify)
  {
    var r := ClassifyAll(txs, m, classify);
    forall t | t in txs
      ensures !NeedsClassification(r, t.id)
    {
      ClassifyAllOutcome(txs, m, classify, t.id);
    }
    SelectionSpec(txs, r);
  }
}
