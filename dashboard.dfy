/** The dashboard's state and its handlers (src/App.tsx), each handler one
    sequential step over the current state. */
module Dashboard {
  import opened Basics
  import opened Classification
  import opened Aggregates

  /** The budgets the dashboard starts with (src/App.tsx:38-43). */
  const INITIAL_BUDGETS: seq<Budget> := [
    Field("Cuentas Casa", 100000),
    Field("Supermercado (Comida)", 200000),
    Field("Gastos Chicos/Almacén", 50000),
    Field("Entretenimiento", 80000)
  ]

  class Dashboard {
    var transactions: seq<Transaction>
    var classifications: Classifications
    var editingId: Option<string>
    var budgets: seq<Budget>
    /** The classification last written to the store for each row id. */
    var written: map<string, ClassificationResult>

    ghost predicate Valid()
      reads this
    {
      KeysUnique(budgets)
    }

    constructor()
      ensures Valid()
      ensures transactions == [] && classifications == map[] && editingId == None
      ensures budgets == INITIAL_BUDGETS && written == map[]
    {
      transactions := [];
      classifications := map[];
      editingId := None;
      budgets := INITIAL_BUDGETS;
      written := map[];
    }

    /** `loadTransactions` (src/App.tsx:49-83) given what the query answered
        (`None` for an error): on an error nothing changes; otherwise the list
        becomes the rows in order and the entries are rebuilt from the rows
        alone, so 'loading' and 'error' entries are dropped. */
    method LoadTransactions(query: Option<seq<DbRow>>)
      modifies this`transactions, this`classifications
      ensures query.None? ==> transactions == old(transactions) && classifications == old(classifications)
      ensures query.Some? ==>
        && |transactions| == |query.value|
        && (forall i :: 0 <= i < |query.value| ==> transactions[i] == ToTransaction(query.value[i]))
        && classifications == LoadInto(map[], query.value)
    {
      if query.None? {
        return;
      }
      var data := query.value;
      transactions := seq(|data|, i requires 0 <= i < |data| => ToTransaction(data[i]));
      var loaded: Classifications := map[];
      for i := 0 to |data|
        invariant LoadInto(map[], data) == LoadInto(loaded, data[i..])
      {
        assert data[i..][0] == data[i] && data[i..][1..] == data[i + 1..];
        if Truthy(data[i].categoria) {
          loaded := loaded[data[i].id := Classified(LoadedResult(data[i]))];
        }
      }
      assert data[|data|..] == [];
      classifications := loaded;
    }

    /** `handleClassify(id)` (src/App.tsx:135-150), with the classifier's
        answer given by `classify`. */
    method Classify(id: string, classify: Classifier)
      modifies this`classifications, this`written
      ensures classifications == ClassifyOne(transactions, old(classifications), id, classify)
      ensures written == WriteOne(transactions, old(written), id, classify)
    {
      var transaction := Find(transactions, id);
      if transaction.None? {
        return;
      }
      classifications := classifications[id := Loading];
      var result := classify(transaction.value);
      if result.Some? {
        written := written[id := result.value];
        classifications := classifications[id := Classified(result.value)];
      } else {
        classifications := classifications[id := Failed];
      }
    }

    /** `handleManualClassify(id, category)` (src/App.tsx:152-165): the entry
        becomes an 'oficial' result with the fixed rationale, the same is
        written to the store, editing ends, and nothing else changes. */
    method ManualClassify(id: string, category: string)
      modifies this`classifications, this`written, this`editingId
      ensures classifications == old(classifications)[id := Classified(ManualResult(category))]
      ensures written == old(written)[id := ManualResult(category)]
      ensures editingId == None
    {
      var newClass := ManualResult(category);
      written := written[id := newClass];
      classifications := classifications[id := Classified(newClass)];
      editingId := None;
    }

    /** `handleClassifyAll` (src/App.tsx:167-172): the selection is taken
        once, from the entries as they were, and classified in order. */
    method ClassifyAll(classify: Classifier)
      modifies this`classifications, this`written
      ensures classifications == Classification.ClassifyAll(transactions, old(classifications), classify)
      ensures written == WriteEach(transactions, old(written), Selection(transactions, old(classifications)), classify)
    {
      var unclassified := Selection(transactions, classifications);
      for i := 0 to |unclassified|
        invariant ClassifyEach(transactions, old(classifications), unclassified, classify)
               == ClassifyEach(transactions, classifications, unclassified[i..], classify)
        invariant WriteEach(transactions, old(written), unclassified, classify)
               == WriteEach(transactions, written, unclassified[i..], classify)
      {
        assert unclassified[i..][0] == unclassified[i] && unclassified[i..][1..] == unclassified[i + 1..];
        Classify(unclassified[i].id, classify);
      }
      assert unclassified[|unclassified|..] == [];
    }

    /** The budget change of the savings panel (src/App.tsx:291). */
    method SetBudget(name: string, limit: int)
      requires Valid()
      modifies this`budgets
      ensures Valid()
      ensures budgets == Put(old(budgets), name, limit)
    {
      budgets := Put(budgets, name, limit);
    }
  }
}
