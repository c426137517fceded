/** The figures the dashboard derives from its transactions and their
    classifications (src/App.tsx:186-218): the expense breakdown by category,
    the spending against each budget, the net savings and the search. */
module Aggregates {
  import opened Basics
  import opened Classification

  /** Sum of `monto` over the transactions of one `tipo`. */
  function TotalOf(txs: seq<Transaction>, tipo: Tipo): nat
    decreases |txs|
  {
    if txs == [] then 0
    else (if txs[0].tipo == tipo then txs[0].monto else 0) + TotalOf(txs[1..], tipo)
  }

  /** Income minus expenses (src/App.tsx:214-218). */
  function TotalSavings(txs: seq<Transaction>): int {
    TotalOf(txs, Abono) - TotalOf(txs, Cargo)
  }

  function Signed(t: Transaction): int {
    if t.tipo == Abono then t.monto else -(t.monto as int)
  }

  /** The balance of the movements taken one by one, each with its sign. */
  function Balance(txs: seq<Transaction>): int
    decreases |txs|
  {
    if txs == [] then 0 else Signed(txs[0]) + Balance(txs[1..])
  }

  /** Net savings is the signed balance of all movements: it does not look at
      classifications and it is negative when expenses exceed income. */
  lemma {:induction false} TotalSavingsIsBalance(txs: seq<Transaction>)
    ensures TotalSavings(txs) == Balance(txs)
    ensures TotalSavings(txs) < 0 <==> TotalOf(txs, Cargo) > TotalOf(txs, Abono)
    decreases |txs|
  {
    if txs != [] {
      TotalSavingsIsBalance(txs[1..]);
    }
  }

  /** The slice of the expense chart a transaction falls in: its category
      when its entry is a result, otherwise 'Por Definir' (a missing,
      'loading' or 'error' entry). */
  function ChartCategory(m: Classifications, id: string): string {
    if id in m && m[id].Classified? then m[id].result.categoria else POR_DEFINIR
  }

  /** Expenses of the transactions that fall in the chart slice `name`. */
  function SpentIn(txs: seq<Transaction>, m: Classifications, name: string): nat
    decreases |txs|
  {
    if txs == [] then 0
    else (if txs[0].tipo == Cargo && ChartCategory(m, txs[0].id) == name then txs[0].monto else 0)
         + SpentIn(txs[1..], m, name)
  }

  /** The chart slices some expense falls in. */
  function Buckets(txs: seq<Transaction>, m: Classifications): set<string>
    decreases |txs|
  {
    if txs == [] then {}
    else (if txs[0].tipo == Cargo then {ChartCategory(m, txs[0].id)} else {}) + Buckets(txs[1..], m)
  }

  /** A JavaScript record as `Object.entries` lists it: one field per key, in
      insertion order. The chart's `data` and the budgets are both records. */
  datatype Field<V> = Field(name: string, value: V)

  type Record<V> = seq<Field<V>>

  predicate HasKey<V>(r: Record<V>, name: string)
    decreases |r|
  {
    r != [] && (r[0].name == name || HasKey(r[1..], name))
  }

  /** No key is listed twice. */
  predicate KeysUnique<V>(r: Record<V>)
    decreases |r|
  {
    r == [] || (!HasKey(r[1..], r[0].name) && KeysUnique(r[1..]))
  }

  /** The keys in insertion order. */
  function KeyList<V>(r: Record<V>): seq<string>
    decreases |r|
  {
    if r == [] then [] else [r[0].name] + KeyList(r[1..])
  }

  /** `r[name]`, if set. */
  function Get<V>(r: Record<V>, name: string): Option<V>
    decreases |r|
  {
    if r == [] then None
    else if r[0].name == name then Some(r[0].value)
    else Get(r[1..], name)
  }

  /** `{...r, [name]: v}`: the keys stay unique, and `name` is added to them. */
  function Put<V>(r: Record<V>, name: string, v: V): (r': Record<V>)
    requires KeysUnique(r)
    ensures KeysUnique(r')
    ensures forall n :: HasKey(r', n) <==> HasKey(r, n) || n == name
    decreases |r|
  {
    if r == [] then [Field(name, v)]
    else if r[0].name == name then
      var r' := [Field(name, v)] + r[1..];
      assert r'[1..] == r[1..];
      r'
    else
      var r' := [r[0]] + Put(r[1..], name, v);
      assert r'[1..] == Put(r[1..], name, v);
      r'
  }

  /** The key `name` has the new value and every other keeps its own; an
      existing key keeps its place and a new one is appended. */
  lemma {:induction false} PutSpec<V>(r: Record<V>, name: string, v: V)
    requires KeysUnique(r)
    ensures var r' := Put(r, name, v);
      && (forall n :: Get(r', n) == if n == name then Some(v) else Get(r, n))
      && (HasKey(r, name) ==> KeyList(r') == KeyList(r))
      && (!HasKey(r, name) ==> r' == r + [Field(name, v)])
    decreases |r|
  {
    if r != [] {
      var r' := Put(r, name, v);
      if r[0].name == name {
        assert r'[1..] == r[1..];
      } else {
        PutSpec(r[1..], name, v);
        assert r'[1..] == Put(r[1..], name, v);
        if !HasKey(r, name) {
          assert r + [Field(name, v)] == [r[0]] + (r[1..] + [Field(name, v)]);
        }
      }
    }
  }

  /** The value under `name`, or 0 (`data[cat] || 0`). */
  function ValueOf(data: Record<nat>, name: string): nat {
    match Get(data, name)
    case Some(v) => v
    case None => 0
  }

  function Total(data: Record<nat>): nat
    decreases |data|
  {
    if data == [] then 0 else data[0].value + Total(data[1..])
  }

  /** `data[cat] = (data[cat] || 0) + amount` on a record kept in insertion
      order: an existing name is updated in place, a new one is appended. */
  function AddTo(data: Record<nat>, name: string, amount: nat): (r: Record<nat>)
    ensures KeysUnique(data) ==> KeysUnique(r)
    ensures forall n :: HasKey(r, n) <==> HasKey(data, n) || n == name
    ensures forall n :: ValueOf(r, n) == ValueOf(data, n) + (if n == name then amount else 0)
    ensures Total(r) == Total(data) + amount
    decreases |data|
  {
    if data == [] then [Field(name, amount)]
    else if data[0].name == name then
      var r := [Field(name, data[0].value + amount)] + data[1..];
      assert r[1..] == data[1..];
      r
    else
      var r := [data[0]] + AddTo(data[1..], name, amount);
      assert r[1..] == AddTo(data[1..], name, amount);
      assert forall n :: ValueOf(r, n) == if n == data[0].name then data[0].value else ValueOf(r[1..], n);
      r
  }

  /** `transactions.forEach(...)` filling `data`: each expense adds its amount
      to the slice of its chart category. */
  function ChartFrom(data: Record<nat>, txs: seq<Transaction>, m: Classifications): Record<nat>
    decreases |txs|
  {
    if txs == [] then data
    else
      var t := txs[0];
      var data' := if t.tipo == Cargo then AddTo(data, ChartCategory(m, t.id), t.monto) else data;
      ChartFrom(data', txs[1..], m)
  }

  /** The expense chart (src/App.tsx:192-203). */
  function ChartData(txs: seq<Transaction>, m: Classifications): Record<nat> {
    ChartFrom([], txs, m)
  }

  lemma {:induction false} ChartFromSpec(data: Record<nat>, txs: seq<Transaction>, m: Classifications)
    ensures var r := ChartFrom(data, txs, m);
      && (KeysUnique(data) ==> KeysUnique(r))
      && (forall n :: HasKey(r, n) <==> HasKey(data, n) || n in Buckets(txs, m))
      && (forall n :: ValueOf(r, n) == ValueOf(data, n) + SpentIn(txs, m, n))
      && Total(r) == Total(data) + TotalOf(txs, Cargo)
    decreases |txs|
  {
    if txs != [] {
      var t := txs[0];
      var data' := if t.tipo == Cargo then AddTo(data, ChartCategory(m, t.id), t.monto) else data;
      ChartFromSpec(data', txs[1..], m);
    }
  }

  /** Each category appears once; a slice exists exactly for the categories
      some expense falls in; its value is the sum of those expenses; and the
      slices add up to total expenses, so income never shows. */
  lemma ChartDataSpec(txs: seq<Transaction>, m: Classifications)
    ensures var c := ChartData(txs, m);
      && KeysUnique(c)
      && (forall n :: HasKey(c, n) <==> n in Buckets(txs, m))
      && (forall n :: ValueOf(c, n) == SpentIn(txs, m, n))
      && Total(c) == TotalOf(txs, Cargo)
  {
    ChartFromSpec([], txs, m);
  }

  /** Expenses whose entry is a result with category `name`: what a budget
      counts. */
  function Spent(txs: seq<Transaction>, m: Classifications, name: string): nat
    decreases |txs|
  {
    if txs == [] then 0
    else
      var t := txs[0];
      (if t.tipo == Cargo && t.id in m && m[t.id].Classified? && m[t.id].result.categoria == name then t.monto else 0)
      + Spent(txs[1..], m, name)
  }

  /** Expenses whose entry is missing, 'loading' or 'error'. */
  function Unclassified(txs: seq<Transaction>, m: Classifications): nat
    decreases |txs|
  {
    if txs == [] then 0
    else
      var t := txs[0];
      (if t.tipo == Cargo && !(t.id in m && m[t.id].Classified?) then t.monto else 0) + Unclassified(txs[1..], m)
  }

  /** A budget: a limit under a category name. */
  type Budget = Field<int>

  /** One row of the budget panel. */
  datatype BudgetRow = BudgetRow(name: string, spent: nat, limit: int)

  /** `Object.entries(budgets).map(...)` (src/App.tsx:205-212): one row per
      budget, in budget order. */
  function BudgetData(budgets: seq<Budget>, txs: seq<Transaction>, m: Classifications): (r: seq<BudgetRow>)
    ensures |r| == |budgets|
    ensures forall i :: 0 <= i < |budgets| ==> r[i].name == budgets[i].name && r[i].limit == budgets[i].value
    ensures forall i :: 0 <= i < |budgets| ==> r[i].spent == Spent(txs, m, budgets[i].name)
    decreases |budgets|
  {
    if budgets == [] then []
    else [BudgetRow(budgets[0].name, Spent(txs, m, budgets[0].name), budgets[0].value)] + BudgetData(budgets[1..], txs, m)
  }

  /** A budget's spending is the chart's slice of the same name, except that
      the 'Por Definir' slice also holds the expenses without a result, which
      no budget counts. */
  lemma {:induction false} BudgetAgreesWithChart(txs: seq<Transaction>, m: Classifications, name: string)
    ensures ValueOf(ChartData(txs, m), name)
            == Spent(txs, m, name) + (if name == POR_DEFINIR then Unclassified(txs, m) else 0)
    ensures name != POR_DEFINIR ==> Spent(txs, m, name) == ValueOf(ChartData(txs, m), name)
    ensures Spent(txs, m, name) <= ValueOf(ChartData(txs, m), name)
  {
    ChartDataSpec(txs, m);
    SpentInSplits(txs, m, name);
  }

  lemma {:induction false} SpentInSplits(txs: seq<Transaction>, m: Classifications, name: string)
    ensures SpentIn(txs, m, name) == Spent(txs, m, name) + (if name == POR_DEFINIR then Unclassified(txs, m) else 0)
    decreases |txs|
  {
    if txs != [] {
      SpentInSplits(txs[1..], m, name);
    }
  }

  /** Marking a transaction 'loading' or 'error' never moves a budget: only
      results are counted. */
  lemma {:induction false} UnclassifiedNeverCounts(txs: seq<Transaction>, m: Classifications, id: string, e: Entry, name: string)
    requires !e.Classified?
    requires id in m ==> !m[id].Classified?
    ensures Spent(txs, m[id := e], name) == Spent(txs, m, name)
    decreases |txs|
  {
    if txs != [] {
      UnclassifiedNeverCounts(txs[1..], m, id, e, name);
    }
  }

  /** A budget with no classified expense in its category shows 0 spent. */
  lemma {:induction false} SpentZeroWithoutMatches(txs: seq<Transaction>, m: Classifications, name: string)
    requires forall t :: t in txs && t.tipo == Cargo && t.id in m && m[t.id].Classified? ==> m[t.id].result.categoria != name
    ensures Spent(txs, m, name) == 0
    decreases |txs|
  {
    if txs != [] {
      assert txs[0] in txs;
      SpentZeroWithoutMatches(txs[1..], m, name);
    }
  }

  /** The over-budget flag of the budget panel (src/components/GrowthCenter.tsx:99,107):
      strictly more spent than the limit. */
  predicate OverBudget(row: BudgetRow) {
    row.spent > row.limit
  }

  lemma {:induction false} SpentAppend(txs: seq<Transaction>, more: seq<Transaction>, m: Classifications, name: string)
    ensures Spent(txs + more, m, name) == Spent(txs, m, name) + Spent(more, m, name)
    decreases |txs|
  {
    if txs != [] {
      SpentAppend(txs[1..], more, m, name);
      assert (txs + more)[1..] == txs[1..] + more;
    } else {
      assert txs + more == more;
    }
  }

  /** More movements never clear a budget's over-budget flag. */
  lemma StaysOverBudget(budgets: seq<Budget>, txs: seq<Transaction>, more: seq<Transaction>, m: Classifications, i: nat)
    requires i < |budgets|
    requires OverBudget(BudgetData(budgets, txs, m)[i])
    ensures OverBudget(BudgetData(budgets, txs + more, m)[i])
  {
    SpentAppend(txs, more, m, budgets[i].name);
  }

  /** `filteredTransactions` (src/App.tsx:186-190): the transactions whose
      lower-cased description contains the lower-cased search term; `lower`
      stands for `String.prototype.toLowerCase`. */
  function Search(txs: seq<Transaction>, term: string, lower: string -> string): seq<Transaction> {
    Filter(txs, Matches(term, lower))
  }

  function Matches(term: string, lower: string -> string): Transaction -> bool {
    (t: Transaction) => Includes(lower(t.descripcion), lower(term))
  }

  /** The search keeps list order, keeps exactly the transactions whose
      lower-cased description has an occurrence of the lower-cased term, and
      with a term that lower-cases to the empty string (the empty term, for
      instance) returns every transaction. */
  lemma SearchSpec(txs: seq<Transaction>, term: string, lower: string -> string)
    ensures SubsequenceOf(Search(txs, term, lower), txs)
    ensures forall t :: t in Search(txs, term, lower) <==>
      t in txs && exists i :: OccursAt(lower(t.descripcion), lower(term), i)
    ensures forall t :: multiset(Search(txs, term, lower))[t]
                     == if exists i :: OccursAt(lower(t.descripcion), lower(term), i) then multiset(txs)[t] else 0
    ensures lower(term) == "" ==> Search(txs, term, lower) == txs
  {
    var keep := Matches(term, lower);
    FilterKeepsOrder(txs, keep);
    forall t ensures keep(t) <==> exists i :: OccursAt(lower(t.descripcion), lower(term), i) {
      var _ := Includes(lower(t.descripcion), lower(term));
    }
    if lower(term) == "" {
      forall t | t in txs ensures keep(t) {
        IncludesEmpty(lower(t.descripcion));
      }
      FilterAll(txs, keep);
    }
  }
}
