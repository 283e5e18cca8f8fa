/** The transaction ledger of the App component: the state `transactions`,
    `input`, `editId` and `error`, the handlers that change it, and the views
    derived from it (the two totals, the balance and the filtered list). */
module Ledger {
  import opened Common
  import opened Text
  import opened Records

  /** The two messages `addTransaction` can put into `error`. */
  datatype FormError = DescriptionRequired | AmountInvalid

  function Message(e: FormError): string
  {
    match e
    case DescriptionRequired => "Por favor, insira uma descri\U{00E7}\U{00E3}o."
    case AmountInvalid => "Por favor, insira um valor v\U{00E1}lido maior que zero."
  }

  /** Outcome of the two checks: the error to show, or the parsed amount. */
  datatype Checked = Rejected(error: FormError) | Accepted(amount: real)

  /** The amount test `!amount || isNaN(amount) || parseFloat(amount) <= 0`. */
  predicate AmountRejected(a: Option<real>)
  {
    a.None? || a.value <= 0.0
  }

  /** The checks of `addTransaction`, description first: a blank description
      is reported whatever the amount; an amount is reported only for a
      description with some non-blank character. */
  function Validate(f: Form): (r: Checked)
    ensures r == Rejected(DescriptionRequired) <==> IsBlank(f.name)
    ensures r == Rejected(AmountInvalid) <==> !IsBlank(f.name) && AmountRejected(f.amount)
    ensures r.Accepted? <==> !IsBlank(f.name) && !AmountRejected(f.amount)
    ensures r.Accepted? ==> r.amount > 0.0 && f.amount == Some(r.amount)
  {
    if Trim(f.name) == [] then Rejected(DescriptionRequired)
    else if AmountRejected(f.amount) then Rejected(AmountInvalid)
    else Accepted(f.amount.value)
  }

  /** `{ ...input, id, name: input.name.trim(), amount: parseFloat(input.amount) }`. */
  function NewTransaction(f: Form, id: int, amount: real): (t: Transaction)
    ensures t.id == id && t.amount == amount
    ensures t.name == Trim(f.name)
    ensures t.kind == f.kind && t.date == f.date && t.category == f.category
  {
    Transaction(id, Trim(f.name), amount, f.kind, f.date, f.category)
  }

  /** A change event of one form input: the input's `name` attribute,
      standing for the field it edits, and the new value. */
  datatype FieldEdit =
    | NameEdit(name: string)
    | AmountEdit(amount: Option<real>)
    | TypeEdit(kind: string)
    | DateEdit(date: DateField)
    | CategoryEdit(category: string)

  /** `{ ...input, [e.target.name]: e.target.value }`: the named field takes
      the new value and every other field keeps its own. */
  function Edited(f: Form, e: FieldEdit): (g: Form)
    ensures g.name == (if e.NameEdit? then e.name else f.name)
    ensures g.amount == (if e.AmountEdit? then e.amount else f.amount)
    ensures g.kind == (if e.TypeEdit? then e.kind else f.kind)
    ensures g.date == (if e.DateEdit? then e.date else f.date)
    ensures g.category == (if e.CategoryEdit? then e.category else f.category)
  {
    match e
    case NameEdit(v) => f.(name := v)
    case AmountEdit(v) => f.(amount := v)
    case TypeEdit(v) => f.(kind := v)
    case DateEdit(v) => f.(date := v)
    case CategoryEdit(v) => f.(category := v)
  }

  /** The form `addTransaction` leaves behind: empty name and amount, type
      `expense`, today's date, category `outros`. */
  function BlankForm(today: DateField): Form
  {
    Form("", None, Expense, today, "outros")
  }

  /** What `setInput(toEdit)` shows for a stored record. */
  function FormOf(t: Transaction): (f: Form)
    ensures f.name == t.name && f.amount == Some(t.amount)
    ensures f.kind == t.kind && f.date == t.date && f.category == t.category
  {
    Form(t.name, Some(t.amount), t.kind, t.date, t.category)
  }

  /** `txs.map(t => t.id === id ? u : t)`: every entry with the id is
      replaced by `u` at its own position; nothing else moves. */
  function ReplaceById(txs: seq<Transaction>, id: int, u: Transaction): (r: seq<Transaction>)
    ensures |r| == |txs|
    ensures forall i :: 0 <= i < |txs| ==> r[i] == if txs[i].id == id then u else txs[i]
    ensures FreshId(id, txs) ==> r == txs
  {
    if txs == [] then []
    else [if txs[0].id == id then u else txs[0]] + ReplaceById(txs[1..], id, u)
  }

  /** `txs.filter(t => t.id !== id)`. */
  function RemoveById(txs: seq<Transaction>, id: int): (r: seq<Transaction>)
    ensures FreshId(id, r)
    ensures forall i :: 0 <= i < |r| ==> r[i] in txs
    ensures forall i :: 0 <= i < |txs| && txs[i].id != id ==> txs[i] in r
    ensures FreshId(id, txs) ==> r == txs
  {
    var keep := (t: Transaction) => t.id != id;
    FilterKeepsAll(txs, keep);
    Filter(txs, keep)
  }

  /** Removing keeps the relative order of what stays. */
  lemma RemoveKeepsOrder(a: seq<Transaction>, b: seq<Transaction>, id: int)
    ensures RemoveById(a + b, id) == RemoveById(a, id) + RemoveById(b, id)
  {
    FilterConcat(a, b, (t: Transaction) => t.id != id);
  }

  /** Removing twice is removing once. */
  lemma RemoveIdempotent(txs: seq<Transaction>, id: int)
    ensures RemoveById(RemoveById(txs, id), id) == RemoveById(txs, id)
  {
    FilterIdempotent(txs, (t: Transaction) => t.id != id);
  }

  /** Removing drops every occurrence of a matching entry and keeps every
      occurrence of the others. */
  lemma RemoveCounts(txs: seq<Transaction>, id: int, x: Transaction)
    ensures multiset(RemoveById(txs, id))[x] == if x.id == id then 0 else multiset(txs)[x]
  {
    FilterCount(txs, (t: Transaction) => t.id != id, x);
  }

  /** `txs.find(t => t.id === id)`: the first entry with the id, if any. */
  function FindById(txs: seq<Transaction>, id: int): (r: Option<Transaction>)
    ensures r.None? <==> FreshId(id, txs)
    ensures r.Some? ==> exists i :: 0 <= i < |txs| && txs[i] == r.value && r.value.id == id && FreshId(id, txs[..i])
  {
    if txs == [] then None
    else if txs[0].id == id then
      assert txs[..0] == [];
      Some(txs[0])
    else
      var r := FindById(txs[1..], id);
      if r.Some? then
        var j :| 0 <= j < |txs[1..]| && txs[1..][j] == r.value && r.value.id == id && FreshId(id, txs[1..][..j]);
        assert txs[..j + 1] == [txs[0]] + txs[1..][..j];
        r
      else r
  }

  predicate IsIncome(t: Transaction)
  {
    t.kind == Income
  }

  predicate IsExpense(t: Transaction)
  {
    t.kind == Expense
  }

  /** `incomeData`: the sum of the amounts of type `income`. */
  function IncomeData(txs: seq<Transaction>): real
  {
    SumAmounts(Filter(txs, IsIncome))
  }

  /** `expenseData`: the sum of the amounts of type `expense`. */
  function ExpenseData(txs: seq<Transaction>): real
  {
    SumAmounts(Filter(txs, IsExpense))
  }

  /** `balance = incomeData - expenseData`. */
  function Balance(txs: seq<Transaction>): real
  {
    IncomeData(txs) - ExpenseData(txs)
  }

  /** What one entry adds to the balance: plus its amount for income, minus
      for expense, nothing for any other type. */
  function SignedAmount(t: Transaction): real
  {
    if t.kind == Income then t.amount else if t.kind == Expense then -t.amount else 0.0
  }

  /** Reference definition of the balance: the signed amounts added up
      from the front of the list. */
  function SignedSum(txs: seq<Transaction>): real
  {
    if txs == [] then 0.0 else SignedAmount(txs[0]) + SignedSum(txs[1..])
  }

  /** How an entry at the head of the list moves the two totals: an income
      adds to `incomeData` only, an expense to `expenseData` only, any other
      type to neither. */
  lemma TotalsOfPrepend(t: Transaction, txs: seq<Transaction>)
    ensures IncomeData([t] + txs) == IncomeData(txs) + (if t.kind == Income then t.amount else 0.0)
    ensures ExpenseData([t] + txs) == ExpenseData(txs) + (if t.kind == Expense then t.amount else 0.0)
  {
    FilterConcat([t], txs, IsIncome);
    FilterConcat([t], txs, IsExpense);
    SumAmountsConcat(Filter([t], IsIncome), Filter(txs, IsIncome));
    SumAmountsConcat(Filter([t], IsExpense), Filter(txs, IsExpense));
    assert [t][1..] == [];
    assert [t][..0] == [];
  }

  /** The balance is the signed sum over the whole list, so it holds after
      any sequence of adds, edits and removals. */
  lemma {:induction false} BalanceIsSignedSum(txs: seq<Transaction>)
    ensures Balance(txs) == SignedSum(txs)
  {
    if txs == [] {
    } else {
      BalanceIsSignedSum(txs[1..]);
      TotalsOfPrepend(txs[0], txs[1..]);
      assert [txs[0]] + txs[1..] == txs;
    }
  }

  /** `filteredTransactions`: the whole list for "all", otherwise exactly
      the entries whose type is the filter value, in their order. */
  function FilteredTransactions(txs: seq<Transaction>, filter: string): (r: seq<Transaction>)
    ensures filter == "all" ==> r == txs
    ensures filter != "all" ==> forall i :: 0 <= i < |r| ==> r[i].kind == filter && r[i] in txs
    ensures filter != "all" ==> forall i :: 0 <= i < |txs| && txs[i].kind == filter ==> txs[i] in r
  {
    var show := (t: Transaction) => if filter == "all" then true else t.kind == filter;
    FilterKeepsAll(txs, show);
    Filter(txs, show)
  }

  /** The filtered view holds every entry of the shown type as many times
      as the list does, and no entry of another type. */
  lemma FilteredCounts(txs: seq<Transaction>, filter: string, x: Transaction)
    ensures multiset(FilteredTransactions(txs, filter))[x] ==
      if filter == "all" || x.kind == filter then multiset(txs)[x] else 0
  {
    FilterCount(txs, (t: Transaction) => if filter == "all" then true else t.kind == filter, x);
  }

  /** The filtered view keeps the list's order. */
  lemma FilteredKeepsOrder(a: seq<Transaction>, b: seq<Transaction>, filter: string)
    ensures FilteredTransactions(a + b, filter) == FilteredTransactions(a, filter) + FilteredTransactions(b, filter)
  {
    FilterConcat(a, b, (t: Transaction) => if filter == "all" then true else t.kind == filter);
  }

  /** A new record with a fresh id and a positive amount keeps the ids
      unique and the amounts positive, whether it is prepended or replaces
      the entry being edited. */
  lemma {:induction false} SaveKeepsConsistent(txs: seq<Transaction>, editId: Option<int>, u: Transaction)
    requires UniqueIds(txs) && AllPositive(txs) && FreshId(u.id, txs) && u.amount > 0.0
    ensures UniqueIds([u] + txs) && AllPositive([u] + txs)
    ensures editId.Some? ==> UniqueIds(ReplaceById(txs, editId.value, u)) && AllPositive(ReplaceById(txs, editId.value, u))
  {
    PrependKeepsUniqueIds(u, txs);
    assert AllPositive([u] + txs) by {
      forall i | 0 <= i < |txs| + 1 ensures ([u] + txs)[i].amount > 0.0 {
        if i > 0 {
          assert ([u] + txs)[i] == txs[i - 1];
        }
      }
    }
    if editId.Some? {
      var r := ReplaceById(txs, editId.value, u);
      forall i, j | 0 <= i < j < |r| ensures r[i].id != r[j].id {
        if txs[i].id == editId.value && txs[j].id == editId.value {
          assert false;
        }
      }
    }
  }

  /** Removal keeps ids unique and amounts positive. */
  lemma RemoveKeepsConsistent(txs: seq<Transaction>, id: int)
    ensures UniqueIds(txs) && AllPositive(txs) ==>
      UniqueIds(RemoveById(txs, id)) && AllPositive(RemoveById(txs, id))
  {
    if UniqueIds(txs) {
      FilterKeepsUniqueIds(txs, (t: Transaction) => t.id != id);
    }
  }

  /** A filtered list of entries with unique ids has unique ids. */
  lemma {:induction false} FilterKeepsUniqueIds(txs: seq<Transaction>, p: Transaction -> bool)
    requires UniqueIds(txs)
    ensures UniqueIds(Filter(txs, p))
  {
    if txs != [] {
      var rest := txs[1..];
      assert UniqueIds(rest) by {
        forall i, j | 0 <= i < j < |rest| ensures rest[i].id != rest[j].id {
          assert rest[i] == txs[i + 1] && rest[j] == txs[j + 1];
        }
      }
      FilterKeepsUniqueIds(rest, p);
      if p(txs[0]) {
        assert FreshId(txs[0].id, rest) by {
          forall k | 0 <= k < |rest| ensures rest[k].id != txs[0].id {
            assert rest[k] == txs[k + 1];
          }
        }
        FreshIdInFilter(txs[0].id, rest, p);
        PrependKeepsUniqueIds(txs[0], Filter(rest, p));
      } else {
        assert Filter(txs, p) == [] + Filter(rest, p);
      }
    }
  }

  lemma FreshIdInFilter(id: int, txs: seq<Transaction>, p: Transaction -> bool)
    requires FreshId(id, txs)
    ensures FreshId(id, Filter(txs, p))
  {
    var r := Filter(txs, p);
    forall i | 0 <= i < |r| ensures r[i].id != id {
      assert r[i] in txs;
    }
  }

  lemma PrependKeepsUniqueIds(u: Transaction, txs: seq<Transaction>)
    requires UniqueIds(txs) && FreshId(u.id, txs)
    ensures UniqueIds([u] + txs)
  {
    var r := [u] + txs;
    forall i, j | 0 <= i < j < |r| ensures r[i].id != r[j].id {
      assert r[j] == txs[j - 1];
      if i > 0 {
        assert r[i] == txs[i - 1];
      }
    }
  }

  /** The four state variables the handlers touch. */
  datatype AppState = AppState(
    transactions: seq<Transaction>, input: Form, editId: Option<int>, error: Option<FormError>)

  /** Ids are unique and every amount is strictly positive. */
  predicate Consistent(s: AppState)
  {
    UniqueIds(s.transactions) && AllPositive(s.transactions)
  }

  /** The state `addTransaction` leaves, with `now` standing for
      `Date.now()` and `today` for the date the reset form shows. A rejected
      form changes nothing but `error`. An accepted one is prepended outside
      edit mode, and in edit mode replaces the entry being edited where it
      stands; edit mode then ends and the form resets, while `error` stays. */
  function AfterAdd(s: AppState, now: int, today: DateField): (r: AppState)
    ensures Validate(s.input).Rejected? ==>
      r == s.(error := Some(Validate(s.input).error))
    ensures Validate(s.input).Accepted? ==>
      r.editId == None && r.input == BlankForm(today) && r.error == s.error
    ensures Validate(s.input).Accepted? && s.editId.None? ==>
      r.transactions == [NewTransaction(s.input, now, Validate(s.input).amount)] + s.transactions
    ensures Validate(s.input).Accepted? && s.editId.Some? ==>
      r.transactions == ReplaceById(s.transactions, s.editId.value, NewTransaction(s.input, now, Validate(s.input).amount))
    ensures Consistent(s) && FreshId(now, s.transactions) ==> Consistent(r)
  {
    var checked := Validate(s.input);
    if checked.Rejected? then
      s.(error := Some(checked.error))
    else
      var u := NewTransaction(s.input, now, checked.amount);
      AcceptedKeepsConsistent(s, u, today);
      AcceptedState(s, u, today)
  }

  /** The accepted branch of `addTransaction`. */
  function AcceptedState(s: AppState, u: Transaction, today: DateField): AppState
  {
    var txs := if s.editId.Some? then ReplaceById(s.transactions, s.editId.value, u) else [u] + s.transactions;
    AppState(txs, BlankForm(today), None, s.error)
  }

  /** Saving a record with a fresh id and a positive amount, in either mode,
      keeps the state consistent. */
  lemma AcceptedKeepsConsistent(s: AppState, u: Transaction, today: DateField)
    ensures Consistent(s) && FreshId(u.id, s.transactions) && u.amount > 0.0 ==>
      Consistent(AcceptedState(s, u, today))
  {
    if Consistent(s) && FreshId(u.id, s.transactions) && u.amount > 0.0 {
      SaveKeepsConsistent(s.transactions, s.editId, u);
    }
  }

  /** The state `removeTransaction` leaves: the list without the id, the
      rest as it was (edit mode included). */
  function AfterRemove(s: AppState, id: int): (r: AppState)
    ensures r.input == s.input && r.editId == s.editId && r.error == s.error
    ensures r.transactions == RemoveById(s.transactions, id)
    ensures FreshId(id, r.transactions) && |r.transactions| <= |s.transactions|
    ensures Consistent(s) ==> Consistent(r)
  {
    RemoveKeepsConsistent(s.transactions, id);
    s.(transactions := RemoveById(s.transactions, id))
  }

  /** The state `editTransaction` leaves: the form shows the first entry
      with the id and edit mode starts; the list does not change. It is
      reached only from a row of the list, so the id is present. */
  function AfterEdit(s: AppState, id: int): (r: AppState)
    requires !FreshId(id, s.transactions)
    ensures r.transactions == s.transactions && r.error == s.error && r.editId == Some(id)
    ensures exists i :: 0 <= i < |s.transactions| && s.transactions[i].id == id
                     && FreshId(id, s.transactions[..i]) && r.input == FormOf(s.transactions[i])
  {
    var found := FindById(s.transactions, id);
    s.(input := FormOf(found.value), editId := Some(id))
  }

  /** The App component's state, changed in place by its handlers. */
  class FinanceApp {
    var transactions: seq<Transaction>
    var input: Form
    var editId: Option<int>
    var error: Option<FormError>

    function State(): AppState
      reads this
    {
      AppState(transactions, input, editId, error)
    }

    /** Mounting: the initial state, then the load effect, which adopts the
        saved list when there is one. */
    constructor (saved: Option<seq<Transaction>>, today: DateField)
      ensures State() == AppState(if saved.Some? then saved.value else [], BlankForm(today), None, None)
    {
      transactions := if saved.Some? then saved.value else [];
      input := BlankForm(today);
      editId := None;
      error := None;
    }

    /** `handleChange`: the one field the event names takes its new value and
        the error clears. */
    method HandleChange(e: FieldEdit)
      modifies this
      ensures State() == old(State()).(input := Edited(old(input), e), error := None)
    {
      input := Edited(input, e);
      error := None;
    }

    /** `addTransaction`. */
    method AddTransaction(now: int, today: DateField)
      modifies this
      ensures State() == AfterAdd(old(State()), now, today)
    {
      var r := AfterAdd(State(), now, today);
      transactions, input, editId, error := r.transactions, r.input, r.editId, r.error;
    }

    /** `removeTransaction`. */
    method RemoveTransaction(id: int)
      modifies this
      ensures State() == AfterRemove(old(State()), id)
    {
      transactions := RemoveById(transactions, id);
    }

    /** `editTransaction`. */
    method EditTransaction(id: int)
      requires !FreshId(id, transactions)
      modifies this
      ensures State() == AfterEdit(old(State()), id)
    {
      input := FormOf(FindById(transactions, id).value);
      editId := Some(id);
    }
  }
}
