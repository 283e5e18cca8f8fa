/** The transaction record, the form that produces it, and the sum of
    amounts that every total in the program is built from. */
module Records {
  import opened Common

  /** The `type` values the form offers; loaded data may carry any other. */
  const Income: string := "income"
  const Expense: string := "expense"

  type MonthNumber = m: int | 1 <= m <= 12 witness 1

  /** The `date` field. It is a `YYYY-MM-DD` string from the date input;
      clearing that input leaves a string that does not parse. */
  datatype DateField = Date(year: int, month: MonthNumber, day: int) | Unparsable

  /** `new Date(dateStr).getMonth()`: the month index 0..11 of a parsed date,
      and none (NaN) for a string that does not parse. */
  function MonthIndex(d: DateField): (r: Option<nat>)
    ensures r.Some? <==> d.Date?
    ensures r.Some? ==> r.value < 12 && r.value + 1 == d.month
  {
    match d
    case Date(_, m, _) => Some(m - 1)
    case Unparsable => None
  }

  /** A stored transaction. `kind` is the source's `type` field. */
  datatype Transaction = Transaction(
    id: int, name: string, amount: real, kind: string, date: DateField, category: string)

  /** The form state `input`. `amount` is the typed amount once parsed: none
      stands for an empty field or one that is not a number. */
  datatype Form = Form(name: string, amount: Option<real>, kind: string, date: DateField, category: string)

  /** `txs.reduce((acc, t) => acc + t.amount, 0)`, a left fold. */
  function SumAmounts(txs: seq<Transaction>): real
  {
    if txs == [] then 0.0 else SumAmounts(txs[..|txs| - 1]) + txs[|txs| - 1].amount
  }

  lemma {:induction false} SumAmountsConcat(a: seq<Transaction>, b: seq<Transaction>)
    ensures SumAmounts(a + b) == SumAmounts(a) + SumAmounts(b)
  {
    if b == [] {
      assert a + b == a;
    } else {
      assert (a + b)[..|a + b| - 1] == a + b[..|b| - 1];
      SumAmountsConcat(a, b[..|b| - 1]);
    }
  }

  /** The sum of amounts does not depend on the order of the list. */
  lemma {:induction false} SumAmountsPermutation(a: seq<Transaction>, b: seq<Transaction>)
    requires multiset(a) == multiset(b)
    ensures SumAmounts(a) == SumAmounts(b)
    decreases |a|
  {
    if a == [] {
      assert |b| == |multiset(b)| == 0;
    } else {
      var n := |a| - 1;
      var x := a[n];
      assert a == a[..n] + [x];
      assert x in multiset(b);
      var k :| 0 <= k < |b| && b[k] == x;
      assert b == b[..k] + [x] + b[k + 1..];
      var rest := b[..k] + b[k + 1..];
      calc {
        multiset(a[..n]);
        multiset(a) - multiset{x};
        multiset(b) - multiset{x};
        multiset(rest);
      }
      SumAmountsPermutation(a[..n], rest);
      SumAmountsConcat(b[..k] + [x], b[k + 1..]);
      SumAmountsConcat(b[..k], [x]);
      SumAmountsConcat(b[..k], b[k + 1..]);
      assert SumAmounts([x]) == x.amount by {
        assert [x][..0] == [];
      }
    }
  }

  /** All amounts in the list are strictly positive, as the form's
      validation guarantees for every record it creates. */
  predicate AllPositive(txs: seq<Transaction>)
  {
    forall i :: 0 <= i < |txs| ==> txs[i].amount > 0.0
  }

  /** No two entries share an id. */
  predicate UniqueIds(txs: seq<Transaction>)
  {
    forall i, j :: 0 <= i < j < |txs| ==> txs[i].id != txs[j].id
  }

  /** `id` is not the id of any entry. */
  predicate FreshId(id: int, txs: seq<Transaction>)
  {
    forall i :: 0 <= i < |txs| ==> txs[i].id != id
  }
}
