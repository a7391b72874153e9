/**
 * app/dashboard/page.tsx: the summary totals computed from the loaded
 * transactions, the colour of the net balance, and the page state that
 * loading and the session decide.
 */
module Dashboard {
  import opened Wrappers
  import opened Domain
  import TransactionsRoute
  import Calendar

  // Totals.

  /** `.filter((t) => t.type === kind)`. */
  function OfKind(ts: seq<Transaction>, kind: TxType): seq<Transaction> {
    if ts == [] then []
    else (if ts[0].kind == kind then [ts[0]] else []) + OfKind(ts[1..], kind)
  }

  /** The filter keeps every transaction of the kind as often as it occurs, and no other. */
  lemma {:induction false} OfKindCount(ts: seq<Transaction>, kind: TxType, t: Transaction)
    ensures multiset(OfKind(ts, kind))[t] == if t.kind == kind then multiset(ts)[t] else 0
    decreases |ts|
  {
    if ts != [] {
      assert ts == [ts[0]] + ts[1..];
      OfKindCount(ts[1..], kind, t);
    }
  }

  /** `.reduce((sum, t) => sum + Number(t.amount), acc)`: a fold from the left. */
  function SumFrom(acc: real, ts: seq<Transaction>): real
    decreases |ts|
  {
    if ts == [] then acc else SumFrom(acc + ts[0].amount, ts[1..])
  }

  /** The sum of the amounts, as a reference definition independent of the fold. */
  function Sum(ts: seq<Transaction>): real {
    if ts == [] then 0.0 else ts[0].amount + Sum(ts[1..])
  }

  /** `totalIncome`: the amounts of the INCOME transactions, added up. */
  function TotalIncome(ts: seq<Transaction>): (r: real)
    ensures r == Sum(OfKind(ts, Income))
  {
    FoldIsSum(0.0, OfKind(ts, Income));
    SumFrom(0.0, OfKind(ts, Income))
  }

  /** `totalExpenses`: the amounts of the EXPENSE transactions, added up. */
  function TotalExpenses(ts: seq<Transaction>): (r: real)
    ensures r == Sum(OfKind(ts, Expense))
  {
    FoldIsSum(0.0, OfKind(ts, Expense));
    SumFrom(0.0, OfKind(ts, Expense))
  }

  /** `netBalance`: income counted up and expenses counted down, row by row. */
  function NetBalance(ts: seq<Transaction>): (r: real)
    ensures r == SignedSum(ts)
  {
    SignedSumIsIncomeMinusExpenses(ts);
    TotalIncome(ts) - TotalExpenses(ts)
  }

  /** The two text colours the summary cards use. */
  datatype Color = Emerald | Rose

  /** The net balance card is emerald when the balance is not negative, rose otherwise. */
  function NetBalanceColor(ts: seq<Transaction>): (c: Color)
    ensures c == Emerald <==> TotalIncome(ts) >= TotalExpenses(ts)
    ensures c == Rose <==> SignedSum(ts) < 0.0
  {
    if NetBalance(ts) >= 0.0 then Emerald else Rose
  }

  /** Income adds its amount and an expense subtracts it. */
  function SignedSum(ts: seq<Transaction>): real {
    if ts == [] then 0.0
    else (if ts[0].kind == Income then ts[0].amount else -ts[0].amount) + SignedSum(ts[1..])
  }

  lemma {:induction false} FoldIsSum(acc: real, ts: seq<Transaction>)
    ensures SumFrom(acc, ts) == acc + Sum(ts)
    decreases |ts|
  {
    if ts != [] {
      FoldIsSum(acc + ts[0].amount, ts[1..]);
    }
  }

  lemma {:induction false} SumAppend(a: seq<Transaction>, b: seq<Transaction>)
    ensures Sum(a + b) == Sum(a) + Sum(b)
    decreases |a|
  {
    if a == [] {
      assert a + b == b;
    } else {
      assert (a + b)[0] == a[0];
      assert (a + b)[1..] == a[1..] + b;
      SumAppend(a[1..], b);
    }
  }

  lemma {:induction false} OfKindAppend(a: seq<Transaction>, b: seq<Transaction>, kind: TxType)
    ensures OfKind(a + b, kind) == OfKind(a, kind) + OfKind(b, kind)
    decreases |a|
  {
    if a == [] {
      assert a + b == b;
    } else {
      assert (a + b)[0] == a[0];
      assert (a + b)[1..] == a[1..] + b;
      OfKindAppend(a[1..], b, kind);
      var head := if a[0].kind == kind then [a[0]] else [];
      assert OfKind(a + b, kind) == head + OfKind(a[1..] + b, kind);
      assert head + (OfKind(a[1..], kind) + OfKind(b, kind)) == (head + OfKind(a[1..], kind)) + OfKind(b, kind);
    }
  }

  /** The filtered sum of a non-empty list: the head counts when it has the kind. */
  lemma OfKindSumStep(ts: seq<Transaction>, kind: TxType)
    requires ts != []
    ensures Sum(OfKind(ts, kind)) == (if ts[0].kind == kind then ts[0].amount else 0.0) + Sum(OfKind(ts[1..], kind))
  {
    var head := if ts[0].kind == kind then [ts[0]] else [];
    SumAppend(head, OfKind(ts[1..], kind));
    if head != [] {
      assert head[1..] == [];
    }
  }

  /** Every total of an empty list is 0. */
  lemma EmptyTotals()
    ensures TotalIncome([]) == 0.0 && TotalExpenses([]) == 0.0 && NetBalance([]) == 0.0
  {
  }

  /** Income and expenses together account for every amount, each exactly once. */
  lemma {:induction false} IncomePlusExpensesIsSum(ts: seq<Transaction>)
    ensures TotalIncome(ts) + TotalExpenses(ts) == Sum(ts)
    decreases |ts|
  {
    if ts != [] {
      IncomePlusExpensesIsSum(ts[1..]);
      OfKindSumStep(ts, Income);
      OfKindSumStep(ts, Expense);
    }
  }

  /** The signed sum is the income sum less the expense sum. */
  lemma {:induction false} SignedSumIsIncomeMinusExpenses(ts: seq<Transaction>)
    ensures SignedSum(ts) == Sum(OfKind(ts, Income)) - Sum(OfKind(ts, Expense))
    decreases |ts|
  {
    if ts != [] {
      SignedSumIsIncomeMinusExpenses(ts[1..]);
      OfKindSumStep(ts, Income);
      OfKindSumStep(ts, Expense);
    }
  }

  /** One more transaction raises its own total by its amount and leaves the other total alone. */
  lemma AppendOne(ts: seq<Transaction>, t: Transaction)
    ensures TotalIncome(ts + [t]) == TotalIncome(ts) + (if t.kind == Income then t.amount else 0.0)
    ensures TotalExpenses(ts + [t]) == TotalExpenses(ts) + (if t.kind == Expense then t.amount else 0.0)
  {
    OfKindAppend(ts, [t], Income);
    OfKindAppend(ts, [t], Expense);
    SumAppend(OfKind(ts, Income), OfKind([t], Income));
    SumAppend(OfKind(ts, Expense), OfKind([t], Expense));
  }

  /** With positive amounts, as stored rows have, neither total is negative. */
  lemma {:induction false} TotalsNotNegative(ts: seq<Transaction>)
    requires forall i :: 0 <= i < |ts| ==> ts[i].amount > 0.0
    ensures TotalIncome(ts) >= 0.0 && TotalExpenses(ts) >= 0.0
    decreases |ts|
  {
    if ts != [] {
      TotalsNotNegative(ts[1..]);
      OfKindSumStep(ts, Income);
      OfKindSumStep(ts, Expense);
    }
  }

  /** The totals a user's dashboard shows from a valid store are never negative. */
  lemma StoredTotalsNotNegative(store: TransactionsRoute.TransactionStore, user: UserId)
    requires store.Valid()
    ensures TotalIncome(TransactionsRoute.ListFor(store.rows, user)) >= 0.0
    ensures TotalExpenses(TransactionsRoute.ListFor(store.rows, user)) >= 0.0
  {
    TransactionsRoute.StoredRowsWellFormed(store);
    var listed := TransactionsRoute.ListFor(store.rows, user);
    forall i | 0 <= i < |listed| ensures listed[i].amount > 0.0 {
      assert listed[i] in multiset(store.rows);
    }
    TotalsNotNegative(listed);
  }

  /** Taking one row out of a list removes one occurrence of it. */
  lemma RemoveAtMultiset(b: seq<Transaction>, i: nat)
    requires i < |b|
    ensures multiset(b[..i] + b[i + 1..]) == multiset(b) - multiset{b[i]}
  {
    assert b == b[..i] + [b[i]] + b[i + 1..];
  }

  /** Taking one row out of a list takes its amount out of the sum. */
  lemma RemoveAtSum(b: seq<Transaction>, i: nat)
    requires i < |b|
    ensures Sum(b) == b[i].amount + Sum(b[..i] + b[i + 1..])
  {
    var left, x, right := b[..i], b[i], b[i + 1..];
    assert b == left + [x] + right;
    SumAppend(left + [x], right);
    SumAppend(left, [x]);
    SumAppend(left, right);
    assert Sum([x]) == x.amount by { assert [x][1..] == []; }
  }

  /** The sum does not depend on the order of the rows. */
  lemma {:induction false} SumPermutation(a: seq<Transaction>, b: seq<Transaction>)
    requires multiset(a) == multiset(b)
    ensures Sum(a) == Sum(b)
    decreases |a|
  {
    if a != [] {
      assert a[0] in multiset(b);
      var i :| 0 <= i < |b| && b[i] == a[0];
      RemoveAtMultiset(b, i);
      RemoveAtSum(b, i);
      assert a == [a[0]] + a[1..];
      assert multiset(a[1..]) == multiset(a) - multiset{a[0]};
      SumPermutation(a[1..], b[..i] + b[i + 1..]);
    }
  }

  /** Totals depend only on which transactions are loaded, not on their order. */
  lemma TotalsIgnoreOrder(a: seq<Transaction>, b: seq<Transaction>)
    requires multiset(a) == multiset(b)
    ensures TotalIncome(a) == TotalIncome(b) && TotalExpenses(a) == TotalExpenses(b)
  {
    forall kind: TxType ensures Sum(OfKind(a, kind)) == Sum(OfKind(b, kind)) {
      forall t ensures multiset(OfKind(a, kind))[t] == multiset(OfKind(b, kind))[t] {
        OfKindCount(a, kind, t);
        OfKindCount(b, kind, t);
      }
      assert multiset(OfKind(a, kind)) == multiset(OfKind(b, kind));
      SumPermutation(OfKind(a, kind), OfKind(b, kind));
    }
  }

  /** The totals of a user's list are those of the user's rows in store order. */
  lemma ListedTotals(rows: seq<Transaction>, user: UserId)
    ensures TotalIncome(TransactionsRoute.ListFor(rows, user)) == TotalIncome(TransactionsRoute.OwnedBy(rows, user))
    ensures TotalExpenses(TransactionsRoute.ListFor(rows, user)) == TotalExpenses(TransactionsRoute.OwnedBy(rows, user))
  {
    TotalsIgnoreOrder(TransactionsRoute.ListFor(rows, user), TransactionsRoute.OwnedBy(rows, user));
  }

  // Page state.

  const LoginPath := "/login"
  const DashboardPath := "/dashboard"

  /** What the list request came back with. */
  datatype ListReply =
    | FetchThrew          // `fetch` or `response.json()` threw
    | NotOk               // a response whose `ok` is false
    | OkRows(rows: seq<Transaction>)

  /** What the session effect decides to do. */
  datatype Effect = RedirectToLogin | LoadTransactions | NoEffect

  /** The `useEffect` decision: redirect a settled session without a user; load for a user. */
  function EffectOf(isPending: bool, user: Option<UserId>): (e: Effect)
    ensures e == RedirectToLogin <==> !isPending && user.None?
    ensures e == LoadTransactions <==> user.Some?
  {
    if !isPending && user.None? then RedirectToLogin
    else if user.Some? then LoadTransactions
    else NoEffect
  }

  /** The three summary figures and the balance colour. */
  datatype Summary = Summary(totalIncome: real, totalExpenses: real, netBalance: real, balanceColor: Color)

  /** What the page renders: the spinner, nothing, or the dashboard with its summary. */
  datatype View = Spinner | Blank | Page(summary: Summary)

  function ViewOf(isPending: bool, user: Option<UserId>, ts: seq<Transaction>): (v: View)
    ensures v.Spinner? <==> isPending
    ensures v.Blank? <==> !isPending && user.None?
    ensures v.Page? ==> v.summary.netBalance == v.summary.totalIncome - v.summary.totalExpenses
                        && (v.summary.balanceColor == Emerald <==> v.summary.netBalance >= 0.0)
    ensures v.Page? ==> v.summary == Summary(TotalIncome(ts), TotalExpenses(ts), NetBalance(ts), NetBalanceColor(ts))
  {
    if isPending then Spinner
    else if user.None? then Blank
    else Page(Summary(TotalIncome(ts), TotalExpenses(ts), NetBalance(ts), NetBalanceColor(ts)))
  }

  class DashboardPage {
    var transactions: seq<Transaction>
    var isLoadingTransactions: bool
    /** The route the router was last sent to. */
    var location: string
    /** How many list requests the page has sent. */
    var listRequests: nat

    constructor ()
      ensures transactions == [] && isLoadingTransactions
      ensures location == DashboardPath && listRequests == 0
    {
      transactions := [];
      isLoadingTransactions := true;
      location := DashboardPath;
      listRequests := 0;
    }

    /** `fetchTransactions`: the list is replaced only by an ok reply, and loading always ends. */
    method FetchTransactions(reply: ListReply)
      modifies this
      ensures !isLoadingTransactions
      ensures transactions == if reply.OkRows? then reply.rows else old(transactions)
      ensures listRequests == old(listRequests) + 1 && location == old(location)
    {
      isLoadingTransactions := true;
      listRequests := listRequests + 1;
      if reply.OkRows? {
        transactions := reply.rows;
      }
      isLoadingTransactions := false;
    }

    /** `handleTransactionAdded`: reload the list. */
    method HandleTransactionAdded(reply: ListReply)
      modifies this
      ensures !isLoadingTransactions
      ensures transactions == if reply.OkRows? then reply.rows else old(transactions)
      ensures listRequests == old(listRequests) + 1 && location == old(location)
    {
      FetchTransactions(reply);
    }

    /** The session effect; `reply` is what the list request returns if one is sent. */
    method OnSessionChange(isPending: bool, user: Option<UserId>, reply: ListReply)
      modifies this
      ensures EffectOf(isPending, user) == RedirectToLogin ==>
                location == LoginPath && listRequests == old(listRequests)
                && transactions == old(transactions) && isLoadingTransactions == old(isLoadingTransactions)
      ensures EffectOf(isPending, user) == LoadTransactions ==>
                location == old(location) && listRequests == old(listRequests) + 1 && !isLoadingTransactions
                && transactions == if reply.OkRows? then reply.rows else old(transactions)
      ensures EffectOf(isPending, user) == NoEffect ==>
                location == old(location) && listRequests == old(listRequests)
                && transactions == old(transactions) && isLoadingTransactions == old(isLoadingTransactions)
    {
      if !isPending && user.None? {
        location := LoginPath;
      } else if user.Some? {
        FetchTransactions(reply);
      }
    }
  }

  /** The totals of the worked example: 100 income, 30 and 20 expenses. */
  lemma WorkedExample(d: Calendar.CalendarDate, user: UserId)
    ensures var ts := [Transaction(100.0, "Salary", Income, d, user),
                       Transaction(30.0, "Food", Expense, d, user),
                       Transaction(20.0, "Bus", Expense, d, user)];
            TotalIncome(ts) == 100.0 && TotalExpenses(ts) == 50.0 && NetBalance(ts) == 50.0
  {
    var t1, t2, t3 := Transaction(100.0, "Salary", Income, d, user),
                      Transaction(30.0, "Food", Expense, d, user),
                      Transaction(20.0, "Bus", Expense, d, user);
    AppendOne([], t1);
    assert [] + [t1] == [t1];
    AppendOne([t1], t2);
    assert [t1] + [t2] == [t1, t2];
    AppendOne([t1, t2], t3);
    assert [t1, t2] + [t3] == [t1, t2, t3];
  }
}
