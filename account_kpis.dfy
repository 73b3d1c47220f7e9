/** The account summary of `get_account_kpis`: one page of an account's
    transactions folded into inflow and outflow totals, a balance and the
    account's currency. */
module AccountKpis {
  import opened BelvoTypes

  const INFLOW := "INFLOW"
  const OUTFLOW := "OUTFLOW"
  const PROCESSED := "PROCESSED"
  const PENDING := "PENDING"

  /** The account snapshot the aggregator embeds in every transaction. */
  datatype AccountSnapshot = AccountSnapshot(currency: string)

  /** A transaction as the aggregator lists it; `txType` and `status` are
      read with `t.get(...)`, so either may be absent. */
  datatype Transaction = Transaction(
    id: string,
    amount: int,
    txType: Option<string>,
    status: Option<string>,
    account: AccountSnapshot)

  /** The JSON object of the transactions endpoint; `results` may be absent. */
  datatype TransactionPage = TransactionPage(results: Option<seq<Transaction>>)

  /** The summary returned to the client. */
  datatype Kpis = Kpis(
    balance: int,
    ingresos: int,
    ingresosPendientes: int,
    egresos: int,
    egresosPendientes: int,
    accountCurrency: Option<string>,
    transactions: seq<Transaction>)

  function Abs(x: int): nat {
    if x < 0 then -x else x
  }

  predicate Selected(t: Transaction, kind: string, status: string) {
    t.txType == Some(kind) && t.status == Some(status)
  }

  /** What one transaction adds to the sum over `kind` and `status`: its
      amount, or its absolute amount when `absolute`, or nothing. */
  function Contribution(t: Transaction, kind: string, status: string, absolute: bool): int {
    if !Selected(t, kind, status) then 0
    else if absolute then Abs(t.amount)
    else t.amount
  }

  /** The generator-expression sum over the transactions of one type and
      status. */
  function Sum(txs: seq<Transaction>, kind: string, status: string, absolute: bool): (r: int)
    ensures absolute ==> r >= 0
    ensures (forall k :: 0 <= k < |txs| ==> !Selected(txs[k], kind, status)) ==> r == 0
  {
    if txs == [] then 0
    else Contribution(txs[0], kind, status, absolute) + Sum(txs[1..], kind, status, absolute)
  }

  /** The totals of lines 153-168 over a list of transactions. */
  function Summarize(txs: seq<Transaction>): (k: Kpis)
    ensures k.ingresos == Sum(txs, INFLOW, PROCESSED, false)
    ensures k.ingresosPendientes == Sum(txs, INFLOW, PENDING, false)
    ensures k.egresos == Sum(txs, OUTFLOW, PROCESSED, true) && k.egresos >= 0
    ensures k.egresosPendientes == Sum(txs, OUTFLOW, PENDING, true) && k.egresosPendientes >= 0
    ensures k.balance == k.ingresos - k.egresos
    ensures k.accountCurrency.None? <==> txs == []
    ensures txs != [] ==> k.accountCurrency == Some(txs[0].account.currency)
    ensures k.transactions == txs
  {
    var ingresos := Sum(txs, INFLOW, PROCESSED, false);
    var egresos := Sum(txs, OUTFLOW, PROCESSED, true);
    Kpis(
      balance := ingresos - egresos,
      ingresos := ingresos,
      ingresosPendientes := Sum(txs, INFLOW, PENDING, false),
      egresos := egresos,
      egresosPendientes := Sum(txs, OUTFLOW, PENDING, true),
      accountCurrency := if txs != [] then Some(txs[0].account.currency) else None,
      transactions := txs)
  }

  /** `get_account_kpis` after its single request: any status other than 200
      raises an HTTPException with that status and the upstream body (and a
      body that is not JSON makes `r.json()` itself raise); a 200 whose body is
      not a JSON object fails on `data.get`; otherwise the page's `results`,
      or the empty list when absent, are summarised. */
  function GetAccountKpis(response: Response<TransactionPage>): (r: Result<Kpis, Error>)
    ensures r.Success? <==> response.statusCode == 200 && response.json.Expected?
    ensures response.statusCode != 200 && !response.json.NotJson? ==>
              r == Failure(HttpException(response.statusCode, Document(response.text)))
    ensures r.Success? && response.json.value.results.None? ==> r.value == Summarize([])
    ensures r.Success? && response.json.value.results.Some? ==>
              r.value == Summarize(response.json.value.results.value)
  {
    if response.statusCode != 200 then
      if response.json.NotJson? then Failure(Crash("JSONDecodeError"))
      else Failure(HttpException(response.statusCode, Document(response.text)))
    else
      match response.json
      case NotJson => Failure(Crash("JSONDecodeError"))
      case OtherJson => Failure(Crash("AttributeError: the body is not a JSON object"))
      case Expected(page) =>
        var txs := if page.results.Some? then page.results.value else [];
        Success(Summarize(txs))
  }

  /** Summing is a homomorphism from concatenation to addition. */
  lemma {:induction false} SumAppend(a: seq<Transaction>, b: seq<Transaction>, kind: string, status: string, absolute: bool)
    ensures Sum(a + b, kind, status, absolute) == Sum(a, kind, status, absolute) + Sum(b, kind, status, absolute)
    decreases |a|
  {
    if a == [] {
      assert a + b == b;
    } else {
      assert (a + b)[1..] == a[1..] + b;
      SumAppend(a[1..], b, kind, status, absolute);
    }
  }

  /** The sums depend only on which transactions there are, not on their order. */
  lemma {:induction false} SumIgnoresOrder(a: seq<Transaction>, b: seq<Transaction>, kind: string, status: string, absolute: bool)
    requires multiset(a) == multiset(b)
    ensures Sum(a, kind, status, absolute) == Sum(b, kind, status, absolute)
    decreases |a|
  {
    if a == [] {
      assert |multiset(b)| == 0;
      assert b == [];
    } else {
      var x := a[0];
      assert x in multiset(b);
      var j :| 0 <= j < |b| && b[j] == x;
      var rest := b[..j] + b[j + 1..];
      assert b == b[..j] + [x] + b[j + 1..];
      assert a == [x] + a[1..];
      assert multiset(b) == multiset(b[..j]) + multiset{x} + multiset(b[j + 1..]);
      assert multiset(a) == multiset{x} + multiset(a[1..]);
      assert multiset(rest) == multiset(b[..j]) + multiset(b[j + 1..]);
      calc {
        multiset(a[1..]);
        multiset(a) - multiset{x};
        multiset(b) - multiset{x};
        multiset(rest);
      }
      SumIgnoresOrder(a[1..], rest, kind, status, absolute);
      SumAppend(b[..j] + [x], b[j + 1..], kind, status, absolute);
      SumAppend(b[..j], [x], kind, status, absolute);
      SumAppend(b[..j], b[j + 1..], kind, status, absolute);
      SumAppend([x], a[1..], kind, status, absolute);
      assert Sum([x], kind, status, absolute) == Contribution(x, kind, status, absolute);
    }
  }

  /** Reordering the transaction list changes none of the totals nor the balance. */
  lemma KpisIgnoreOrder(a: seq<Transaction>, b: seq<Transaction>)
    requires multiset(a) == multiset(b)
    ensures Summarize(a).ingresos == Summarize(b).ingresos
    ensures Summarize(a).ingresosPendientes == Summarize(b).ingresosPendientes
    ensures Summarize(a).egresos == Summarize(b).egresos
    ensures Summarize(a).egresosPendientes == Summarize(b).egresosPendientes
    ensures Summarize(a).balance == Summarize(b).balance
  {
    SumIgnoresOrder(a, b, INFLOW, PROCESSED, false);
    SumIgnoresOrder(a, b, INFLOW, PENDING, false);
    SumIgnoresOrder(a, b, OUTFLOW, PROCESSED, true);
    SumIgnoresOrder(a, b, OUTFLOW, PENDING, true);
  }

  /** A transaction counts towards some total only when its type is INFLOW or
      OUTFLOW and its status PROCESSED or PENDING. */
  predicate Counted(t: Transaction) {
    (t.txType == Some(INFLOW) || t.txType == Some(OUTFLOW)) &&
    (t.status == Some(PROCESSED) || t.status == Some(PENDING))
  }

  /** Inserting a transaction of any other type or status anywhere in the list
      leaves every total and the balance as they were. */
  lemma UncountedTransactionChangesNothing(a: seq<Transaction>, t: Transaction, b: seq<Transaction>)
    requires !Counted(t)
    ensures Summarize(a + [t] + b).ingresos == Summarize(a + b).ingresos
    ensures Summarize(a + [t] + b).ingresosPendientes == Summarize(a + b).ingresosPendientes
    ensures Summarize(a + [t] + b).egresos == Summarize(a + b).egresos
    ensures Summarize(a + [t] + b).egresosPendientes == Summarize(a + b).egresosPendientes
    ensures Summarize(a + [t] + b).balance == Summarize(a + b).balance
  {
    SplitAround(a, t, b, INFLOW, PROCESSED, false);
    SplitAround(a, t, b, INFLOW, PENDING, false);
    SplitAround(a, t, b, OUTFLOW, PROCESSED, true);
    SplitAround(a, t, b, OUTFLOW, PENDING, true);
  }

  /** A pending transaction moves only the pending totals, never the balance. */
  lemma PendingNeverAffectsBalance(a: seq<Transaction>, t: Transaction, b: seq<Transaction>)
    requires t.status == Some(PENDING)
    ensures Summarize(a + [t] + b).balance == Summarize(a + b).balance
    ensures Summarize(a + [t] + b).ingresos == Summarize(a + b).ingresos
    ensures Summarize(a + [t] + b).egresos == Summarize(a + b).egresos
  {
    SplitAround(a, t, b, INFLOW, PROCESSED, false);
    SplitAround(a, t, b, OUTFLOW, PROCESSED, true);
  }

  /** The sum over `a + [t] + b` is the sum over `a + b` plus what `t` adds. */
  lemma SplitAround(a: seq<Transaction>, t: Transaction, b: seq<Transaction>, kind: string, status: string, absolute: bool)
    ensures Sum(a + [t] + b, kind, status, absolute) ==
            Sum(a + b, kind, status, absolute) + Contribution(t, kind, status, absolute)
  {
    SumAppend(a + [t], b, kind, status, absolute);
    SumAppend(a, [t], kind, status, absolute);
    SumAppend(a, b, kind, status, absolute);
    assert Sum([t], kind, status, absolute) == Contribution(t, kind, status, absolute);
  }

  /** The signed effect of one transaction on the balance: a processed inflow
      adds its amount, a processed outflow takes away its absolute amount. */
  function NetEffect(t: Transaction): int {
    if t.txType == Some(INFLOW) && t.status == Some(PROCESSED) then t.amount
    else if t.txType == Some(OUTFLOW) && t.status == Some(PROCESSED) then -(Abs(t.amount) as int)
    else 0
  }

  /** The balance transaction by transaction. */
  function NetProcessed(txs: seq<Transaction>): int {
    if txs == [] then 0 else NetEffect(txs[0]) + NetProcessed(txs[1..])
  }

  /** The balance is the running net of processed transactions. */
  lemma {:induction false} BalanceIsNetProcessed(txs: seq<Transaction>)
    ensures Summarize(txs).balance == NetProcessed(txs)
    decreases |txs|
  {
    if txs != [] {
      BalanceIsNetProcessed(txs[1..]);
    }
  }
}
