/**
 * The read handlers of the cash-flow controller: the paginated transaction listing of a
 * company, and the period summary (confirmed entrada revenue, transaction count, totals per
 * payment method, best-selling products).
 */
module CashFlowQueries {
  import opened Wrappers
  import opened Http
  import opened Text
  import opened Schema
  import opened Sorting
  import opened Tables
  import opened Ledger

  // ---------------------------------------------------------------------------------------
  // GET /cash-flow/company/:id/transactions

  /** The ledger seen as a table: entry id `i` is position `i - 1`. */
  function LedgerTable(ledger: seq<Entry>): (m: map<int, Entry>)
    ensures forall id :: id in m <==> 1 <= id <= |ledger|
    ensures forall id :: id in m ==> m[id] == ledger[id - 1]
  {
    if ledger == [] then map[]
    else LedgerTable(ledger[..|ledger| - 1])[|ledger| := ledger[|ledger| - 1]]
  }

  /** The query-string filters of the listing. */
  datatype TxFilter = TxFilter(companyId: int, txType: Option<string>, startDate: DateParam, endDate: DateParam)

  /**
   * The company always filters; the type only when truthy; the closed creation range only when
   * both dates are present and valid (one absent or invalid date drops the range silently).
   */
  predicate Selects(f: TxFilter, e: Entry) {
    && e.companyId == f.companyId
    && (Truthy(f.txType) ==> TxTypeName(e.txType) == f.txType.value)
    && (f.startDate.At? && f.endDate.At? ==> f.startDate.time <= e.createdAt <= f.endDate.time)
  }

  predicate NewerFirst(a: Keyed<Entry>, b: Keyed<Entry>) {
    a.val.createdAt >= b.val.createdAt
  }

  /** Every selected entry exactly once, with its id, newest first. */
  function Matching(ledger: seq<Entry>, f: TxFilter): (r: seq<Keyed<Entry>>)
    ensures forall k :: k in r <==> 1 <= k.id <= |ledger| && ledger[k.id - 1] == k.val && Selects(f, k.val)
    ensures NoDup(r)
    ensures forall i, j :: 0 <= i < j < |r| ==> r[i].val.createdAt >= r[j].val.createdAt
  {
    var table := LedgerTable(ledger);
    assert IdsBelow(table, |ledger| + 1);
    assert TotalPreorder(NewerFirst);
    var r := Query(table, |ledger| + 1, (k: Keyed<Entry>) => Selects(f, k.val), NewerFirst);
    assert SortedBy(r, NewerFirst);
    r
  }

  /** `limit` rows from row `offset` on, clipped to the list: a page past the end is empty. */
  function Window<T>(s: seq<T>, offset: int, limit: int): (r: seq<T>)
    ensures offset >= 0 && limit >= 0 ==>
              && |r| == (if offset >= |s| then 0 else if |s| - offset < limit then |s| - offset else limit)
              && forall i :: 0 <= i < |r| ==> r[i] == s[offset + i]
    ensures forall x :: x in r ==> x in s
  {
    var lo := Clip(offset, 0, |s|);
    var hi := Clip(lo + limit, lo, |s|);
    s[lo..hi]
  }

  function Clip(x: int, lo: int, hi: int): int
    requires lo <= hi
  {
    if x < lo then lo else if x > hi then hi else x
  }

  /** The paginator's answer: the total number of matches, the page asked for, and its rows. */
  datatype TxPage = TxPage(total: int, perPage: int, currentPage: int, rows: seq<Keyed<Entry>>)

  /**
   * Page `page` (default 1) of `limit` rows (default 20) of the matching entries, newest first;
   * page `page` starts at row `(page - 1) * limit`.
   */
  function GetTransactions(
    ledger: seq<Entry>, caller: Option<int>, companyId: int, page: Option<int>, limit: Option<int>,
    txType: Option<string>, startDate: DateParam, endDate: DateParam): (r: Outcome<TxPage>)
    ensures r.Failure? <==> caller.None?
    ensures caller.None? ==> r == Failure(UNAUTHORIZED, Unauthenticated)
    ensures r.Success? ==>
              var all := Matching(ledger, TxFilter(companyId, txType, startDate, endDate));
              && r.status == OK
              && r.value.total == |all|
              && r.value.currentPage == page.GetOr(1)
              && r.value.perPage == limit.GetOr(20)
              && r.value.rows == Window(all, (page.GetOr(1) - 1) * limit.GetOr(20), limit.GetOr(20))
              && (page.None? && limit.None? ==> r.value.rows == all[..if |all| < 20 then |all| else 20])
              && (forall k :: k in r.value.rows ==> k in all)
  {
    if caller.None? then Failure(UNAUTHORIZED, Unauthenticated)
    else
      var all := Matching(ledger, TxFilter(companyId, txType, startDate, endDate));
      var perPage := limit.GetOr(20);
      var offset := (page.GetOr(1) - 1) * perPage;
      Success(OK, TxPage(|all|, perPage, page.GetOr(1), Window(all, offset, perPage)))
  }

  /**
   * Any first rows of the listing, the default page of 20 included, are the newest matching
   * entries: no matching entry left out of them is newer than one in them.
   */
  lemma FirstRowsAreNewest(ledger: seq<Entry>, f: TxFilter, n: int, shown: Keyed<Entry>, omitted: Keyed<Entry>)
    requires 0 <= n <= |Matching(ledger, f)|
    requires shown in Matching(ledger, f)[..n] && omitted !in Matching(ledger, f)[..n]
    requires 1 <= omitted.id <= |ledger| && ledger[omitted.id - 1] == omitted.val && Selects(f, omitted.val)
    ensures shown.val.createdAt >= omitted.val.createdAt
  {
    var all := Matching(ledger, f);
    assert omitted in all;
    NewestPrefix(all, n, shown, omitted);
  }

  /** In a list sorted newest first, a row of a prefix is no older than a row past the prefix. */
  lemma NewestPrefix(all: seq<Keyed<Entry>>, n: int, shown: Keyed<Entry>, omitted: Keyed<Entry>)
    requires 0 <= n <= |all|
    requires forall i, j :: 0 <= i < j < |all| ==> all[i].val.createdAt >= all[j].val.createdAt
    requires shown in all[..n] && omitted in all && omitted !in all[..n]
    ensures shown.val.createdAt >= omitted.val.createdAt
  {
    var j :| 0 <= j < |all| && all[j] == omitted;
    var i :| 0 <= i < n && all[..n][i] == shown;
    assert all[i] == shown;
  }

  // ---------------------------------------------------------------------------------------
  // GET /cash-flow/company/:id/summary

  /**
   * The clock readings the summary needs: now, and the start of the current day, week, month
   * and year. Each is absent when Luxon cannot render it as SQL.
   */
  datatype Calendar = Calendar(now: Option<int>, dayStart: Option<int>, weekStart: Option<int>,
                               monthStart: Option<int>, yearStart: Option<int>)

  /** The start of the period: today unless the period is week, month or year. */
  function PeriodStart(period: string, cal: Calendar): Option<int> {
    if period == "week" then cal.weekStart
    else if period == "month" then cal.monthStart
    else if period == "year" then cal.yearStart
    else cal.dayStart
  }

  /** The condition of the summary's main query: the company's confirmed entries in [start, end]. */
  predicate Counted(companyId: int, start: int, end: int, e: Entry) {
    e.companyId == companyId && start <= e.createdAt <= end && e.status == Confirmado
  }

  /** The rows of the main query, in ledger order. */
  function Transactions(ledger: seq<Entry>, companyId: int, start: int, end: int): (r: seq<Entry>)
    ensures forall e :: e in r <==> e in ledger && Counted(companyId, start, end, e)
  {
    if ledger == [] then []
    else
      var rest := Transactions(ledger[1..], companyId, start, end);
      assert forall e :: e in ledger <==> e == ledger[0] || e in ledger[1..];
      if Counted(companyId, start, end, ledger[0]) then [ledger[0]] + rest else rest
  }

  /** The entrada rows among `ts`, in order. */
  function Entradas(ts: seq<Entry>): (r: seq<Entry>)
    ensures forall e :: e in r <==> e in ts && e.txType == Entrada
  {
    if ts == [] then []
    else
      var rest := Entradas(ts[1..]);
      assert forall e :: e in ts <==> e == ts[0] || e in ts[1..];
      if ts[0].txType == Entrada then [ts[0]] + rest else rest
  }

  /** The sum of the amounts of `ts`. */
  function SumAmounts(ts: seq<Entry>): int {
    if ts == [] then 0 else ts[0].amount + SumAmounts(ts[1..])
  }

  /** Reference definition: the company's confirmed entrada revenue created in [start, end]. */
  function RevenueIn(ledger: seq<Entry>, companyId: int, start: int, end: int): int {
    if ledger == [] then 0
    else
      (if Counted(companyId, start, end, ledger[0]) && ledger[0].txType == Entrada then ledger[0].amount else 0)
      + RevenueIn(ledger[1..], companyId, start, end)
  }

  /** Reference definition: how many positions of the ledger the main query selects. */
  function CountIn(ledger: seq<Entry>, companyId: int, start: int, end: int): nat {
    if ledger == [] then 0
    else (if Counted(companyId, start, end, ledger[0]) then 1 else 0) + CountIn(ledger[1..], companyId, start, end)
  }

  /** Filtering the entradas of the main query and adding them up is the period's revenue. */
  lemma {:induction false} TotalEntradasIsRevenue(ledger: seq<Entry>, companyId: int, start: int, end: int)
    ensures SumAmounts(Entradas(Transactions(ledger, companyId, start, end))) == RevenueIn(ledger, companyId, start, end)
  {
    if ledger != [] {
      TotalEntradasIsRevenue(ledger[1..], companyId, start, end);
      var rest := Transactions(ledger[1..], companyId, start, end);
      if Counted(companyId, start, end, ledger[0]) {
        var ts := [ledger[0]] + rest;
        assert ts[0] == ledger[0] && ts[1..] == rest;
        if ledger[0].txType == Entrada {
          var es := [ledger[0]] + Entradas(rest);
          assert es[0] == ledger[0] && es[1..] == Entradas(rest);
        }
      }
    }
  }

  /** The main query returns one row per selected ledger position. */
  lemma {:induction false} TransactionsCount(ledger: seq<Entry>, companyId: int, start: int, end: int)
    ensures |Transactions(ledger, companyId, start, end)| == CountIn(ledger, companyId, start, end)
  {
    if ledger != [] {
      TransactionsCount(ledger[1..], companyId, start, end);
    }
  }

  /** Over a window covering the company's whole history, the period revenue is its confirmed revenue. */
  lemma {:induction false} WholeHistoryRevenue(ledger: seq<Entry>, companyId: int, start: int, end: int)
    requires forall i :: 0 <= i < |ledger| && ledger[i].companyId == companyId ==> start <= ledger[i].createdAt <= end
    ensures RevenueIn(ledger, companyId, start, end) == ConfirmedRevenue(ledger, companyId)
  {
    if ledger != [] {
      assert forall i :: 0 <= i < |ledger[1..]| ==> ledger[1..][i] == ledger[i + 1];
      WholeHistoryRevenue(ledger[1..], companyId, start, end);
    }
  }

  /**
   * The summary's revenue and the stored aggregates agree when the window covers the company's
   * whole history and the company only ever sold, with nothing pending.
   */
  lemma SummaryMatchesAggregates(companies: map<int, Company>, ledger: seq<Entry>, companyId: int, start: int, end: int)
    requires AggregatesMatch(companies, ledger) && companyId in companies
    requires forall i :: 0 <= i < |ledger| && ledger[i].companyId == companyId ==>
               && start <= ledger[i].createdAt <= end
               && ledger[i].txType == Entrada
               && ledger[i].status != Pendente
    ensures companies[companyId].dayValue == RevenueIn(ledger, companyId, start, end)
  {
    WholeHistoryRevenue(ledger, companyId, start, end);
    CompanySumIsRevenueWithoutSaida(ledger, companyId);
  }

  /** Reference definition: the sum of the amounts of the rows of `ts` paid by `m`. */
  function MethodTotal(ts: seq<Entry>, m: PayMethod): int {
    if ts == [] then 0 else (if ts[0].paymentMethod == m then ts[0].amount else 0) + MethodTotal(ts[1..], m)
  }

  /** One step of the reduce: start the method's key at 0 if missing, then add the amount. */
  function AddAmount(acc: map<PayMethod, int>, e: Entry): map<PayMethod, int> {
    acc[e.paymentMethod := (if e.paymentMethod in acc then acc[e.paymentMethod] else 0) + e.amount]
  }

  function FoldMethods(acc: map<PayMethod, int>, ts: seq<Entry>): map<PayMethod, int>
    decreases |ts|
  {
    if ts == [] then acc else FoldMethods(AddAmount(acc, ts[0]), ts[1..])
  }

  lemma {:induction false} FoldMethodsSpec(acc: map<PayMethod, int>, ts: seq<Entry>)
    ensures var r := FoldMethods(acc, ts);
            && (forall m :: m in r <==> m in acc || exists e :: e in ts && e.paymentMethod == m)
            && (forall m :: m in r ==> r[m] == (if m in acc then acc[m] else 0) + MethodTotal(ts, m))
    decreases |ts|
  {
    if ts != [] {
      FoldMethodsSpec(AddAmount(acc, ts[0]), ts[1..]);
      assert forall e :: e in ts <==> e == ts[0] || e in ts[1..];
    }
  }

  /** The keys are exactly the payment methods that occur; each maps to its rows' total. */
  function PaymentMethods(ts: seq<Entry>): (r: map<PayMethod, int>)
    ensures forall m :: m in r <==> exists e :: e in ts && e.paymentMethod == m
    ensures forall m :: m in r ==> r[m] == MethodTotal(ts, m)
  {
    FoldMethodsSpec(map[], ts);
    FoldMethods(map[], ts)
  }

  /** The per-method totals partition the rows' total. */
  lemma {:induction false} MethodTotalsAddUp(ts: seq<Entry>)
    ensures MethodTotal(ts, Dinheiro) + MethodTotal(ts, CartaoCredito) + MethodTotal(ts, CartaoDebito)
            + MethodTotal(ts, Pix) + MethodTotal(ts, Transferencia) == SumAmounts(ts)
  {
    if ts != [] {
      MethodTotalsAddUp(ts[1..]);
    }
  }

  /** A method that occurs in no row has total 0. */
  lemma {:induction false} AbsentMethodTotal(ts: seq<Entry>, m: PayMethod)
    requires forall e :: e in ts ==> e.paymentMethod != m
    ensures MethodTotal(ts, m) == 0
  {
    if ts != [] {
      assert forall e :: e in ts[1..] ==> e in ts;
      AbsentMethodTotal(ts[1..], m);
    }
  }

  /** The condition of the best-sellers query: the company's entradas in [start, end], any status. */
  predicate SoldIn(companyId: int, start: int, end: int, e: Entry) {
    e.companyId == companyId && e.txType == Entrada && start <= e.createdAt <= end
  }

  function Sold(ledger: seq<Entry>, companyId: int, start: int, end: int): (r: seq<Entry>)
    ensures forall e :: e in r <==> e in ledger && SoldIn(companyId, start, end, e)
  {
    if ledger == [] then []
    else
      var rest := Sold(ledger[1..], companyId, start, end);
      assert forall e :: e in ledger <==> e == ledger[0] || e in ledger[1..];
      if SoldIn(companyId, start, end, ledger[0]) then [ledger[0]] + rest else rest
  }

  /** The quantity of product `p` over the rows `es`. */
  function QuantityOf(es: seq<Entry>, p: int): int {
    if es == [] then 0 else (if es[0].productId == p then es[0].quantity else 0) + QuantityOf(es[1..], p)
  }

  /** Some row of `es` is about product `p`. */
  predicate Mentions(es: seq<Entry>, p: int) {
    exists e | e in es :: e.productId == p
  }

  /** The distinct product ids of `es` (the groups of `GROUP BY productId`). */
  function ProductIds(es: seq<Entry>): (r: seq<int>)
    ensures NoDup(r)
    ensures forall p :: p in r <==> Mentions(es, p)
  {
    if es == [] then []
    else
      var rest := ProductIds(es[1..]);
      assert forall e :: e in es <==> e == es[0] || e in es[1..];
      if es[0].productId in rest then rest
      else
        var r := [es[0].productId] + rest;
        assert NoDup(r) by {
          forall i, j | 0 <= i < j < |r| ensures r[i] != r[j] {
            if i == 0 {
              assert r[j] == rest[j - 1];
            } else {
              assert r[i] == rest[i - 1] && r[j] == rest[j - 1];
            }
          }
        }
        r
  }

  /** A row of `topProducts`. */
  datatype TopProduct = TopProduct(productId: int, totalQuantity: int)

  predicate MoreSold(a: TopProduct, b: TopProduct) {
    a.totalQuantity >= b.totalQuantity
  }

  /** One row per product sold, with its total quantity. */
  function Groups(es: seq<Entry>): (r: seq<TopProduct>)
    ensures forall g :: g in r <==> g.totalQuantity == QuantityOf(es, g.productId) && Mentions(es, g.productId)
    ensures forall i, j :: 0 <= i < j < |r| ==> r[i].productId != r[j].productId
  {
    var ids := ProductIds(es);
    var r := seq(|ids|, i requires 0 <= i < |ids| => TopProduct(ids[i], QuantityOf(es, ids[i])));
    assert forall g :: g in r <==> g.productId in ids && g.totalQuantity == QuantityOf(es, g.productId) by {
      forall g ensures g in r <==> g.productId in ids && g.totalQuantity == QuantityOf(es, g.productId) {
        if g.productId in ids && g.totalQuantity == QuantityOf(es, g.productId) {
          var i :| 0 <= i < |ids| && ids[i] == g.productId;
          assert r[i] == g;
        }
      }
    }
    r
  }

  /** Rows with distinct product ids, each determined by its product id, stay distinct by product id. */
  lemma DistinctProductsPermutation(es: seq<Entry>, groups: seq<TopProduct>, sorted: seq<TopProduct>)
    requires groups == Groups(es)
    requires multiset(sorted) == multiset(groups)
    ensures forall i, j :: 0 <= i < j < |sorted| ==> sorted[i].productId != sorted[j].productId
  {
    assert NoDup(groups);
    NoDupPermutation(groups, sorted);
    forall i, j | 0 <= i < j < |sorted| ensures sorted[i].productId != sorted[j].productId {
      assert sorted[i] in multiset(groups) && sorted[j] in multiset(groups);
      assert sorted[i] in groups && sorted[j] in groups;
    }
  }

  /** The groups by decreasing quantity (the `ORDER BY totalQuantity DESC`). */
  function Ranked(es: seq<Entry>): (r: seq<TopProduct>)
    ensures forall g :: g in r <==> g.totalQuantity == QuantityOf(es, g.productId) && Mentions(es, g.productId)
    ensures forall i, j :: 0 <= i < j < |r| ==> r[i].totalQuantity >= r[j].totalQuantity
    ensures forall i, j :: 0 <= i < j < |r| ==> r[i].productId != r[j].productId
  {
    var groups := Groups(es);
    var r := Sort(groups, MoreSold);
    assert TotalPreorder(MoreSold);
    SortSorted(groups, MoreSold);
    assert SortedBy(r, MoreSold);
    DistinctProductsPermutation(es, groups, r);
    assert forall g :: g in r <==> g in groups by {
      forall g ensures g in r <==> g in groups {
        SortMembers(groups, MoreSold, g);
      }
    }
    r
  }

  /** A product missing from a prefix of the ranking sold no more than any product in it. */
  lemma RankedPrefixCovers(es: seq<Entry>, n: int, e: Entry)
    requires 0 <= n <= |Ranked(es)|
    requires e in es
    ensures var r := Ranked(es)[..n];
            || (exists g :: g in r && g.productId == e.productId)
            || (n < |Ranked(es)| && forall g :: g in r ==> g.totalQuantity >= QuantityOf(es, e.productId))
  {
    var ranked := Ranked(es);
    var r := ranked[..n];
    var mine := TopProduct(e.productId, QuantityOf(es, e.productId));
    assert mine in ranked;
    var j :| 0 <= j < |ranked| && ranked[j] == mine;
    if j < n {
      assert r[j] == mine;
    } else {
      forall g | g in r ensures g.totalQuantity >= mine.totalQuantity {
        var i :| 0 <= i < |r| && r[i] == g;
        assert ranked[i] == g;
      }
    }
  }

  /**
   * The best-selling products: at most five rows, by decreasing quantity, one per product,
   * each with its true total; a product left out sold no more than every product shown.
   */
  function TopProducts(es: seq<Entry>): (r: seq<TopProduct>)
    ensures |r| <= 5
    ensures forall i, j :: 0 <= i < j < |r| ==> r[i].totalQuantity >= r[j].totalQuantity
    ensures forall i, j :: 0 <= i < j < |r| ==> r[i].productId != r[j].productId
    ensures forall g :: g in r ==> g.totalQuantity == QuantityOf(es, g.productId) && Mentions(es, g.productId)
    ensures forall e :: e in es ==>
              || (exists g :: g in r && g.productId == e.productId)
              || (|r| == 5 && forall g :: g in r ==> g.totalQuantity >= QuantityOf(es, e.productId))
  {
    var ranked := Ranked(es);
    var n := if |ranked| < 5 then |ranked| else 5;
    RankedPrefix(es, n);
    ranked[..n]
  }

  lemma RankedPrefix(es: seq<Entry>, n: int)
    requires 0 <= n <= |Ranked(es)|
    ensures var r := Ranked(es)[..n];
            && (forall i, j :: 0 <= i < j < |r| ==> r[i].totalQuantity >= r[j].totalQuantity)
            && (forall i, j :: 0 <= i < j < |r| ==> r[i].productId != r[j].productId)
            && (forall g :: g in r ==> g.totalQuantity == QuantityOf(es, g.productId) && Mentions(es, g.productId))
            && (forall e :: e in es ==>
                  || (exists g :: g in r && g.productId == e.productId)
                  || (n < |Ranked(es)| && forall g :: g in r ==> g.totalQuantity >= QuantityOf(es, e.productId)))
  {
    var ranked := Ranked(es);
    var r := ranked[..n];
    assert forall g :: g in r ==> g in ranked;
    forall e | e in es
      ensures || (exists g :: g in r && g.productId == e.productId)
              || (n < |Ranked(es)| && forall g :: g in r ==> g.totalQuantity >= QuantityOf(es, e.productId))
    {
      RankedPrefixCovers(es, n, e);
    }
  }

  /** The summary's body. */
  datatype Summary = Summary(
    period: string,
    startDate: Option<int>,
    endDate: Option<int>,
    totalEntradas: int,
    saldo: int,
    totalTransactions: int,
    paymentMethods: map<PayMethod, int>,
    topProducts: seq<TopProduct>)

  /**
   * The summary of company `companyId` for `period` (default today): the confirmed entrada
   * revenue, the balance (equal to it), the count of confirmed entries of either type, the
   * totals per payment method of those entries, and the five best-selling products counted over
   * entradas of any status. When a clock reading is missing, every figure is zero.
   */
  function GetCashFlowSummary(ledger: seq<Entry>, caller: Option<int>, companyId: int, period: Option<string>, cal: Calendar): (r: Outcome<Summary>)
    ensures r.Failure? <==> caller.None?
    ensures caller.None? ==> r == Failure(UNAUTHORIZED, Unauthenticated)
    ensures r.Success? ==>
              && r.status == OK
              && r.value.period == period.GetOr("today")
              && r.value.startDate == PeriodStart(period.GetOr("today"), cal)
              && r.value.endDate == cal.now
              && r.value.saldo == r.value.totalEntradas
    ensures r.Success? && (r.value.startDate.None? || r.value.endDate.None?) ==>
              && r.value.totalEntradas == 0
              && r.value.totalTransactions == 0
              && r.value.paymentMethods == map[]
              && r.value.topProducts == []
    ensures r.Success? && r.value.startDate.Some? && r.value.endDate.Some? ==>
              var start, end := r.value.startDate.value, r.value.endDate.value;
              && r.value.totalEntradas == RevenueIn(ledger, companyId, start, end)
              && r.value.totalTransactions == CountIn(ledger, companyId, start, end)
              && (forall m :: m in r.value.paymentMethods <==>
                    exists e :: e in ledger && Counted(companyId, start, end, e) && e.paymentMethod == m)
              && (forall m :: m in r.value.paymentMethods ==>
                    r.value.paymentMethods[m] == MethodTotal(Transactions(ledger, companyId, start, end), m))
              && r.value.topProducts == TopProducts(Sold(ledger, companyId, start, end))
  {
    if caller.None? then Failure(UNAUTHORIZED, Unauthenticated)
    else
      var p := period.GetOr("today");
      var startDate := PeriodStart(p, cal);
      var endDate := cal.now;
      if startDate.Some? && endDate.Some? then
        var ts := Transactions(ledger, companyId, startDate.value, endDate.value);
        var totalEntradas := SumAmounts(Entradas(ts));
        TotalEntradasIsRevenue(ledger, companyId, startDate.value, endDate.value);
        TransactionsCount(ledger, companyId, startDate.value, endDate.value);
        Success(OK, Summary(p, startDate, endDate, totalEntradas, totalEntradas, |ts|, PaymentMethods(ts),
                            TopProducts(Sold(ledger, companyId, startDate.value, endDate.value))))
      else
        Success(OK, Summary(p, startDate, endDate, 0, 0, 0, map[], []))
  }

  /** An unknown period is summarised like today. */
  lemma UnknownPeriodIsToday(ledger: seq<Entry>, caller: int, companyId: int, period: string, cal: Calendar)
    requires period !in {"today", "week", "month", "year"}
    ensures var r := GetCashFlowSummary(ledger, Some(caller), companyId, Some(period), cal);
            var today := GetCashFlowSummary(ledger, Some(caller), companyId, None, cal);
            r.value == today.value.(period := period)
  {
  }

  /** The payment-method totals of a period add up to the total amount of its confirmed entries. */
  lemma PaymentMethodsAddUp(ledger: seq<Entry>, caller: int, companyId: int, period: Option<string>, cal: Calendar)
    requires PeriodStart(period.GetOr("today"), cal).Some? && cal.now.Some?
    ensures var r := GetCashFlowSummary(ledger, Some(caller), companyId, period, cal);
            var ts := Transactions(ledger, companyId, r.value.startDate.value, r.value.endDate.value);
            var pm := r.value.paymentMethods;
            (if Dinheiro in pm then pm[Dinheiro] else 0) + (if CartaoCredito in pm then pm[CartaoCredito] else 0)
            + (if CartaoDebito in pm then pm[CartaoDebito] else 0) + (if Pix in pm then pm[Pix] else 0)
            + (if Transferencia in pm then pm[Transferencia] else 0) == SumAmounts(ts)
  {
    var r := GetCashFlowSummary(ledger, Some(caller), companyId, period, cal);
    var ts := Transactions(ledger, companyId, r.value.startDate.value, r.value.endDate.value);
    var pm := r.value.paymentMethods;
    assert pm == PaymentMethods(ts);
    forall m | m !in pm ensures MethodTotal(ts, m) == 0 {
      AbsentMethodTotal(ts, m);
    }
    MethodTotalsAddUp(ts);
  }
}
