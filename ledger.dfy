/**
 * How the ledger determines a company's aggregates. Creating an entry adds its amount to
 * dayValue, monthValue and anualValue whatever its type; cancelling subtracts it again only
 * for an entrada. So each aggregate is the sum over the company's entries of the saida
 * amounts (any status) and of the entrada amounts not cancelled.
 */
module Ledger {
  import opened Wrappers
  import opened Schema

  /** What one entry has added to company `c`'s aggregates and not taken back. */
  function Contribution(e: Entry, c: int): int {
    if e.companyId == c && (e.txType == Saida || e.status != Cancelado) then e.amount else 0
  }

  function CompanySum(ledger: seq<Entry>, c: int): int {
    if ledger == [] then 0 else Contribution(ledger[0], c) + CompanySum(ledger[1..], c)
  }

  /** The three aggregates moved by the same amount. */
  function Credit(company: Company, amount: int): (r: Company)
    ensures r.dayValue - company.dayValue == amount
    ensures r.monthValue - company.monthValue == amount
    ensures r.anualValue - company.anualValue == amount
    ensures r.(dayValue := 0, monthValue := 0, anualValue := 0)
         == company.(dayValue := 0, monthValue := 0, anualValue := 0)
  {
    company.(dayValue := company.dayValue + amount,
             monthValue := company.monthValue + amount,
             anualValue := company.anualValue + amount)
  }

  lemma {:induction false} CompanySumAppend(ledger: seq<Entry>, e: Entry, c: int)
    ensures CompanySum(ledger + [e], c) == CompanySum(ledger, c) + Contribution(e, c)
  {
    if ledger != [] {
      assert (ledger + [e])[1..] == ledger[1..] + [e];
      CompanySumAppend(ledger[1..], e, c);
    }
  }

  lemma {:induction false} CompanySumUpdate(ledger: seq<Entry>, i: int, e: Entry, c: int)
    requires 0 <= i < |ledger|
    ensures CompanySum(ledger[i := e], c) == CompanySum(ledger, c) - Contribution(ledger[i], c) + Contribution(e, c)
  {
    if i > 0 {
      assert ledger[i := e][1..] == ledger[1..][i - 1 := e];
      CompanySumUpdate(ledger[1..], i - 1, e, c);
    } else {
      assert ledger[i := e][1..] == ledger[1..];
    }
  }

  /** A company none of whose entries carries money has nothing in its aggregates. */
  lemma {:induction false} CompanySumOfIdle(ledger: seq<Entry>, c: int)
    requires forall i :: 0 <= i < |ledger| && ledger[i].companyId == c ==> ledger[i].amount == 0
    ensures CompanySum(ledger, c) == 0
  {
    if ledger != [] {
      assert forall i :: 0 <= i < |ledger[1..]| ==> ledger[1..][i] == ledger[i + 1];
      CompanySumOfIdle(ledger[1..], c);
    }
  }

  /** The revenue reading of the aggregates: the confirmed entrada amounts of company `c`. */
  function ConfirmedRevenue(ledger: seq<Entry>, c: int): int {
    if ledger == [] then 0
    else
      var e := ledger[0];
      (if e.companyId == c && e.txType == Entrada && e.status == Confirmado then e.amount else 0)
      + ConfirmedRevenue(ledger[1..], c)
  }

  /**
   * When the company only ever sold (no saida entry, nothing left pending), its aggregates are
   * exactly its confirmed revenue.
   */
  lemma {:induction false} CompanySumIsRevenueWithoutSaida(ledger: seq<Entry>, c: int)
    requires forall i :: 0 <= i < |ledger| && ledger[i].companyId == c ==>
               ledger[i].txType == Entrada && ledger[i].status != Pendente
    ensures CompanySum(ledger, c) == ConfirmedRevenue(ledger, c)
  {
    if ledger != [] {
      assert forall i :: 0 <= i < |ledger[1..]| ==> ledger[1..][i] == ledger[i + 1];
      CompanySumIsRevenueWithoutSaida(ledger[1..], c);
    }
  }

  lemma {:induction false} ConfirmedRevenueAppend(ledger: seq<Entry>, e: Entry, c: int)
    ensures ConfirmedRevenue(ledger + [e], c)
         == ConfirmedRevenue(ledger, c) + (if e.companyId == c && e.txType == Entrada && e.status == Confirmado then e.amount else 0)
  {
    if ledger != [] {
      assert (ledger + [e])[1..] == ledger[1..] + [e];
      ConfirmedRevenueAppend(ledger[1..], e, c);
    }
  }

  /**
   * A saida entry of any status raises its company's aggregates by its amount, yet adds
   * nothing to the company's confirmed entrada revenue.
   */
  lemma SaidaCountsAsRevenue(ledger: seq<Entry>, e: Entry)
    requires e.txType == Saida
    ensures CompanySum(ledger + [e], e.companyId) == CompanySum(ledger, e.companyId) + e.amount
    ensures ConfirmedRevenue(ledger + [e], e.companyId) == ConfirmedRevenue(ledger, e.companyId)
  {
    CompanySumAppend(ledger, e, e.companyId);
    ConfirmedRevenueAppend(ledger, e, e.companyId);
  }

  /** Each aggregate of each company equals what the ledger has put into it. */
  ghost predicate AggregatesMatch(companies: map<int, Company>, ledger: seq<Entry>) {
    forall c :: c in companies ==>
      && companies[c].dayValue == CompanySum(ledger, c)
      && companies[c].monthValue == CompanySum(ledger, c)
      && companies[c].anualValue == CompanySum(ledger, c)
  }

  /** Entries naming a company id not handed out yet carry no money. */
  ghost predicate StrayEntriesCarryNothing(ledger: seq<Entry>, nextCompanyId: int) {
    forall i :: 0 <= i < |ledger| && ledger[i].companyId >= nextCompanyId ==> ledger[i].amount == 0
  }

  /** The product side of a cancellation: an entrada gives its quantity back, if the product exists. */
  function Restocked(products: map<int, Product>, e: Entry): map<int, Product> {
    if e.txType == Entrada && e.productId in products
    then products[e.productId := products[e.productId].(amount := products[e.productId].amount + e.quantity)]
    else products
  }

  /** The company side of a cancellation: an entrada's amount comes off, if the company exists. */
  function Refunded(companies: map<int, Company>, e: Entry): map<int, Company> {
    if e.txType == Entrada && e.companyId in companies
    then companies[e.companyId := Credit(companies[e.companyId], -e.amount)]
    else companies
  }

  /** Recording a confirmed entry and crediting its amount to its company keeps the match. */
  lemma RecordKeepsAggregates(companies: map<int, Company>, ledger: seq<Entry>, e: Entry)
    requires AggregatesMatch(companies, ledger)
    requires e.companyId in companies && e.status == Confirmado
    ensures AggregatesMatch(companies[e.companyId := Credit(companies[e.companyId], e.amount)], ledger + [e])
  {
    forall c | c in companies
      ensures CompanySum(ledger + [e], c) == CompanySum(ledger, c) + (if c == e.companyId then e.amount else 0)
    {
      CompanySumAppend(ledger, e, c);
    }
  }

  /** Recording an entry that carries no money changes no aggregate. */
  lemma RecordNothingKeepsAggregates(companies: map<int, Company>, ledger: seq<Entry>, e: Entry)
    requires AggregatesMatch(companies, ledger)
    requires e.amount == 0
    ensures AggregatesMatch(companies, ledger + [e])
  {
    forall c | c in companies ensures CompanySum(ledger + [e], c) == CompanySum(ledger, c) {
      CompanySumAppend(ledger, e, c);
    }
  }

  /** Cancelling a live entry and refunding it keeps the match, whatever its type. */
  lemma CancelKeepsAggregates(companies: map<int, Company>, ledger: seq<Entry>, i: int)
    requires AggregatesMatch(companies, ledger)
    requires 0 <= i < |ledger| && ledger[i].status != Cancelado
    ensures AggregatesMatch(Refunded(companies, ledger[i]), ledger[i := ledger[i].(status := Cancelado)])
  {
    var e := ledger[i];
    forall c | c in companies
      ensures CompanySum(ledger[i := e.(status := Cancelado)], c)
           == CompanySum(ledger, c) - (if c == e.companyId && e.txType == Entrada then e.amount else 0)
    {
      CompanySumUpdate(ledger, i, e.(status := Cancelado), c);
    }
  }

  /** Cancelling an entry deposits nothing anywhere: the stray-entry property survives. */
  lemma CancelKeepsStrays(ledger: seq<Entry>, next: int, i: int)
    requires StrayEntriesCarryNothing(ledger, next)
    requires 0 <= i < |ledger|
    ensures StrayEntriesCarryNothing(ledger[i := ledger[i].(status := Cancelado)], next)
  {
  }

  /** A company id not handed out yet has nothing in the ledger, so a new company starts at 0. */
  lemma FreshCompanyHasNothing(ledger: seq<Entry>, next: int, c: int)
    requires StrayEntriesCarryNothing(ledger, next)
    requires c >= next
    ensures CompanySum(ledger, c) == 0
  {
    CompanySumOfIdle(ledger, c);
  }

  /** Recording a sale and then cancelling it restores every company's aggregates. */
  lemma {:induction false} RecordThenCancelRestores(companies: map<int, Company>, ledger: seq<Entry>, e: Entry, c: int)
    requires e.txType == Entrada && e.status == Confirmado
    ensures CompanySum((ledger + [e])[|ledger| := e.(status := Cancelado)], c) == CompanySum(ledger, c)
  {
    CompanySumAppend(ledger, e, c);
    CompanySumUpdate(ledger + [e], |ledger|, e.(status := Cancelado), c);
  }
}
