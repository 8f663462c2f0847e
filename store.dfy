/**
 * The database the controllers share: one map per table with its auto-increment counter,
 * and the ledger, whose entries are never deleted (entry id = position + 1).
 */
module Store {
  import opened Schema
  import opened Tables
  import opened Ledger

  /** No two companies share a name (the check is global, not per user). */
  ghost predicate CompanyNamesUnique(m: map<int, Company>) {
    forall a, b :: a in m && b in m && a != b ==> m[a].name != m[b].name
  }

  /** No two customers of one company share a name. */
  ghost predicate CustomerNamesUnique(m: map<int, Customer>) {
    forall a, b :: a in m && b in m && a != b && m[a].companyId == m[b].companyId ==> m[a].name != m[b].name
  }

  /** No two types of one company share a name. */
  ghost predicate TypeNamesUnique(m: map<int, ProductType>) {
    forall a, b :: a in m && b in m && a != b && m[a].companyId == m[b].companyId ==> m[a].name != m[b].name
  }

  /** No two products of one company share a name. */
  ghost predicate ProductNamesUnique(m: map<int, Product>) {
    forall a, b :: a in m && b in m && a != b && m[a].companyId == m[b].companyId ==> m[a].name != m[b].name
  }

  /** No two employees share a non-empty email. */
  ghost predicate EmailsUnique(m: map<int, Employee>) {
    forall a, b :: a in m && b in m && a != b && m[a].email != "" ==> m[a].email != m[b].email
  }

  /** The company exists and belongs to user `caller`. */
  predicate Owns(companies: map<int, Company>, caller: int, companyId: int) {
    companyId in companies && companies[companyId].userId == caller
  }

  /**
   * The invariant of the tables the cash-flow handlers write: ids below their counters, each
   * company's aggregates equal to what the ledger put into them, no money on entries naming
   * an id not handed out yet, and company names unique.
   */
  ghost predicate TradingState(
    companies: map<int, Company>, nextCompanyId: int, products: map<int, Product>, nextProductId: int,
    ledger: seq<Entry>)
  {
    && nextCompanyId >= 1 && nextProductId >= 1
    && IdsBelow(companies, nextCompanyId)
    && IdsBelow(products, nextProductId)
    && AggregatesMatch(companies, ledger)
    && StrayEntriesCarryNothing(ledger, nextCompanyId)
    && CompanyNamesUnique(companies)
  }

  class Db {
    var companies: map<int, Company>
    var nextCompanyId: int
    var products: map<int, Product>
    var nextProductId: int
    var ledger: seq<Entry>
    var customers: map<int, Customer>
    var nextCustomerId: int
    var employees: map<int, Employee>
    var nextEmployeeId: int
    var types: map<int, ProductType>
    var nextTypeId: int
    var schedules: map<int, Schedule>
    var nextScheduleId: int

    ghost predicate Valid()
      reads this
    {
      Trading() && Records()
    }

    /** The tables the cash-flow handlers write: companies, products and the ledger. */
    ghost predicate Trading()
      reads this`companies, this`nextCompanyId, this`products, this`nextProductId, this`ledger
    {
      TradingState(companies, nextCompanyId, products, nextProductId, ledger)
    }

    /** The other tables: customers, employees, types and schedules. */
    ghost predicate Records()
      reads this`customers, this`nextCustomerId, this`employees, this`nextEmployeeId
      reads this`types, this`nextTypeId, this`schedules, this`nextScheduleId
    {
      && nextCustomerId >= 1 && nextEmployeeId >= 1 && nextTypeId >= 1 && nextScheduleId >= 1
      && IdsBelow(customers, nextCustomerId)
      && IdsBelow(employees, nextEmployeeId)
      && IdsBelow(types, nextTypeId)
      && IdsBelow(schedules, nextScheduleId)
      && CustomerNamesUnique(customers)
      && TypeNamesUnique(types)
      && EmailsUnique(employees)
    }

    /** An empty database. */
    constructor ()
      ensures Valid()
      ensures companies == map[] && products == map[] && ledger == []
      ensures customers == map[] && employees == map[] && types == map[] && schedules == map[]
      ensures nextCompanyId == 1 && nextProductId == 1 && nextCustomerId == 1
      ensures nextEmployeeId == 1 && nextTypeId == 1 && nextScheduleId == 1
    {
      companies, products, ledger := map[], map[], [];
      customers, employees, types, schedules := map[], map[], map[], map[];
      nextCompanyId, nextProductId, nextCustomerId := 1, 1, 1;
      nextEmployeeId, nextTypeId, nextScheduleId := 1, 1, 1;
    }
  }

  /** The three aggregates of every company agree: they start at 0 and always move together. */
  lemma AggregatesAgree(db: Db, c: int)
    requires db.Valid() && c in db.companies
    ensures db.companies[c].dayValue == db.companies[c].monthValue == db.companies[c].anualValue
  {
  }

  /** Recording a confirmed entry, taking its quantity off the product and crediting its company. */
  lemma RecordKeepsTrading(
    companies: map<int, Company>, nc: int, products: map<int, Product>, np: int, ledger: seq<Entry>, e: Entry)
    requires TradingState(companies, nc, products, np, ledger)
    requires e.productId in products && e.companyId in companies && e.status == Confirmado
    ensures var p := products[e.productId];
            TradingState(companies[e.companyId := Credit(companies[e.companyId], e.amount)], nc,
                         products[e.productId := p.(amount := p.amount - e.quantity)], np, ledger + [e])
  {
    RecordKeepsAggregates(companies, ledger, e);
  }

  /** Recording an entry that carries no money, touching no product or company. */
  lemma RecordNothingKeepsTrading(
    companies: map<int, Company>, nc: int, products: map<int, Product>, np: int, ledger: seq<Entry>, e: Entry)
    requires TradingState(companies, nc, products, np, ledger)
    requires e.amount == 0
    ensures TradingState(companies, nc, products, np, ledger + [e])
  {
    RecordNothingKeepsAggregates(companies, ledger, e);
  }

  /** Cancelling a live entry, restocking and refunding it. */
  lemma CancelKeepsTrading(
    companies: map<int, Company>, nc: int, products: map<int, Product>, np: int, ledger: seq<Entry>, i: int)
    requires TradingState(companies, nc, products, np, ledger)
    requires 0 <= i < |ledger| && ledger[i].status != Cancelado
    ensures TradingState(Refunded(companies, ledger[i]), nc, Restocked(products, ledger[i]), np,
                         ledger[i := ledger[i].(status := Cancelado)])
  {
    CancelKeepsAggregates(companies, ledger, i);
    CancelKeepsStrays(ledger, nc, i);
    var r := Refunded(companies, ledger[i]);
    assert forall c :: c in r ==> c in companies && r[c].name == companies[c].name;
  }

  /** Opening a company under the next id, with zero aggregates and a name nobody holds. */
  lemma AddCompanyKeepsTrading(
    companies: map<int, Company>, nc: int, products: map<int, Product>, np: int, ledger: seq<Entry>, c: Company)
    requires TradingState(companies, nc, products, np, ledger)
    requires c.dayValue == 0 && c.monthValue == 0 && c.anualValue == 0
    requires forall id :: id in companies ==> companies[id].name != c.name
    ensures TradingState(companies[nc := c], nc + 1, products, np, ledger)
  {
    FreshCompanyHasNothing(ledger, nc, nc);
  }

  /** Removing a company. */
  lemma RemoveCompanyKeepsTrading(
    companies: map<int, Company>, nc: int, products: map<int, Product>, np: int, ledger: seq<Entry>, id: int)
    requires TradingState(companies, nc, products, np, ledger)
    ensures TradingState(companies - {id}, nc, products, np, ledger)
  {
  }

  /** Any change to the products table that keeps its ids below the counter. */
  lemma ProductsChangeKeepsTrading(
    companies: map<int, Company>, nc: int, products: map<int, Product>, np: int, ledger: seq<Entry>,
    products': map<int, Product>, np': int)
    requires TradingState(companies, nc, products, np, ledger)
    requires np' >= 1 && IdsBelow(products', np')
    ensures TradingState(companies, nc, products', np', ledger)
  {
  }
}
