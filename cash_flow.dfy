/**
 * The mutating handlers of the cash-flow controller: recording a transaction, recording a
 * sale, and cancelling an entry. Each one writes the ledger, the product's stock and the
 * company's three aggregates in one atomic step, and keeps `Db.Valid()` (the aggregates stay
 * equal to what the ledger put into them).
 */
module CashFlow {
  import opened Wrappers
  import opened Http
  import opened Text
  import opened Schema
  import opened Tables
  import opened Ledger
  import opened Store

  /** The guard chain of a sale: product found, company found, stock sufficient when tracked. */
  predicate CanRecord(products: map<int, Product>, companies: map<int, Company>, productId: int, companyId: int, quantity: int) {
    && productId in products
    && companyId in companies
    && !(products[productId].stockEnabled && products[productId].amount < quantity)
  }

  /** What a refused sale answers, in the order the controller checks. */
  function RecordRefusal(products: map<int, Product>, companies: map<int, Company>, productId: int, companyId: int, quantity: int): (r: Outcome<Keyed<Entry>>)
    requires !CanRecord(products, companies, productId, companyId, quantity)
    ensures r.Failure?
    ensures productId !in products ==> r == Failure(NOT_FOUND, ProductNotFound)
    ensures productId in products && companyId !in companies ==> r == Failure(NOT_FOUND, CompanyNotFound)
    ensures productId in products && companyId in companies ==>
              r == Failure(BAD_REQUEST, InsufficientStock(products[productId].amount, quantity))
  {
    if productId !in products then Failure(NOT_FOUND, ProductNotFound)
    else if companyId !in companies then Failure(NOT_FOUND, CompanyNotFound)
    else Failure(BAD_REQUEST, InsufficientStock(products[productId].amount, quantity))
  }

  /**
   * POST /cash-flow/transaction. On success: exactly one confirmed entry is appended, the
   * product's amount drops by `quantity` and each aggregate of the company rises by `amount`,
   * for either transaction type. Nothing checks that the product belongs to the company.
   */
  method CreateTransaction(
    db: Db, caller: Option<int>, productId: int, companyId: int, txType: TxType, amount: int,
    quantity: int, description: Option<string>, paymentMethod: PayMethod,
    customerName: Option<string>, customerDocument: Option<string>, now: int)
    returns (r: Outcome<Keyed<Entry>>)
    requires db.Valid()
    modifies db`ledger, db`products, db`companies
    ensures db.Valid()
    ensures caller.None? ==> r == Failure(UNAUTHORIZED, Unauthenticated)
    ensures caller.Some? && !CanRecord(old(db.products), old(db.companies), productId, companyId, quantity) ==>
              r == RecordRefusal(old(db.products), old(db.companies), productId, companyId, quantity)
    ensures r.Success? <==> caller.Some? && CanRecord(old(db.products), old(db.companies), productId, companyId, quantity)
    ensures r.Failure? ==>
              db.ledger == old(db.ledger) && db.products == old(db.products) && db.companies == old(db.companies)
    ensures r.Success? ==>
              var p := old(db.products)[productId];
              var e := Entry(productId, companyId, txType, amount, quantity, description, paymentMethod,
                             Confirmado, customerName, customerDocument, now);
              && r == Success(OK, Keyed(|old(db.ledger)| + 1, e))
              && db.ledger == old(db.ledger) + [e]
              && db.products == old(db.products)[productId := p.(amount := p.amount - quantity)]
              && db.companies == old(db.companies)[companyId := Credit(old(db.companies)[companyId], amount)]
              && (p.stockEnabled ==> db.products[productId].amount >= 0)
  {
    if caller.None? {
      return Failure(UNAUTHORIZED, Unauthenticated);
    }
    if !CanRecord(db.products, db.companies, productId, companyId, quantity) {
      return RecordRefusal(db.products, db.companies, productId, companyId, quantity);
    }
    var product := db.products[productId];
    var company := db.companies[companyId];
    var entry := Entry(productId, companyId, txType, amount, quantity, description, paymentMethod,
                       Confirmado, customerName, customerDocument, now);
    RecordKeepsTrading(db.companies, db.nextCompanyId, db.products, db.nextProductId, db.ledger, entry);
    db.ledger := db.ledger + [entry];
    product := product.(amount := product.amount - quantity);
    db.products := db.products[productId := product];
    company := company.(dayValue := company.dayValue + amount);
    company := company.(monthValue := company.monthValue + amount);
    company := company.(anualValue := company.anualValue + amount);
    db.companies := db.companies[companyId := company];
    r := Success(OK, Keyed(|db.ledger|, entry));
  }

  /** The description a sale gets: the one given, or "Venda de <product name>" when falsy. */
  function SaleDescription(description: Option<string>, product: Product): string {
    OrElse(description, "Venda de " + product.name)
  }

  /** What POST /cash-flow/entry answers: the recorded entry and the product's new stock. */
  datatype Sale = Sale(entry: Keyed<Entry>, newStock: int)

  /**
   * POST /cash-flow/entry: CreateTransaction with the type fixed to entrada, quantity 1 and
   * payment method dinheiro when absent, and a generated description when falsy.
   */
  method CashEntry(
    db: Db, caller: Option<int>, productId: int, companyId: int, amount: int,
    quantity: Option<int>, description: Option<string>, paymentMethod: Option<PayMethod>,
    customerName: Option<string>, customerDocument: Option<string>, now: int)
    returns (r: Outcome<Sale>)
    requires db.Valid()
    modifies db`ledger, db`products, db`companies
    ensures db.Valid()
    ensures caller.None? ==> r == Failure(UNAUTHORIZED, Unauthenticated)
    ensures caller.Some? && !CanRecord(old(db.products), old(db.companies), productId, companyId, quantity.GetOr(1)) ==>
              r.Failure? && r.reason == RecordRefusal(old(db.products), old(db.companies), productId, companyId, quantity.GetOr(1)).reason
              && r.status == RecordRefusal(old(db.products), old(db.companies), productId, companyId, quantity.GetOr(1)).status
    ensures r.Success? <==> caller.Some? && CanRecord(old(db.products), old(db.companies), productId, companyId, quantity.GetOr(1))
    ensures r.Failure? ==>
              db.ledger == old(db.ledger) && db.products == old(db.products) && db.companies == old(db.companies)
    ensures r.Success? ==>
              var q := quantity.GetOr(1);
              var p := old(db.products)[productId];
              var e := Entry(productId, companyId, Entrada, amount, q, Some(SaleDescription(description, p)),
                             paymentMethod.GetOr(Dinheiro), Confirmado, customerName, customerDocument, now);
              && r == Success(OK, Sale(Keyed(|old(db.ledger)| + 1, e), p.amount - q))
              && db.ledger == old(db.ledger) + [e]
              && db.products == old(db.products)[productId := p.(amount := p.amount - q)]
              && db.companies == old(db.companies)[companyId := Credit(old(db.companies)[companyId], amount)]
              && r.value.newStock == db.products[productId].amount
  {
    if caller.None? {
      return Failure(UNAUTHORIZED, Unauthenticated);
    }
    var q := quantity.GetOr(1);
    var desc := "";
    if productId in db.products {
      desc := SaleDescription(description, db.products[productId]);
    }
    var recorded := CreateTransaction(db, caller, productId, companyId, Entrada, amount, q, Some(desc),
                                      paymentMethod.GetOr(Dinheiro), customerName, customerDocument, now);
    if recorded.Failure? {
      return Failure(recorded.status, recorded.reason);
    }
    r := Success(OK, Sale(recorded.value, db.products[productId].amount));
  }

  /**
   * PUT /cash-flow/transaction/:id/cancel. A missing entry is 404 and a cancelled one 400,
   * both without any write. Otherwise the entry becomes cancelado; for an entrada its quantity
   * goes back to the product (if the product still exists) and its amount comes off the
   * company's three aggregates (if the company still exists). A saida only changes status.
   */
  method CancelTransaction(db: Db, caller: Option<int>, id: int) returns (r: Outcome<Keyed<Entry>>)
    requires db.Valid()
    modifies db`ledger, db`products, db`companies
    ensures db.Valid()
    ensures caller.None? ==> r == Failure(UNAUTHORIZED, Unauthenticated)
    ensures caller.Some? && !(1 <= id <= |old(db.ledger)|) ==> r == Failure(NOT_FOUND, EntryNotFound)
    ensures caller.Some? && 1 <= id <= |old(db.ledger)| && old(db.ledger)[id - 1].status == Cancelado ==>
              r == Failure(BAD_REQUEST, AlreadyCancelled)
    ensures r.Success? <==> caller.Some? && 1 <= id <= |old(db.ledger)| && old(db.ledger)[id - 1].status != Cancelado
    ensures r.Failure? ==>
              db.ledger == old(db.ledger) && db.products == old(db.products) && db.companies == old(db.companies)
    ensures r.Success? ==>
              var e := old(db.ledger)[id - 1];
              && r == Success(OK, Keyed(id, e.(status := Cancelado)))
              && db.ledger == old(db.ledger)[id - 1 := e.(status := Cancelado)]
              && db.products == Restocked(old(db.products), e)
              && db.companies == Refunded(old(db.companies), e)
  {
    if caller.None? {
      return Failure(UNAUTHORIZED, Unauthenticated);
    }
    if !(1 <= id <= |db.ledger|) {
      return Failure(NOT_FOUND, EntryNotFound);
    }
    var entry := db.ledger[id - 1];
    if entry.status == Cancelado {
      return Failure(BAD_REQUEST, AlreadyCancelled);
    }
    CancelKeepsTrading(db.companies, db.nextCompanyId, db.products, db.nextProductId, db.ledger, id - 1);
    if entry.productId in db.products && entry.txType == Entrada {
      var product := db.products[entry.productId];
      product := product.(amount := product.amount + entry.quantity);
      db.products := db.products[entry.productId := product];
    }
    if entry.companyId in db.companies && entry.txType == Entrada {
      var company := db.companies[entry.companyId];
      company := company.(dayValue := company.dayValue - entry.amount);
      company := company.(monthValue := company.monthValue - entry.amount);
      company := company.(anualValue := company.anualValue - entry.amount);
      db.companies := db.companies[entry.companyId := company];
    }
    assert db.products == Restocked(old(db.products), entry);
    assert db.companies == Refunded(old(db.companies), entry);
    var cancelled := entry.(status := Cancelado);
    db.ledger := db.ledger[id - 1 := cancelled];
    r := Success(OK, Keyed(id, cancelled));
  }

  /**
   * A sale followed by the cancellation of the entry it recorded gives back the stock and the
   * aggregates: products and companies are as before, and the ledger keeps the entry, cancelled.
   */
  method SellThenCancel(db: Db, caller: Option<int>, productId: int, companyId: int, amount: int, quantity: int, now: int)
    returns (sold: Outcome<Keyed<Entry>>, cancelled: Outcome<Keyed<Entry>>)
    requires db.Valid()
    modifies db`ledger, db`products, db`companies
    ensures db.Valid()
    ensures sold.Success? <==> caller.Some? && CanRecord(old(db.products), old(db.companies), productId, companyId, quantity)
    ensures sold.Success? ==> cancelled.Success?
    ensures sold.Success? ==>
              && db.products == old(db.products)
              && db.companies == old(db.companies)
              && |db.ledger| == |old(db.ledger)| + 1
              && db.ledger[..|old(db.ledger)|] == old(db.ledger)
              && db.ledger[|old(db.ledger)|] == sold.value.val.(status := Cancelado)
  {
    sold := CreateTransaction(db, caller, productId, companyId, Entrada, amount, quantity, None, Dinheiro, None, None, now);
    if sold.Failure? {
      cancelled := sold;
      return;
    }
    cancelled := CancelTransaction(db, caller, sold.value.id);
  }

  /**
   * Cancelling the same entry twice: the second call is refused with 400 and writes nothing, so
   * an entry is never refunded twice.
   */
  method CancelTwice(db: Db, caller: Option<int>, id: int) returns (first: Outcome<Keyed<Entry>>, second: Outcome<Keyed<Entry>>)
    requires db.Valid()
    modifies db`ledger, db`products, db`companies
    ensures db.Valid()
    ensures first.Success? <==> caller.Some? && 1 <= id <= |old(db.ledger)| && old(db.ledger)[id - 1].status != Cancelado
    ensures first.Success? ==> second == Failure(BAD_REQUEST, AlreadyCancelled)
    ensures first.Failure? ==> second == first
    ensures first.Success? ==>
              var e := old(db.ledger)[id - 1];
              && db.ledger == old(db.ledger)[id - 1 := e.(status := Cancelado)]
              && db.products == Restocked(old(db.products), e)
              && db.companies == Refunded(old(db.companies), e)
    ensures first.Failure? ==>
              db.ledger == old(db.ledger) && db.products == old(db.products) && db.companies == old(db.companies)
  {
    first := CancelTransaction(db, caller, id);
    second := CancelTransaction(db, caller, id);
  }
}
