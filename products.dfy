/**
 * The products controller: products belong to a company of the caller; names are unique within
 * a company when created, but an update may take any name. Reads, updates and deletes by id
 * check that the product's company is the caller's.
 */
module Products {
  import opened Wrappers
  import opened Http
  import opened Text
  import opened Schema
  import opened Tables
  import opened Ledger
  import opened Store

  /** A product of company `companyId` already has this name. */
  predicate ProductNameHeld(products: map<int, Product>, companyId: int, name: string) {
    exists id | id in products :: products[id].companyId == companyId && products[id].name == name
  }

  /** The row createProduct saves: every optional field falls back to zero, false or the empty string. */
  function NewProduct(
    name: string, kind: Option<string>, amount: Option<int>, minAmount: Option<int>, stockEnabled: Option<bool>,
    valueCoast: Option<int>, supplier: Option<string>, internalCod: Option<string>, barcode: Option<string>,
    observation: Option<string>, companyId: int): Product
  {
    Product(name, kind, OrElseInt(amount, 0), OrElseInt(minAmount, 0), stockEnabled.GetOr(false),
            OrElseInt(valueCoast, 0), OrElse(supplier, ""), OrElse(internalCod, ""), OrElse(barcode, ""),
            OrElse(observation, ""), companyId)
  }

  /** With nothing given, a new product is empty: no stock, no tracking, blank texts. */
  lemma NewProductDefaults(name: string, companyId: int)
    ensures NewProduct(name, None, None, None, None, None, None, None, None, None, companyId)
         == Product(name, None, 0, 0, false, 0, "", "", "", "", companyId)
  {
  }

  /**
   * POST /products. 403 unless the caller owns the company, then 403 when the company already
   * has a product of that name; otherwise the product is saved under the next id. Per-company
   * name uniqueness, where it held, still holds.
   */
  method CreateProduct(
    db: Db, caller: Option<int>, companyId: int, name: string, kind: Option<string>, amount: Option<int>,
    minAmount: Option<int>, stockEnabled: Option<bool>, valueCoast: Option<int>, supplier: Option<string>,
    internalCod: Option<string>, barcode: Option<string>, observation: Option<string>)
    returns (r: Outcome<Keyed<Product>>)
    requires db.Valid()
    modifies db`products, db`nextProductId
    ensures db.Valid()
    ensures caller.None? ==> r == Failure(UNAUTHORIZED, Unauthenticated)
    ensures caller.Some? && !Owns(old(db.companies), caller.value, companyId) ==> r == Failure(FORBIDDEN, NotOwner)
    ensures caller.Some? && Owns(old(db.companies), caller.value, companyId) && ProductNameHeld(old(db.products), companyId, name) ==>
              r == Failure(FORBIDDEN, NameTaken)
    ensures r.Success? <==>
              caller.Some? && Owns(old(db.companies), caller.value, companyId) && !ProductNameHeld(old(db.products), companyId, name)
    ensures r.Failure? ==> db.products == old(db.products) && db.nextProductId == old(db.nextProductId)
    ensures r.Success? ==>
              var p := NewProduct(name, kind, amount, minAmount, stockEnabled, valueCoast, supplier, internalCod,
                                  barcode, observation, companyId);
              && r == Success(OK, Keyed(old(db.nextProductId), p))
              && db.products == old(db.products)[old(db.nextProductId) := p]
              && db.nextProductId == old(db.nextProductId) + 1
    ensures ProductNamesUnique(old(db.products)) ==> ProductNamesUnique(db.products)
  {
    if caller.None? {
      return Failure(UNAUTHORIZED, Unauthenticated);
    }
    if !Owns(db.companies, caller.value, companyId) {
      return Failure(FORBIDDEN, NotOwner);
    }
    if ProductNameHeld(db.products, companyId, name) {
      return Failure(FORBIDDEN, NameTaken);
    }
    var product := NewProduct(name, kind, amount, minAmount, stockEnabled, valueCoast, supplier, internalCod,
                              barcode, observation, companyId);
    var id := db.nextProductId;
    ProductsChangeKeepsTrading(db.companies, db.nextCompanyId, db.products, id, db.ledger, db.products[id := product], id + 1);
    db.products := db.products[id := product];
    db.nextProductId := id + 1;
    r := Success(OK, Keyed(id, product));
  }

  /** GET /products/company/:id: 400 without an id, 403 unless the caller owns the company, then its products. */
  function GetAllProduct(
    products: map<int, Product>, next: int, companies: map<int, Company>, caller: Option<int>, companyId: Option<int>)
    : (r: Outcome<seq<Keyed<Product>>>)
    requires IdsBelow(products, next)
    ensures caller.None? ==> r == Failure(UNAUTHORIZED, Unauthenticated)
    ensures caller.Some? && companyId.None? ==> r == Failure(BAD_REQUEST, IdRequired)
    ensures caller.Some? && companyId.Some? && !Owns(companies, caller.value, companyId.value) ==> r == Failure(FORBIDDEN, NotOwner)
    ensures r.Success? <==> caller.Some? && companyId.Some? && Owns(companies, caller.value, companyId.value)
    ensures r.Success? ==>
              && r.status == OK
              && (forall k :: k in r.value <==> k.id in products && products[k.id] == k.val && k.val.companyId == companyId.value)
              && (forall i, j :: 0 <= i < j < |r.value| ==> r.value[i].id < r.value[j].id)
  {
    if caller.None? then Failure(UNAUTHORIZED, Unauthenticated)
    else if companyId.None? then Failure(BAD_REQUEST, IdRequired)
    else if !Owns(companies, caller.value, companyId.value) then Failure(FORBIDDEN, NotOwner)
    else Success(OK, Select(products, next, (k: Keyed<Product>) => k.val.companyId == companyId.value))
  }

  /**
   * The guards of the by-id handlers, in order: id given (400), product found (404), its
   * company the caller's (403). None when all pass.
   */
  function ProductRefusal(products: map<int, Product>, companies: map<int, Company>, caller: int, id: Option<int>)
    : (r: Option<(int, Reason)>)
    ensures r.None? <==> id.Some? && id.value in products && Owns(companies, caller, products[id.value].companyId)
    ensures id.None? ==> r == Some((BAD_REQUEST, IdRequired))
    ensures id.Some? && id.value !in products ==> r == Some((NOT_FOUND, ProductNotFound))
    ensures id.Some? && id.value in products && !Owns(companies, caller, products[id.value].companyId) ==>
              r == Some((FORBIDDEN, NotOwner))
  {
    if id.None? then Some((BAD_REQUEST, IdRequired))
    else if id.value !in products then Some((NOT_FOUND, ProductNotFound))
    else if !Owns(companies, caller, products[id.value].companyId) then Some((FORBIDDEN, NotOwner))
    else None
  }

  /** GET /products/:id: the product, once the guards pass. */
  function GetProductById(products: map<int, Product>, companies: map<int, Company>, caller: Option<int>, id: Option<int>)
    : (r: Outcome<Keyed<Product>>)
    ensures caller.None? ==> r == Failure(UNAUTHORIZED, Unauthenticated)
    ensures caller.Some? && ProductRefusal(products, companies, caller.value, id).Some? ==>
              var (status, reason) := ProductRefusal(products, companies, caller.value, id).value;
              r == Failure(status, reason)
    ensures r.Success? <==> caller.Some? && ProductRefusal(products, companies, caller.value, id).None?
    ensures r.Success? ==> r.status == OK && r.value.id == id.value && products[id.value] == r.value.val
  {
    if caller.None? then Failure(UNAUTHORIZED, Unauthenticated)
    else
      var refusal := ProductRefusal(products, companies, caller.value, id);
      if refusal.Some? then Failure(refusal.value.0, refusal.value.1)
      else Success(OK, Keyed(id.value, products[id.value]))
  }

  /**
   * The fields an update may carry; an absent one keeps the stored value. `kind` may be set to
   * null, so it is doubly optional.
   */
  datatype ProductPatch = ProductPatch(
    name: Option<string>,
    kind: Option<Option<string>>,
    amount: Option<int>,
    minAmount: Option<int>,
    stockEnabled: Option<bool>,
    valueCoast: Option<int>,
    supplier: Option<string>,
    internalCod: Option<string>,
    barcode: Option<string>,
    observation: Option<string>)

  /** Each given field replaces the stored one; the company never changes. */
  function ApplyProductPatch(p: Product, patch: ProductPatch): (r: Product)
    ensures r.companyId == p.companyId
    ensures r.name == patch.name.GetOr(p.name) && r.kind == patch.kind.GetOr(p.kind)
    ensures r.amount == patch.amount.GetOr(p.amount) && r.minAmount == patch.minAmount.GetOr(p.minAmount)
    ensures r.stockEnabled == patch.stockEnabled.GetOr(p.stockEnabled)
    ensures r.valueCoast == patch.valueCoast.GetOr(p.valueCoast)
    ensures r.supplier == patch.supplier.GetOr(p.supplier) && r.internalCod == patch.internalCod.GetOr(p.internalCod)
    ensures r.barcode == patch.barcode.GetOr(p.barcode) && r.observation == patch.observation.GetOr(p.observation)
  {
    p.(name := patch.name.GetOr(p.name),
       kind := patch.kind.GetOr(p.kind),
       amount := patch.amount.GetOr(p.amount),
       minAmount := patch.minAmount.GetOr(p.minAmount),
       stockEnabled := patch.stockEnabled.GetOr(p.stockEnabled),
       valueCoast := patch.valueCoast.GetOr(p.valueCoast),
       supplier := patch.supplier.GetOr(p.supplier),
       internalCod := patch.internalCod.GetOr(p.internalCod),
       barcode := patch.barcode.GetOr(p.barcode),
       observation := patch.observation.GetOr(p.observation))
  }

  /** An empty patch changes nothing. */
  lemma EmptyPatchIsIdentity(p: Product)
    ensures ApplyProductPatch(p, ProductPatch(None, None, None, None, None, None, None, None, None, None)) == p
  {
  }

  /** Applying the same patch twice is applying it once. */
  lemma PatchIdempotent(p: Product, patch: ProductPatch)
    ensures ApplyProductPatch(ApplyProductPatch(p, patch), patch) == ApplyProductPatch(p, patch)
  {
  }

  /**
   * Update does not check names: renaming a product to the name of another product of the same
   * company yields two products with one name.
   */
  lemma UpdateCanDuplicateName(p: Product, q: Product)
    requires p.companyId == q.companyId && p.name != q.name
    ensures var patch := ProductPatch(Some(q.name), None, None, None, None, None, None, None, None, None);
            ProductNamesUnique(map[1 := p, 2 := q])
            && !ProductNamesUnique(map[1 := ApplyProductPatch(p, patch), 2 := q])
  {
    var patch := ProductPatch(Some(q.name), None, None, None, None, None, None, None, None, None);
    var m := map[1 := ApplyProductPatch(p, patch), 2 := q];
    assert m[1].name == m[2].name && m[1].companyId == m[2].companyId;
  }

  /**
   * PUT /products/:id: after the guards, each field of the request replaces the stored one,
   * one assignment at a time; nothing else changes.
   */
  method UpdateProduct(db: Db, caller: Option<int>, id: Option<int>, patch: ProductPatch) returns (r: Outcome<Keyed<Product>>)
    requires db.Valid()
    modifies db`products
    ensures db.Valid()
    ensures caller.None? ==> r == Failure(UNAUTHORIZED, Unauthenticated)
    ensures caller.Some? && ProductRefusal(old(db.products), db.companies, caller.value, id).Some? ==>
              var (status, reason) := ProductRefusal(old(db.products), db.companies, caller.value, id).value;
              r == Failure(status, reason)
    ensures r.Success? <==> caller.Some? && ProductRefusal(old(db.products), db.companies, caller.value, id).None?
    ensures r.Failure? ==> db.products == old(db.products)
    ensures r.Success? ==>
              var p := ApplyProductPatch(old(db.products)[id.value], patch);
              && r == Success(OK, Keyed(id.value, p))
              && db.products == old(db.products)[id.value := p]
  {
    if caller.None? {
      return Failure(UNAUTHORIZED, Unauthenticated);
    }
    var refusal := ProductRefusal(db.products, db.companies, caller.value, id);
    if refusal.Some? {
      return Failure(refusal.value.0, refusal.value.1);
    }
    var product := db.products[id.value];
    product := product.(name := patch.name.GetOr(product.name));
    product := product.(kind := patch.kind.GetOr(product.kind));
    product := product.(amount := patch.amount.GetOr(product.amount));
    product := product.(minAmount := patch.minAmount.GetOr(product.minAmount));
    product := product.(stockEnabled := patch.stockEnabled.GetOr(product.stockEnabled));
    product := product.(valueCoast := patch.valueCoast.GetOr(product.valueCoast));
    product := product.(supplier := patch.supplier.GetOr(product.supplier));
    product := product.(internalCod := patch.internalCod.GetOr(product.internalCod));
    product := product.(barcode := patch.barcode.GetOr(product.barcode));
    product := product.(observation := patch.observation.GetOr(product.observation));
    ProductsChangeKeepsTrading(db.companies, db.nextCompanyId, db.products, db.nextProductId, db.ledger,
                               db.products[id.value := product], db.nextProductId);
    db.products := db.products[id.value := product];
    r := Success(OK, Keyed(id.value, product));
  }

  /** DELETE /products/:id: after the guards, exactly that product is removed. */
  method DeleteProduct(db: Db, caller: Option<int>, id: Option<int>) returns (r: Outcome<()>)
    requires db.Valid()
    modifies db`products
    ensures db.Valid()
    ensures caller.None? ==> r == Failure(UNAUTHORIZED, Unauthenticated)
    ensures caller.Some? && ProductRefusal(old(db.products), db.companies, caller.value, id).Some? ==>
              var (status, reason) := ProductRefusal(old(db.products), db.companies, caller.value, id).value;
              r == Failure(status, reason)
    ensures r.Success? <==> caller.Some? && ProductRefusal(old(db.products), db.companies, caller.value, id).None?
    ensures r.Failure? ==> db.products == old(db.products)
    ensures r.Success? ==> r == Success(OK, ()) && db.products == old(db.products) - {id.value}
  {
    if caller.None? {
      return Failure(UNAUTHORIZED, Unauthenticated);
    }
    var refusal := ProductRefusal(db.products, db.companies, caller.value, id);
    if refusal.Some? {
      return Failure(refusal.value.0, refusal.value.1);
    }
    ProductsChangeKeepsTrading(db.companies, db.nextCompanyId, db.products, db.nextProductId, db.ledger,
                               db.products - {id.value}, db.nextProductId);
    db.products := db.products - {id.value};
    r := Success(OK, ());
  }

  /** What POST /products/transitions answers: the product and the company looked up, if found. */
  datatype Lookup = Lookup(product: Option<Product>, company: Option<Company>)

  /**
   * POST /products/transitions: appends an entry that sets only the product and the company;
   * every other column takes its default (entrada, amount 0, quantity 1, dinheiro, confirmado).
   * Stock and aggregates are untouched, which the ledger agrees with since the entry carries
   * no money. Neither id is checked.
   */
  method TransitiosBuySell(db: Db, caller: Option<int>, productId: int, companyId: int, now: int) returns (r: Outcome<Lookup>)
    requires db.Valid()
    modifies db`ledger
    ensures db.Valid()
    ensures r.Failure? <==> caller.None?
    ensures caller.None? ==> r == Failure(UNAUTHORIZED, Unauthenticated) && db.ledger == old(db.ledger)
    ensures r.Success? ==>
              && db.ledger == old(db.ledger) + [Entry(productId, companyId, Entrada, 0, 1, None, Dinheiro, Confirmado, None, None, now)]
              && r.status == OK
              && (r.value.product.Some? <==> productId in db.products)
              && (r.value.product.Some? ==> r.value.product.value == db.products[productId])
              && (r.value.company.Some? <==> companyId in db.companies)
              && (r.value.company.Some? ==> r.value.company.value == db.companies[companyId])
  {
    if caller.None? {
      return Failure(UNAUTHORIZED, Unauthenticated);
    }
    var product := if productId in db.products then Some(db.products[productId]) else None;
    var company := if companyId in db.companies then Some(db.companies[companyId]) else None;
    var entry := Entry(productId, companyId, Entrada, 0, 1, None, Dinheiro, Confirmado, None, None, now);
    RecordNothingKeepsTrading(db.companies, db.nextCompanyId, db.products, db.nextProductId, db.ledger, entry);
    db.ledger := db.ledger + [entry];
    r := Success(OK, Lookup(product, company));
  }
}
