/**
 * The customers controller: every handler requires an authenticated caller, but none checks
 * which company the customer belongs to. Names are unique within a company, both on create
 * and on rename. Listings are ordered by name.
 */
module Customers {
  import opened Wrappers
  import opened Http
  import opened Text
  import opened Sorting
  import opened Tables
  import opened Schema
  import opened Store

  /** `ORDER BY name ASC`. */
  predicate ByName(a: Keyed<Customer>, b: Keyed<Customer>) {
    StrLe(a.val.name, b.val.name)
  }

  lemma {:induction false} ByNameTotalPreorder()
    ensures TotalPreorder(ByName)
  {
    forall a: Keyed<Customer>, b: Keyed<Customer> ensures ByName(a, b) || ByName(b, a) {
      StrLeTotal(a.val.name, b.val.name);
    }
    forall a: Keyed<Customer>, b: Keyed<Customer>, c: Keyed<Customer> | ByName(a, b) && ByName(b, c)
      ensures ByName(a, c)
    {
      StrLeTransitive(a.val.name, b.val.name, c.val.name);
    }
  }

  /** GET /customers: every customer of every company, by name. */
  function Index(customers: map<int, Customer>, next: int, caller: Option<int>): (r: Outcome<seq<Keyed<Customer>>>)
    requires IdsBelow(customers, next)
    ensures r.Failure? <==> caller.None?
    ensures caller.None? ==> r == Failure(UNAUTHORIZED, Unauthenticated)
    ensures r.Success? ==>
              && r.status == OK
              && (forall k :: k in r.value <==> k.id in customers && customers[k.id] == k.val)
              && NoDup(r.value)
              && SortedBy(r.value, ByName)
  {
    if caller.None? then Failure(UNAUTHORIZED, Unauthenticated)
    else
      ByNameTotalPreorder();
      Success(OK, Query(customers, next, (k: Keyed<Customer>) => true, ByName))
  }

  /** GET /customers/company/:companyId: the company's customers, by name. */
  function GetByCompany(customers: map<int, Customer>, next: int, caller: Option<int>, companyId: Option<int>)
    : (r: Outcome<seq<Keyed<Customer>>>)
    requires IdsBelow(customers, next)
    ensures caller.None? ==> r == Failure(UNAUTHORIZED, Unauthenticated)
    ensures caller.Some? && companyId.None? ==> r == Failure(BAD_REQUEST, IdRequired)
    ensures r.Success? <==> caller.Some? && companyId.Some?
    ensures r.Success? ==>
              && r.status == OK
              && (forall k :: k in r.value <==> k.id in customers && customers[k.id] == k.val && k.val.companyId == companyId.value)
              && NoDup(r.value)
              && SortedBy(r.value, ByName)
  {
    if caller.None? then Failure(UNAUTHORIZED, Unauthenticated)
    else if companyId.None? then Failure(BAD_REQUEST, IdRequired)
    else
      ByNameTotalPreorder();
      Success(OK, Query(customers, next, (k: Keyed<Customer>) => k.val.companyId == companyId.value, ByName))
  }

  /** The guards of the by-id handlers: id given (400), customer found (404). */
  function CustomerRefusal(customers: map<int, Customer>, id: Option<int>): (r: Option<(int, Reason)>)
    ensures r.None? <==> id.Some? && id.value in customers
    ensures id.None? ==> r == Some((BAD_REQUEST, IdRequired))
    ensures id.Some? && id.value !in customers ==> r == Some((NOT_FOUND, RecordNotFound))
  {
    if id.None? then Some((BAD_REQUEST, IdRequired))
    else if id.value !in customers then Some((NOT_FOUND, RecordNotFound))
    else None
  }

  /** GET /customers/:id. */
  function Show(customers: map<int, Customer>, caller: Option<int>, id: Option<int>): (r: Outcome<Keyed<Customer>>)
    ensures caller.None? ==> r == Failure(UNAUTHORIZED, Unauthenticated)
    ensures caller.Some? && CustomerRefusal(customers, id).Some? ==>
              r == Failure(CustomerRefusal(customers, id).value.0, CustomerRefusal(customers, id).value.1)
    ensures r.Success? <==> caller.Some? && id.Some? && id.value in customers
    ensures r.Success? ==> r == Success(OK, Keyed(id.value, customers[id.value]))
  {
    if caller.None? then Failure(UNAUTHORIZED, Unauthenticated)
    else
      var refusal := CustomerRefusal(customers, id);
      if refusal.Some? then Failure(refusal.value.0, refusal.value.1)
      else Success(OK, Keyed(id.value, customers[id.value]))
  }

  /** A customer other than `except` in company `companyId` is called `name`. */
  predicate CustomerNameHeld(customers: map<int, Customer>, companyId: int, name: string, except: int) {
    exists id | id in customers :: id != except && customers[id].companyId == companyId && customers[id].name == name
  }

  /**
   * POST /customers: 400 unless both a name and a company are given, 409 when the company has
   * a customer of that name; otherwise 201 and the customer under the next id, with the empty
   * contact fields stored as NULL.
   */
  method CreateCustomer(
    db: Db, caller: Option<int>, name: Option<string>, email: Option<string>, phone: Option<string>,
    address: Option<string>, companyId: Option<int>)
    returns (r: Outcome<Keyed<Customer>>)
    requires db.Valid()
    modifies db`customers, db`nextCustomerId
    ensures db.Valid()
    ensures caller.None? ==> r == Failure(UNAUTHORIZED, Unauthenticated)
    ensures caller.Some? && !(Truthy(name) && TruthyInt(companyId)) ==> r == Failure(BAD_REQUEST, FieldsRequired)
    ensures caller.Some? && Truthy(name) && TruthyInt(companyId) && CustomerNameHeld(old(db.customers), companyId.value, name.value, 0) ==>
              r == Failure(CONFLICT, NameTaken)
    ensures r.Success? <==>
              caller.Some? && Truthy(name) && TruthyInt(companyId) && !CustomerNameHeld(old(db.customers), companyId.value, name.value, 0)
    ensures r.Failure? ==> db.customers == old(db.customers) && db.nextCustomerId == old(db.nextCustomerId)
    ensures r.Success? ==>
              var c := Customer(name.value, OrNull(email), OrNull(phone), OrNull(address), companyId.value);
              && r == Success(CREATED, Keyed(old(db.nextCustomerId), c))
              && db.customers == old(db.customers)[old(db.nextCustomerId) := c]
              && db.nextCustomerId == old(db.nextCustomerId) + 1
  {
    if caller.None? {
      return Failure(UNAUTHORIZED, Unauthenticated);
    }
    if !Truthy(name) || !TruthyInt(companyId) {
      return Failure(BAD_REQUEST, FieldsRequired);
    }
    if CustomerNameHeld(db.customers, companyId.value, name.value, 0) {
      return Failure(CONFLICT, NameTaken);
    }
    var customer := Customer(name.value, OrNull(email), OrNull(phone), OrNull(address), companyId.value);
    var id := db.nextCustomerId;
    db.customers := db.customers[id := customer];
    db.nextCustomerId := id + 1;
    r := Success(CREATED, Keyed(id, customer));
  }

  /**
   * The fields of an update. `name` is applied only when truthy; each contact field, when
   * present at all, replaces the stored one, an empty value or null clearing it.
   */
  datatype CustomerPatch = CustomerPatch(
    name: Option<string>,
    email: Option<Option<string>>,
    phone: Option<Option<string>>,
    address: Option<Option<string>>)

  /** A contact field after the update: kept when absent, otherwise the new value or NULL. */
  function ContactAfter(old_: Option<string>, given: Option<Option<string>>): (r: Option<string>)
    ensures given.None? ==> r == old_
    ensures given.Some? ==> (r.Some? <==> Truthy(given.value)) && (r.Some? ==> r == given.value)
  {
    if given.Some? then OrNull(given.value) else old_
  }

  /** The customer as the update leaves it (when the name passed its check). */
  function PatchCustomer(c: Customer, p: CustomerPatch): (r: Customer)
    ensures r.companyId == c.companyId
    ensures r.name == (if Truthy(p.name) then p.name.value else c.name)
    ensures r.email == ContactAfter(c.email, p.email)
    ensures r.phone == ContactAfter(c.phone, p.phone)
    ensures r.address == ContactAfter(c.address, p.address)
  {
    Customer(if Truthy(p.name) then p.name.value else c.name,
             ContactAfter(c.email, p.email), ContactAfter(c.phone, p.phone), ContactAfter(c.address, p.address),
             c.companyId)
  }

  /** Applying the same update twice is applying it once. */
  lemma PatchCustomerIdempotent(c: Customer, p: CustomerPatch)
    ensures PatchCustomer(PatchCustomer(c, p), p) == PatchCustomer(c, p)
  {
  }

  /** A patch that carries nothing leaves the customer as it was; an empty name is ignored. */
  lemma EmptyCustomerPatch(c: Customer, name: Option<string>)
    requires !Truthy(name)
    ensures PatchCustomer(c, CustomerPatch(name, None, None, None)) == c
  {
  }

  /**
   * PUT /customers/:id: after the guards, a truthy name is refused with 409 when another
   * customer of the same company holds it; otherwise the fields are applied in turn.
   */
  method UpdateCustomer(db: Db, caller: Option<int>, id: Option<int>, patch: CustomerPatch) returns (r: Outcome<Keyed<Customer>>)
    requires db.Valid()
    modifies db`customers
    ensures db.Valid()
    ensures caller.None? ==> r == Failure(UNAUTHORIZED, Unauthenticated)
    ensures caller.Some? && CustomerRefusal(old(db.customers), id).Some? ==>
              r == Failure(CustomerRefusal(old(db.customers), id).value.0, CustomerRefusal(old(db.customers), id).value.1)
    ensures caller.Some? && CustomerRefusal(old(db.customers), id).None? && Truthy(patch.name) &&
            CustomerNameHeld(old(db.customers), old(db.customers)[id.value].companyId, patch.name.value, id.value) ==>
              r == Failure(CONFLICT, NameTaken)
    ensures r.Success? <==>
              && caller.Some? && CustomerRefusal(old(db.customers), id).None?
              && !(Truthy(patch.name) &&
                   CustomerNameHeld(old(db.customers), old(db.customers)[id.value].companyId, patch.name.value, id.value))
    ensures r.Failure? ==> db.customers == old(db.customers)
    ensures r.Success? ==>
              var c := PatchCustomer(old(db.customers)[id.value], patch);
              && r == Success(OK, Keyed(id.value, c))
              && db.customers == old(db.customers)[id.value := c]
  {
    if caller.None? {
      return Failure(UNAUTHORIZED, Unauthenticated);
    }
    var refusal := CustomerRefusal(db.customers, id);
    if refusal.Some? {
      return Failure(refusal.value.0, refusal.value.1);
    }
    var customer := db.customers[id.value];
    if Truthy(patch.name) {
      if CustomerNameHeld(db.customers, customer.companyId, patch.name.value, id.value) {
        return Failure(CONFLICT, NameTaken);
      }
      customer := customer.(name := patch.name.value);
    }
    if patch.email.Some? {
      customer := customer.(email := OrNull(patch.email.value));
    }
    if patch.phone.Some? {
      customer := customer.(phone := OrNull(patch.phone.value));
    }
    if patch.address.Some? {
      customer := customer.(address := OrNull(patch.address.value));
    }
    db.customers := db.customers[id.value := customer];
    r := Success(OK, Keyed(id.value, customer));
  }

  /** DELETE /customers/:id: after the guards, exactly that customer is removed. */
  method DeleteCustomer(db: Db, caller: Option<int>, id: Option<int>) returns (r: Outcome<()>)
    requires db.Valid()
    modifies db`customers
    ensures db.Valid()
    ensures caller.None? ==> r == Failure(UNAUTHORIZED, Unauthenticated)
    ensures caller.Some? && CustomerRefusal(old(db.customers), id).Some? ==>
              r == Failure(CustomerRefusal(old(db.customers), id).value.0, CustomerRefusal(old(db.customers), id).value.1)
    ensures r.Success? <==> caller.Some? && id.Some? && id.value in old(db.customers)
    ensures r.Failure? ==> db.customers == old(db.customers)
    ensures r.Success? ==> r == Success(OK, ()) && db.customers == old(db.customers) - {id.value}
  {
    if caller.None? {
      return Failure(UNAUTHORIZED, Unauthenticated);
    }
    var refusal := CustomerRefusal(db.customers, id);
    if refusal.Some? {
      return Failure(refusal.value.0, refusal.value.1);
    }
    db.customers := db.customers - {id.value};
    r := Success(OK, ());
  }

  /** Creating a second customer of the same name in the same company is refused, whatever its other fields. */
  method CreateTwice(db: Db, caller: int, name: string, companyId: int) returns (first: Outcome<Keyed<Customer>>, second: Outcome<Keyed<Customer>>)
    requires db.Valid()
    requires name != "" && companyId != 0
    modifies db`customers, db`nextCustomerId
    ensures db.Valid()
    ensures first.Success? <==> !CustomerNameHeld(old(db.customers), companyId, name, 0)
    ensures second == Failure(CONFLICT, NameTaken)
  {
    first := CreateCustomer(db, Some(caller), Some(name), None, None, None, Some(companyId));
    if first.Success? {
      assert db.customers[first.value.id].name == name;
    }
    second := CreateCustomer(db, Some(caller), Some(name), None, None, None, Some(companyId));
  }
}
