/**
 * The companies controller: a company is created with all three aggregates at zero and owned
 * by its creator; its name is unique across all users; only its owner may delete it.
 */
module Companies {
  import opened Wrappers
  import opened Http
  import opened Text
  import opened Schema
  import opened Tables
  import opened Ledger
  import opened Store

  /** Some company, whoever owns it, already has this name. */
  predicate NameHeld(companies: map<int, Company>, name: string) {
    exists id | id in companies :: companies[id].name == name
  }

  /**
   * POST /companies. 403 when the name is taken by any company; otherwise the new company gets
   * the next id, the caller as owner, `employees` defaulting to the empty string, and zero
   * aggregates, which the ledger agrees with since no entry can carry money for a fresh id.
   */
  method CreateCompany(
    db: Db, caller: Option<int>, name: string, employees: Option<string>, location: Option<string>,
    email: Option<string>, phone: Option<string>, address: Option<string>)
    returns (r: Outcome<Keyed<Company>>)
    requires db.Valid()
    modifies db`companies, db`nextCompanyId
    ensures db.Valid()
    ensures caller.None? ==> r == Failure(UNAUTHORIZED, Unauthenticated)
    ensures caller.Some? && NameHeld(old(db.companies), name) ==> r == Failure(FORBIDDEN, NameTaken)
    ensures r.Success? <==> caller.Some? && !NameHeld(old(db.companies), name)
    ensures r.Failure? ==> db.companies == old(db.companies) && db.nextCompanyId == old(db.nextCompanyId)
    ensures r.Success? ==>
              var c := Company(name, OrElse(employees, ""), location, email, phone, address, caller.value, 0, 0, 0);
              && r == Success(OK, Keyed(old(db.nextCompanyId), c))
              && db.companies == old(db.companies)[old(db.nextCompanyId) := c]
              && db.nextCompanyId == old(db.nextCompanyId) + 1
  {
    if caller.None? {
      return Failure(UNAUTHORIZED, Unauthenticated);
    }
    if NameHeld(db.companies, name) {
      return Failure(FORBIDDEN, NameTaken);
    }
    var company := Company(name, OrElse(employees, ""), location, email, phone, address, caller.value, 0, 0, 0);
    var id := db.nextCompanyId;
    AddCompanyKeepsTrading(db.companies, id, db.products, db.nextProductId, db.ledger, company);
    db.companies := db.companies[id := company];
    db.nextCompanyId := id + 1;
    r := Success(OK, Keyed(id, company));
  }

  /** GET /companies: exactly the companies the caller owns. */
  function GetAllCompany(companies: map<int, Company>, next: int, caller: Option<int>): (r: Outcome<seq<Keyed<Company>>>)
    requires IdsBelow(companies, next)
    ensures r.Failure? <==> caller.None?
    ensures caller.None? ==> r == Failure(UNAUTHORIZED, Unauthenticated)
    ensures r.Success? ==>
              && r.status == OK
              && (forall k :: k in r.value <==> k.id in companies && companies[k.id] == k.val && k.val.userId == caller.value)
              && (forall i, j :: 0 <= i < j < |r.value| ==> r.value[i].id < r.value[j].id)
  {
    if caller.None? then Failure(UNAUTHORIZED, Unauthenticated)
    else Success(OK, Select(companies, next, (k: Keyed<Company>) => k.val.userId == caller.value))
  }

  /**
   * GET /companies/:id: 400 without an id, then the company or nothing. Any authenticated
   * caller may read any company.
   */
  function GetCompanyById(companies: map<int, Company>, caller: Option<int>, id: Option<int>): (r: Outcome<Option<Company>>)
    ensures r.Failure? <==> caller.None? || id.None?
    ensures caller.None? ==> r == Failure(UNAUTHORIZED, Unauthenticated)
    ensures caller.Some? && id.None? ==> r == Failure(BAD_REQUEST, IdRequired)
    ensures r.Success? ==>
              && r.status == OK
              && (r.value.Some? <==> id.value in companies)
              && (r.value.Some? ==> r.value.value == companies[id.value])
  {
    if caller.None? then Failure(UNAUTHORIZED, Unauthenticated)
    else if id.None? then Failure(BAD_REQUEST, IdRequired)
    else if id.value in companies then Success(OK, Some(companies[id.value]))
    else Success(OK, None)
  }

  /** The answer of GetCompanyById does not depend on who asks. */
  lemma {:induction false} NoOwnershipCheckOnRead(companies: map<int, Company>, a: int, b: int, id: Option<int>)
    ensures GetCompanyById(companies, Some(a), id) == GetCompanyById(companies, Some(b), id)
  {
  }

  /**
   * DELETE /companies/:id: 400 without an id, 404 for an unknown company, 403 when another
   * user owns it; otherwise exactly that company is removed.
   */
  method DeleteCompany(db: Db, caller: Option<int>, id: Option<int>) returns (r: Outcome<()>)
    requires db.Valid()
    modifies db`companies
    ensures db.Valid()
    ensures caller.None? ==> r == Failure(UNAUTHORIZED, Unauthenticated)
    ensures caller.Some? && id.None? ==> r == Failure(BAD_REQUEST, IdRequired)
    ensures caller.Some? && id.Some? && id.value !in old(db.companies) ==> r == Failure(NOT_FOUND, CompanyNotFound)
    ensures caller.Some? && id.Some? && id.value in old(db.companies) && old(db.companies)[id.value].userId != caller.value ==>
              r == Failure(FORBIDDEN, NotOwner)
    ensures r.Success? <==> caller.Some? && id.Some? && Owns(old(db.companies), caller.value, id.value)
    ensures r.Failure? ==> db.companies == old(db.companies)
    ensures r.Success? ==> r == Success(OK, ()) && db.companies == old(db.companies) - {id.value}
  {
    if caller.None? {
      return Failure(UNAUTHORIZED, Unauthenticated);
    }
    if id.None? {
      return Failure(BAD_REQUEST, IdRequired);
    }
    if id.value !in db.companies {
      return Failure(NOT_FOUND, CompanyNotFound);
    }
    if db.companies[id.value].userId != caller.value {
      return Failure(FORBIDDEN, NotOwner);
    }
    RemoveCompanyKeepsTrading(db.companies, db.nextCompanyId, db.products, db.nextProductId, db.ledger, id.value);
    db.companies := db.companies - {id.value};
    r := Success(OK, ());
  }

  /** A company just created shows up, with zero aggregates, in its creator's listing. */
  method CreateThenList(db: Db, caller: int, name: string) returns (created: Outcome<Keyed<Company>>, listed: Outcome<seq<Keyed<Company>>>)
    requires db.Valid()
    modifies db`companies, db`nextCompanyId
    ensures db.Valid()
    ensures created.Success? <==> !NameHeld(old(db.companies), name)
    ensures listed.Success?
    ensures created.Success? ==>
              && created.value in listed.value
              && created.value.val.dayValue == created.value.val.monthValue == created.value.val.anualValue == 0
  {
    created := CreateCompany(db, Some(caller), name, None, None, None, None, None);
    listed := GetAllCompany(db.companies, db.nextCompanyId, Some(caller));
  }
}
