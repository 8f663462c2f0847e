/**
 * The product and service types controller: a type belongs to a company of the caller and its
 * name is unique within that company, on create and on rename.
 */
module ProductTypes {
  import opened Wrappers
  import opened Http
  import opened Schema
  import opened Tables
  import opened Store

  /** A type other than `except` in company `companyId` is called `name`. */
  predicate TypeNameHeld(types: map<int, ProductType>, companyId: int, name: string, except: int) {
    exists id | id in types :: id != except && types[id].companyId == companyId && types[id].name == name
  }

  /**
   * POST /types: 403 unless the caller owns the company, 403 when the company already has a
   * type of that name; otherwise the type is saved under the next id.
   */
  method CreateType(db: Db, caller: Option<int>, name: string, companyId: int) returns (r: Outcome<Keyed<ProductType>>)
    requires db.Valid()
    modifies db`types, db`nextTypeId
    ensures db.Valid()
    ensures caller.None? ==> r == Failure(UNAUTHORIZED, Unauthenticated)
    ensures caller.Some? && !Owns(db.companies, caller.value, companyId) ==> r == Failure(FORBIDDEN, NotOwner)
    ensures caller.Some? && Owns(db.companies, caller.value, companyId) && TypeNameHeld(old(db.types), companyId, name, 0) ==>
              r == Failure(FORBIDDEN, NameTaken)
    ensures r.Success? <==>
              caller.Some? && Owns(db.companies, caller.value, companyId) && !TypeNameHeld(old(db.types), companyId, name, 0)
    ensures r.Failure? ==> db.types == old(db.types) && db.nextTypeId == old(db.nextTypeId)
    ensures r.Success? ==>
              && r == Success(OK, Keyed(old(db.nextTypeId), ProductType(name, companyId)))
              && db.types == old(db.types)[old(db.nextTypeId) := ProductType(name, companyId)]
              && db.nextTypeId == old(db.nextTypeId) + 1
  {
    if caller.None? {
      return Failure(UNAUTHORIZED, Unauthenticated);
    }
    if !Owns(db.companies, caller.value, companyId) {
      return Failure(FORBIDDEN, NotOwner);
    }
    if TypeNameHeld(db.types, companyId, name, 0) {
      return Failure(FORBIDDEN, NameTaken);
    }
    var id := db.nextTypeId;
    db.types := db.types[id := ProductType(name, companyId)];
    db.nextTypeId := id + 1;
    r := Success(OK, Keyed(id, ProductType(name, companyId)));
  }

  /** GET /types/company/:id: 400 without an id, 403 unless the caller owns the company, then its types. */
  function GetAllTypes(
    types: map<int, ProductType>, next: int, companies: map<int, Company>, caller: Option<int>, companyId: Option<int>)
    : (r: Outcome<seq<Keyed<ProductType>>>)
    requires IdsBelow(types, next)
    ensures caller.None? ==> r == Failure(UNAUTHORIZED, Unauthenticated)
    ensures caller.Some? && companyId.None? ==> r == Failure(BAD_REQUEST, IdRequired)
    ensures caller.Some? && companyId.Some? && !Owns(companies, caller.value, companyId.value) ==> r == Failure(FORBIDDEN, NotOwner)
    ensures r.Success? <==> caller.Some? && companyId.Some? && Owns(companies, caller.value, companyId.value)
    ensures r.Success? ==>
              && r.status == OK
              && (forall k :: k in r.value <==> k.id in types && types[k.id] == k.val && k.val.companyId == companyId.value)
              && (forall i, j :: 0 <= i < j < |r.value| ==> r.value[i].id < r.value[j].id)
  {
    if caller.None? then Failure(UNAUTHORIZED, Unauthenticated)
    else if companyId.None? then Failure(BAD_REQUEST, IdRequired)
    else if !Owns(companies, caller.value, companyId.value) then Failure(FORBIDDEN, NotOwner)
    else Success(OK, Select(types, next, (k: Keyed<ProductType>) => k.val.companyId == companyId.value))
  }

  /** The guards of the by-id handlers: id given (400), type found (404), its company the caller's (403). */
  function TypeRefusal(types: map<int, ProductType>, companies: map<int, Company>, caller: int, id: Option<int>)
    : (r: Option<(int, Reason)>)
    ensures r.None? <==> id.Some? && id.value in types && Owns(companies, caller, types[id.value].companyId)
    ensures id.None? ==> r == Some((BAD_REQUEST, IdRequired))
    ensures id.Some? && id.value !in types ==> r == Some((NOT_FOUND, RecordNotFound))
    ensures id.Some? && id.value in types && !Owns(companies, caller, types[id.value].companyId) ==>
              r == Some((FORBIDDEN, NotOwner))
  {
    if id.None? then Some((BAD_REQUEST, IdRequired))
    else if id.value !in types then Some((NOT_FOUND, RecordNotFound))
    else if !Owns(companies, caller, types[id.value].companyId) then Some((FORBIDDEN, NotOwner))
    else None
  }

  /** GET /types/:id. */
  function GetTypeById(types: map<int, ProductType>, companies: map<int, Company>, caller: Option<int>, id: Option<int>)
    : (r: Outcome<Keyed<ProductType>>)
    ensures caller.None? ==> r == Failure(UNAUTHORIZED, Unauthenticated)
    ensures caller.Some? && TypeRefusal(types, companies, caller.value, id).Some? ==>
              r == Failure(TypeRefusal(types, companies, caller.value, id).value.0, TypeRefusal(types, companies, caller.value, id).value.1)
    ensures r.Success? <==> caller.Some? && TypeRefusal(types, companies, caller.value, id).None?
    ensures r.Success? ==> r == Success(OK, Keyed(id.value, types[id.value]))
  {
    if caller.None? then Failure(UNAUTHORIZED, Unauthenticated)
    else
      var refusal := TypeRefusal(types, companies, caller.value, id);
      if refusal.Some? then Failure(refusal.value.0, refusal.value.1)
      else Success(OK, Keyed(id.value, types[id.value]))
  }

  /**
   * PUT /types/:id: after the guards, 403 when another type of the same company has the
   * requested name; otherwise the type takes that name, or keeps its own when none is given.
   */
  method UpdateType(db: Db, caller: Option<int>, id: Option<int>, name: Option<string>) returns (r: Outcome<Keyed<ProductType>>)
    requires db.Valid()
    modifies db`types
    ensures db.Valid()
    ensures caller.None? ==> r == Failure(UNAUTHORIZED, Unauthenticated)
    ensures caller.Some? && TypeRefusal(old(db.types), db.companies, caller.value, id).Some? ==>
              r == Failure(TypeRefusal(old(db.types), db.companies, caller.value, id).value.0,
                           TypeRefusal(old(db.types), db.companies, caller.value, id).value.1)
    ensures caller.Some? && TypeRefusal(old(db.types), db.companies, caller.value, id).None? && name.Some? &&
            TypeNameHeld(old(db.types), old(db.types)[id.value].companyId, name.value, id.value) ==>
              r == Failure(FORBIDDEN, NameTaken)
    ensures r.Success? <==>
              && caller.Some? && TypeRefusal(old(db.types), db.companies, caller.value, id).None?
              && !(name.Some? && TypeNameHeld(old(db.types), old(db.types)[id.value].companyId, name.value, id.value))
    ensures r.Failure? ==> db.types == old(db.types)
    ensures r.Success? ==>
              var t := old(db.types)[id.value].(name := name.GetOr(old(db.types)[id.value].name));
              && r == Success(OK, Keyed(id.value, t))
              && db.types == old(db.types)[id.value := t]
  {
    if caller.None? {
      return Failure(UNAUTHORIZED, Unauthenticated);
    }
    var refusal := TypeRefusal(db.types, db.companies, caller.value, id);
    if refusal.Some? {
      return Failure(refusal.value.0, refusal.value.1);
    }
    var t := db.types[id.value];
    if name.Some? && TypeNameHeld(db.types, t.companyId, name.value, id.value) {
      return Failure(FORBIDDEN, NameTaken);
    }
    t := t.(name := name.GetOr(t.name));
    db.types := db.types[id.value := t];
    r := Success(OK, Keyed(id.value, t));
  }

  /** Since names are unique per company, a type's own name never conflicts: saving it unchanged always succeeds. */
  lemma OwnNameNeverConflicts(types: map<int, ProductType>, id: int)
    requires TypeNamesUnique(types) && id in types
    ensures !TypeNameHeld(types, types[id].companyId, types[id].name, id)
  {
  }

  /** DELETE /types/:id: after the guards, exactly that type is removed. */
  method DeleteType(db: Db, caller: Option<int>, id: Option<int>) returns (r: Outcome<()>)
    requires db.Valid()
    modifies db`types
    ensures db.Valid()
    ensures caller.None? ==> r == Failure(UNAUTHORIZED, Unauthenticated)
    ensures caller.Some? && TypeRefusal(old(db.types), db.companies, caller.value, id).Some? ==>
              r == Failure(TypeRefusal(old(db.types), db.companies, caller.value, id).value.0,
                           TypeRefusal(old(db.types), db.companies, caller.value, id).value.1)
    ensures r.Success? <==> caller.Some? && TypeRefusal(old(db.types), db.companies, caller.value, id).None?
    ensures r.Failure? ==> db.types == old(db.types)
    ensures r.Success? ==> r == Success(OK, ()) && db.types == old(db.types) - {id.value}
  {
    if caller.None? {
      return Failure(UNAUTHORIZED, Unauthenticated);
    }
    var refusal := TypeRefusal(db.types, db.companies, caller.value, id);
    if refusal.Some? {
      return Failure(refusal.value.0, refusal.value.1);
    }
    db.types := db.types - {id.value};
    r := Success(OK, ());
  }
}
