/**
 * The employees controller. No handler asks who the caller is. An employee's email is unique
 * among all employees; the company must exist when one is named. Listings are newest first.
 */
module Employees {
  import opened Wrappers
  import opened Http
  import opened Text
  import opened Sorting
  import opened Tables
  import opened Schema
  import opened Store

  /** `ORDER BY created_at DESC`. */
  predicate NewestFirst(a: Keyed<Employee>, b: Keyed<Employee>) {
    a.val.createdAt >= b.val.createdAt
  }

  /** GET /employees: every employee, newest first. */
  function Index(employees: map<int, Employee>, next: int): (r: Outcome<seq<Keyed<Employee>>>)
    requires IdsBelow(employees, next)
    ensures r.Success? && r.status == OK
    ensures forall k :: k in r.value <==> k.id in employees && employees[k.id] == k.val
    ensures NoDup(r.value)
    ensures forall i, j :: 0 <= i < j < |r.value| ==> r.value[i].val.createdAt >= r.value[j].val.createdAt
  {
    assert TotalPreorder(NewestFirst);
    var rows := Query(employees, next, (k: Keyed<Employee>) => true, NewestFirst);
    assert SortedBy(rows, NewestFirst);
    Success(OK, rows)
  }

  /** GET /employees/company/:companyId: the company's employees, newest first. */
  function GetByCompany(employees: map<int, Employee>, next: int, companyId: int): (r: Outcome<seq<Keyed<Employee>>>)
    requires IdsBelow(employees, next)
    ensures r.Success? && r.status == OK
    ensures forall k :: k in r.value <==> k.id in employees && employees[k.id] == k.val && k.val.companyId == companyId
    ensures NoDup(r.value)
    ensures forall i, j :: 0 <= i < j < |r.value| ==> r.value[i].val.createdAt >= r.value[j].val.createdAt
  {
    assert TotalPreorder(NewestFirst);
    var rows := Query(employees, next, (k: Keyed<Employee>) => k.val.companyId == companyId, NewestFirst);
    assert SortedBy(rows, NewestFirst);
    Success(OK, rows)
  }

  /** GET /employees/:id. */
  function Show(employees: map<int, Employee>, id: int): (r: Outcome<Keyed<Employee>>)
    ensures r.Success? <==> id in employees
    ensures r.Success? ==> r == Success(OK, Keyed(id, employees[id]))
    ensures r.Failure? ==> r == Failure(NOT_FOUND, RecordNotFound)
  {
    if id in employees then Success(OK, Keyed(id, employees[id])) else Failure(NOT_FOUND, RecordNotFound)
  }

  /** Some employee has this email. */
  predicate EmailHeld(employees: map<int, Employee>, email: string) {
    exists id | id in employees :: employees[id].email == email
  }

  /** The row store creates: empty optional fields become NULL, salary 0 and status `ativo`. */
  function NewEmployee(
    name: string, email: string, phone: Option<string>, position: string, companyId: int, salary: Option<int>,
    hireDate: Option<string>, status: Option<string>, now: int): Employee
  {
    Employee(name, email, OrNull(phone), position, companyId, OrElseInt(salary, 0), OrNull(hireDate),
             OrElse(status, "ativo"), now)
  }

  /** An employee created with only the required fields is active, unpaid and has no contact or hire date. */
  lemma NewEmployeeDefaults(name: string, email: string, position: string, companyId: int, now: int)
    ensures NewEmployee(name, email, None, position, companyId, None, None, None, now)
         == Employee(name, email, None, position, companyId, 0, None, "ativo", now)
  {
  }

  /**
   * POST /employees: 400 unless name, email, position and company are all given, 400 when the
   * company does not exist or the email is taken; otherwise 201 and the employee under the
   * next id, stamped `now`.
   */
  method CreateEmployee(
    db: Db, name: Option<string>, email: Option<string>, phone: Option<string>, position: Option<string>,
    companyId: Option<int>, salary: Option<int>, hireDate: Option<string>, status: Option<string>, now: int)
    returns (r: Outcome<Keyed<Employee>>)
    requires db.Valid()
    modifies db`employees, db`nextEmployeeId
    ensures db.Valid()
    ensures !(Truthy(name) && Truthy(email) && Truthy(position) && TruthyInt(companyId)) ==>
              r == Failure(BAD_REQUEST, FieldsRequired)
    ensures Truthy(name) && Truthy(email) && Truthy(position) && TruthyInt(companyId) && companyId.value !in db.companies ==>
              r == Failure(BAD_REQUEST, CompanyNotFound)
    ensures Truthy(name) && Truthy(email) && Truthy(position) && TruthyInt(companyId) && companyId.value in db.companies &&
            EmailHeld(old(db.employees), email.value) ==>
              r == Failure(BAD_REQUEST, EmailTaken)
    ensures r.Success? <==>
              && Truthy(name) && Truthy(email) && Truthy(position) && TruthyInt(companyId)
              && companyId.value in db.companies && !EmailHeld(old(db.employees), email.value)
    ensures r.Failure? ==> db.employees == old(db.employees) && db.nextEmployeeId == old(db.nextEmployeeId)
    ensures r.Success? ==>
              var e := NewEmployee(name.value, email.value, phone, position.value, companyId.value, salary, hireDate, status, now);
              && r == Success(CREATED, Keyed(old(db.nextEmployeeId), e))
              && db.employees == old(db.employees)[old(db.nextEmployeeId) := e]
              && db.nextEmployeeId == old(db.nextEmployeeId) + 1
  {
    if !Truthy(name) || !Truthy(email) || !Truthy(position) || !TruthyInt(companyId) {
      return Failure(BAD_REQUEST, FieldsRequired);
    }
    if companyId.value !in db.companies {
      return Failure(BAD_REQUEST, CompanyNotFound);
    }
    if EmailHeld(db.employees, email.value) {
      return Failure(BAD_REQUEST, EmailTaken);
    }
    var employee := NewEmployee(name.value, email.value, phone, position.value, companyId.value, salary, hireDate, status, now);
    var id := db.nextEmployeeId;
    db.employees := db.employees[id := employee];
    db.nextEmployeeId := id + 1;
    r := Success(CREATED, Keyed(id, employee));
  }

  /**
   * The keys an update request carries; `merge` copies each present one, whatever its value.
   * Phone and hire date may be set to null, so they are doubly optional.
   */
  datatype EmployeePatch = EmployeePatch(
    name: Option<string>,
    email: Option<string>,
    phone: Option<Option<string>>,
    position: Option<string>,
    companyId: Option<int>,
    salary: Option<int>,
    hireDate: Option<Option<string>>,
    status: Option<string>)

  /** `employee.merge(data)`: every present key overwrites its column; the creation time stays. */
  function Merge(e: Employee, p: EmployeePatch): (r: Employee)
    ensures r.createdAt == e.createdAt
    ensures p == EmployeePatch(None, None, None, None, None, None, None, None) ==> r == e
    ensures r.name == (if p.name.Some? then p.name.value else e.name)
    ensures r.email == (if p.email.Some? then p.email.value else e.email)
    ensures r.phone == (if p.phone.Some? then p.phone.value else e.phone)
    ensures r.position == (if p.position.Some? then p.position.value else e.position)
    ensures r.companyId == (if p.companyId.Some? then p.companyId.value else e.companyId)
    ensures r.salary == (if p.salary.Some? then p.salary.value else e.salary)
    ensures r.hireDate == (if p.hireDate.Some? then p.hireDate.value else e.hireDate)
    ensures r.status == (if p.status.Some? then p.status.value else e.status)
  {
    Employee(p.name.GetOr(e.name), p.email.GetOr(e.email), p.phone.GetOr(e.phone), p.position.GetOr(e.position),
             p.companyId.GetOr(e.companyId), p.salary.GetOr(e.salary), p.hireDate.GetOr(e.hireDate),
             p.status.GetOr(e.status), e.createdAt)
  }

  /** Merging the same data twice is merging it once. */
  lemma MergeIdempotent(e: Employee, p: EmployeePatch)
    ensures Merge(Merge(e, p), p) == Merge(e, p)
  {
  }

  /**
   * A company id of 0 is falsy, so it passes the controller's existence check yet is still
   * merged, and the model stores it. The database's foreign key would refuse that save.
   */
  lemma ZeroCompanySkipsCheck(employees: map<int, Employee>, companies: map<int, Company>, id: int)
    requires id in employees && 0 !in companies
    ensures var p := EmployeePatch(None, None, None, None, Some(0), None, None, None);
            UpdateRefusal(employees, companies, id, p).None? && Merge(employees[id], p).companyId !in companies
  {
  }

  /** The update's refusals, in order: unknown employee (404), unknown company (400), email of another employee (400). */
  function UpdateRefusal(employees: map<int, Employee>, companies: map<int, Company>, id: int, p: EmployeePatch)
    : (r: Option<(int, Reason)>)
    ensures id !in employees ==> r == Some((NOT_FOUND, RecordNotFound))
    ensures id in employees && TruthyInt(p.companyId) && p.companyId.value !in companies ==> r == Some((BAD_REQUEST, CompanyNotFound))
    ensures r.None? <==>
              && id in employees
              && !(TruthyInt(p.companyId) && p.companyId.value !in companies)
              && !(Truthy(p.email) && p.email.value != employees[id].email && EmailHeld(employees, p.email.value))
    ensures r.Some? && r.value.1 == EmailTaken ==>
              r.value.0 == BAD_REQUEST && Truthy(p.email) && EmailHeld(employees, p.email.value)
  {
    if id !in employees then Some((NOT_FOUND, RecordNotFound))
    else if TruthyInt(p.companyId) && p.companyId.value !in companies then Some((BAD_REQUEST, CompanyNotFound))
    else if Truthy(p.email) && p.email.value != employees[id].email && EmailHeld(employees, p.email.value) then
      Some((BAD_REQUEST, EmailTaken))
    else None
  }

  /** PUT /employees/:id: once the checks pass, the request is merged into the employee. */
  method UpdateEmployee(db: Db, id: int, patch: EmployeePatch) returns (r: Outcome<Keyed<Employee>>)
    requires db.Valid()
    modifies db`employees
    ensures db.Valid()
    ensures UpdateRefusal(old(db.employees), db.companies, id, patch).Some? ==>
              r == Failure(UpdateRefusal(old(db.employees), db.companies, id, patch).value.0,
                           UpdateRefusal(old(db.employees), db.companies, id, patch).value.1)
              && db.employees == old(db.employees)
    ensures r.Success? <==> UpdateRefusal(old(db.employees), db.companies, id, patch).None?
    ensures r.Success? ==>
              var e := Merge(old(db.employees)[id], patch);
              && r == Success(OK, Keyed(id, e))
              && db.employees == old(db.employees)[id := e]
  {
    var refusal := UpdateRefusal(db.employees, db.companies, id, patch);
    if refusal.Some? {
      return Failure(refusal.value.0, refusal.value.1);
    }
    var employee := Merge(db.employees[id], patch);
    MergeKeepsEmailsUnique(db.employees, id, patch);
    db.employees := db.employees[id := employee];
    r := Success(OK, Keyed(id, employee));
  }

  /** A merge the email check let through keeps non-empty emails unique. */
  lemma MergeKeepsEmailsUnique(employees: map<int, Employee>, id: int, p: EmployeePatch)
    requires id in employees && EmailsUnique(employees)
    requires !(Truthy(p.email) && p.email.value != employees[id].email && EmailHeld(employees, p.email.value))
    ensures EmailsUnique(employees[id := Merge(employees[id], p)])
  {
    var e := Merge(employees[id], p);
    forall other | other in employees && other != id && e.email != "" ensures employees[other].email != e.email {
      assert e.email == employees[id].email || !EmailHeld(employees, e.email);
    }
  }

  /** DELETE /employees/:id: 404, or exactly that employee is removed. */
  method DeleteEmployee(db: Db, id: int) returns (r: Outcome<()>)
    requires db.Valid()
    modifies db`employees
    ensures db.Valid()
    ensures r.Success? <==> id in old(db.employees)
    ensures r.Failure? ==> r == Failure(NOT_FOUND, RecordNotFound) && db.employees == old(db.employees)
    ensures r.Success? ==> r == Success(OK, ()) && db.employees == old(db.employees) - {id}
  {
    if id !in db.employees {
      return Failure(NOT_FOUND, RecordNotFound);
    }
    db.employees := db.employees - {id};
    r := Success(OK, ());
  }
}
