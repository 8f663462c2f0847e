/**
 * The schedules controller: appointments of a company's customers. No handler asks who the
 * caller is. Listings are ordered by day, then by time of day.
 */
module Schedules {
  import opened Wrappers
  import opened Http
  import opened Text
  import opened Sorting
  import opened Tables
  import opened Schema
  import opened Store

  /** `ORDER BY scheduled_date ASC, scheduled_time ASC`, with the time compared as the text sent. */
  predicate Chronological(a: Keyed<Schedule>, b: Keyed<Schedule>) {
    a.val.scheduledDate < b.val.scheduledDate
    || (a.val.scheduledDate == b.val.scheduledDate && StrLe(a.val.scheduledTime, b.val.scheduledTime))
  }

  lemma {:induction false} ChronologicalTotalPreorder()
    ensures TotalPreorder(Chronological)
  {
    forall a: Keyed<Schedule>, b: Keyed<Schedule> ensures Chronological(a, b) || Chronological(b, a) {
      StrLeTotal(a.val.scheduledTime, b.val.scheduledTime);
    }
    forall a: Keyed<Schedule>, b: Keyed<Schedule>, c: Keyed<Schedule> | Chronological(a, b) && Chronological(b, c)
      ensures Chronological(a, c)
    {
      if a.val.scheduledDate == b.val.scheduledDate == c.val.scheduledDate {
        StrLeTransitive(a.val.scheduledTime, b.val.scheduledTime, c.val.scheduledTime);
      }
    }
  }

  /** SELECT the schedules satisfying `p`, in chronological order. */
  function Agenda(schedules: map<int, Schedule>, next: int, p: Keyed<Schedule> -> bool): (r: seq<Keyed<Schedule>>)
    requires IdsBelow(schedules, next)
    ensures forall k :: k in r <==> k.id in schedules && schedules[k.id] == k.val && p(k)
    ensures NoDup(r)
    ensures SortedBy(r, Chronological)
  {
    ChronologicalTotalPreorder();
    Query(schedules, next, p, Chronological)
  }

  /** GET /schedules: every appointment. */
  function Index(schedules: map<int, Schedule>, next: int): (r: Outcome<seq<Keyed<Schedule>>>)
    requires IdsBelow(schedules, next)
    ensures r.Success? && r.status == OK
    ensures forall k :: k in r.value <==> k.id in schedules && schedules[k.id] == k.val
    ensures NoDup(r.value) && SortedBy(r.value, Chronological)
  {
    Success(OK, Agenda(schedules, next, (k: Keyed<Schedule>) => true))
  }

  /** GET /schedules/company/:companyId: the company's appointments. */
  function GetByCompany(schedules: map<int, Schedule>, next: int, companyId: int): (r: Outcome<seq<Keyed<Schedule>>>)
    requires IdsBelow(schedules, next)
    ensures r.Success? && r.status == OK
    ensures forall k :: k in r.value <==> k.id in schedules && schedules[k.id] == k.val && k.val.companyId == companyId
    ensures NoDup(r.value) && SortedBy(r.value, Chronological)
  {
    Success(OK, Agenda(schedules, next, (k: Keyed<Schedule>) => k.val.companyId == companyId))
  }

  /** GET /schedules/:id. */
  function Show(schedules: map<int, Schedule>, id: int): (r: Outcome<Keyed<Schedule>>)
    ensures r.Success? <==> id in schedules
    ensures r.Success? ==> r == Success(OK, Keyed(id, schedules[id]))
    ensures r.Failure? ==> r == Failure(NOT_FOUND, RecordNotFound)
  {
    if id in schedules then Success(OK, Keyed(id, schedules[id])) else Failure(NOT_FOUND, RecordNotFound)
  }

  /**
   * GET /schedules/company/:companyId/range: 400 when either bound is missing, then 400 when
   * either is not a valid date; otherwise the company's appointments on the days from start to
   * end, both included.
   */
  function GetByDateRange(schedules: map<int, Schedule>, next: int, companyId: int, startDate: DateParam, endDate: DateParam)
    : (r: Outcome<seq<Keyed<Schedule>>>)
    requires IdsBelow(schedules, next)
    ensures startDate.NoDate? || endDate.NoDate? ==> r == Failure(BAD_REQUEST, FieldsRequired)
    ensures !(startDate.NoDate? || endDate.NoDate?) && (startDate.BadDate? || endDate.BadDate?) ==> r == Failure(BAD_REQUEST, InvalidDate)
    ensures r.Success? <==> startDate.At? && endDate.At?
    ensures r.Success? ==>
              && r.status == OK
              && (forall k :: k in r.value <==>
                    && k.id in schedules && schedules[k.id] == k.val && k.val.companyId == companyId
                    && startDate.time <= k.val.scheduledDate <= endDate.time)
              && NoDup(r.value) && SortedBy(r.value, Chronological)
  {
    if startDate.NoDate? || endDate.NoDate? then Failure(BAD_REQUEST, FieldsRequired)
    else if startDate.BadDate? || endDate.BadDate? then Failure(BAD_REQUEST, InvalidDate)
    else
      Success(OK, Agenda(schedules, next, (k: Keyed<Schedule>) =>
        k.val.companyId == companyId && startDate.time <= k.val.scheduledDate <= endDate.time))
  }

  /** A range that ends before it starts selects nothing. */
  lemma InvertedRangeIsEmpty(schedules: map<int, Schedule>, next: int, companyId: int, start: int, end: int)
    requires IdsBelow(schedules, next) && end < start
    ensures GetByDateRange(schedules, next, companyId, At(start), At(end)) == Success(OK, [])
  {
  }

  /**
   * POST /schedules: 400 unless company, customer name and phone, service type and
   * description, day and time are all given, 400 for an invalid day; otherwise 201 and the
   * appointment under the next id, with email and notes stored as NULL when empty, a
   * duration of 60 minutes and status `agendado` by default.
   */
  method CreateSchedule(
    db: Db, companyId: Option<int>, customerName: Option<string>, customerPhone: Option<string>,
    customerEmail: Option<string>, serviceType: Option<string>, serviceDescription: Option<string>,
    scheduledDate: DateParam, scheduledTime: Option<string>, duration: Option<int>, status: Option<string>,
    notes: Option<string>)
    returns (r: Outcome<Keyed<Schedule>>)
    requires db.Valid()
    modifies db`schedules, db`nextScheduleId
    ensures db.Valid()
    ensures var given := TruthyInt(companyId) && Truthy(customerName) && Truthy(customerPhone) && Truthy(serviceType) &&
                         Truthy(serviceDescription) && !scheduledDate.NoDate? && Truthy(scheduledTime);
            && (!given ==> r == Failure(BAD_REQUEST, FieldsRequired))
            && (given && scheduledDate.BadDate? ==> r == Failure(BAD_REQUEST, InvalidDate))
            && (r.Success? <==> given && scheduledDate.At?)
    ensures r.Failure? ==> db.schedules == old(db.schedules) && db.nextScheduleId == old(db.nextScheduleId)
    ensures r.Success? ==>
              var s := Schedule(companyId.value, customerName.value, customerPhone.value, OrNull(customerEmail),
                                serviceType.value, serviceDescription.value, scheduledDate.time, scheduledTime.value,
                                OrElseInt(duration, 60), OrElse(status, "agendado"), OrNull(notes));
              && r == Success(CREATED, Keyed(old(db.nextScheduleId), s))
              && db.schedules == old(db.schedules)[old(db.nextScheduleId) := s]
              && db.nextScheduleId == old(db.nextScheduleId) + 1
  {
    if !TruthyInt(companyId) || !Truthy(customerName) || !Truthy(customerPhone) || !Truthy(serviceType)
       || !Truthy(serviceDescription) || scheduledDate.NoDate? || !Truthy(scheduledTime)
    {
      return Failure(BAD_REQUEST, FieldsRequired);
    }
    if scheduledDate.BadDate? {
      return Failure(BAD_REQUEST, InvalidDate);
    }
    var s := Schedule(companyId.value, customerName.value, customerPhone.value, OrNull(customerEmail),
                      serviceType.value, serviceDescription.value, scheduledDate.time, scheduledTime.value,
                      OrElseInt(duration, 60), OrElse(status, "agendado"), OrNull(notes));
    var id := db.nextScheduleId;
    db.schedules := db.schedules[id := s];
    db.nextScheduleId := id + 1;
    r := Success(CREATED, Keyed(id, s));
  }

  /**
   * The fields of an update. Email and notes, when present at all, are stored as sent (null
   * included), so they are doubly optional; every other field applies only when truthy.
   */
  datatype SchedulePatch = SchedulePatch(
    customerName: Option<string>,
    customerPhone: Option<string>,
    customerEmail: Option<Option<string>>,
    serviceType: Option<string>,
    serviceDescription: Option<string>,
    scheduledDate: DateParam,
    scheduledTime: Option<string>,
    duration: Option<int>,
    status: Option<string>,
    notes: Option<Option<string>>)

  /** A text field the update overwrites only with a truthy value. */
  function IfTruthy(old_: string, given: Option<string>): (r: string)
    ensures Truthy(given) ==> r == given.value
    ensures !Truthy(given) ==> r == old_
  {
    if Truthy(given) then given.value else old_
  }

  /** The appointment as the update leaves it. The company never changes, and an invalid day is ignored. */
  function PatchSchedule(s: Schedule, p: SchedulePatch): (r: Schedule)
    ensures r.companyId == s.companyId
    ensures r.customerName == IfTruthy(s.customerName, p.customerName)
    ensures r.customerPhone == IfTruthy(s.customerPhone, p.customerPhone)
    ensures r.serviceType == IfTruthy(s.serviceType, p.serviceType)
    ensures r.serviceDescription == IfTruthy(s.serviceDescription, p.serviceDescription)
    ensures r.scheduledTime == IfTruthy(s.scheduledTime, p.scheduledTime)
    ensures r.status == IfTruthy(s.status, p.status)
    ensures r.scheduledDate == (if p.scheduledDate.At? then p.scheduledDate.time else s.scheduledDate)
    ensures r.customerEmail == p.customerEmail.GetOr(s.customerEmail) && r.notes == p.notes.GetOr(s.notes)
    ensures r.duration == (if TruthyInt(p.duration) then p.duration.value else s.duration)
  {
    Schedule(s.companyId,
             IfTruthy(s.customerName, p.customerName),
             IfTruthy(s.customerPhone, p.customerPhone),
             p.customerEmail.GetOr(s.customerEmail),
             IfTruthy(s.serviceType, p.serviceType),
             IfTruthy(s.serviceDescription, p.serviceDescription),
             if p.scheduledDate.At? then p.scheduledDate.time else s.scheduledDate,
             IfTruthy(s.scheduledTime, p.scheduledTime),
             if TruthyInt(p.duration) then p.duration.value else s.duration,
             IfTruthy(s.status, p.status),
             p.notes.GetOr(s.notes))
  }

  /** Applying the same update twice is applying it once. */
  lemma PatchScheduleIdempotent(s: Schedule, p: SchedulePatch)
    ensures PatchSchedule(PatchSchedule(s, p), p) == PatchSchedule(s, p)
  {
  }

  /**
   * Unlike store, update keeps a falsy email as sent rather than storing NULL: whatever the
   * appointment and the other fields, an update that sends "" stores "", while store turns
   * the same input into NULL.
   */
  lemma EmptyEmailKeptOnUpdate(s: Schedule, p: SchedulePatch)
    requires p.customerEmail.Some? && !Truthy(p.customerEmail.value)
    ensures PatchSchedule(s, p).customerEmail == p.customerEmail.value
    ensures p.customerEmail.value.Some? ==> PatchSchedule(s, p).customerEmail != OrNull(p.customerEmail.value)
  {
  }

  /** PUT /schedules/:id: 404, or each field applied in turn. */
  method UpdateSchedule(db: Db, id: int, patch: SchedulePatch) returns (r: Outcome<Keyed<Schedule>>)
    requires db.Valid()
    modifies db`schedules
    ensures db.Valid()
    ensures r.Success? <==> id in old(db.schedules)
    ensures r.Failure? ==> r == Failure(NOT_FOUND, RecordNotFound) && db.schedules == old(db.schedules)
    ensures r.Success? ==>
              var s := PatchSchedule(old(db.schedules)[id], patch);
              && r == Success(OK, Keyed(id, s))
              && db.schedules == old(db.schedules)[id := s]
  {
    if id !in db.schedules {
      return Failure(NOT_FOUND, RecordNotFound);
    }
    var s := db.schedules[id];
    s := s.(customerName := IfTruthy(s.customerName, patch.customerName));
    s := s.(customerPhone := IfTruthy(s.customerPhone, patch.customerPhone));
    s := s.(customerEmail := patch.customerEmail.GetOr(s.customerEmail));
    s := s.(serviceType := IfTruthy(s.serviceType, patch.serviceType));
    s := s.(serviceDescription := IfTruthy(s.serviceDescription, patch.serviceDescription));
    s := s.(scheduledDate := if patch.scheduledDate.At? then patch.scheduledDate.time else s.scheduledDate);
    s := s.(scheduledTime := IfTruthy(s.scheduledTime, patch.scheduledTime));
    s := s.(duration := if TruthyInt(patch.duration) then patch.duration.value else s.duration);
    s := s.(status := IfTruthy(s.status, patch.status));
    s := s.(notes := patch.notes.GetOr(s.notes));
    db.schedules := db.schedules[id := s];
    r := Success(OK, Keyed(id, s));
  }

  /** DELETE /schedules/:id: 404, or exactly that appointment is removed. */
  method DeleteSchedule(db: Db, id: int) returns (r: Outcome<()>)
    requires db.Valid()
    modifies db`schedules
    ensures db.Valid()
    ensures r.Success? <==> id in old(db.schedules)
    ensures r.Failure? ==> r == Failure(NOT_FOUND, RecordNotFound) && db.schedules == old(db.schedules)
    ensures r.Success? ==> r == Success(OK, ()) && db.schedules == old(db.schedules) - {id}
  {
    if id !in db.schedules {
      return Failure(NOT_FOUND, RecordNotFound);
    }
    db.schedules := db.schedules - {id};
    r := Success(OK, ());
  }
}
