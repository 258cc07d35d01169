/** The test server's in-memory state and its request handlers: wage groups,
    employees, the employee-number counter and the static energy-label table.
    Each handler either fails with a fixed status code and changes nothing, or
    performs one specific update of the store. */
module TestServer {
  import opened Wrappers
  import opened Collections

  datatype EnergyLabel = A | B | C | D | E | F | G | NoRegisteredLabel

  datatype WeekDay = Monday | Tuesday | Wednesday | Thursday | Friday

  /** `hourly_rate` is a float that the server only stores and returns; the
      model keeps it as a real that it only stores and returns. */
  type HourlyRate = real

  datatype WageGroup = WageGroup(id: string, hourlyRate: HourlyRate)

  /** A stored employee record. */
  datatype EmployeeDetails = EmployeeDetails(
    id: string,
    name: string,
    employeeNumber: int,
    wagegroupId: string,
    parttimeDay: Option<WeekDay>)

  /** The body of a create-employee request. */
  datatype Employee = Employee(name: string, wagegroupId: string, parttimeDay: Option<WeekDay>)

  /** The body of a patch request, restricted to the fields the client set:
      `None` is a field left unset. For `parttimeDay`, `Some(None)` is an
      explicit null, which clears the part-time day. */
  datatype EmployeeUpdate = EmployeeUpdate(
    name: Option<string>,
    employeeNumber: Option<int>,
    wagegroupId: Option<string>,
    parttimeDay: Option<Option<WeekDay>>)

  /** The errors the handlers raise. `NumbersExhausted` is the `StopIteration`
      that escapes `post_employee` once the number iterator is used up; the
      handler sets no status code for it. */
  datatype HttpError =
    | NotFound
    | WageGroupExists
    | WageGroupInUse(count: nat)
    | UnknownWageGroup(wagegroupId: string)
    | IncorrectCode
    | NumbersExhausted

  /** The status code of each `HTTPException` the handlers raise. */
  function StatusCode(e: HttpError): (code: int)
    requires !e.NumbersExhausted?
    ensures code in {403, 404, 406, 418, 451}
  {
    match e
    case NotFound => 404
    case WageGroupExists => 418
    case WageGroupInUse(_) => 406
    case UnknownWageGroup(_) => 451
    case IncorrectCode => 403
  }

  /** Each kind of error has its own status code, so a client can tell the
      kinds apart by the code alone. */
  lemma StatusCodesDistinguishErrors(e1: HttpError, e2: HttpError)
    requires !e1.NumbersExhausted? && !e2.NumbersExhausted?
    ensures StatusCode(e1) == StatusCode(e2) <==>
              (e1.NotFound? && e2.NotFound?) || (e1.WageGroupExists? && e2.WageGroupExists?) ||
              (e1.WageGroupInUse? && e2.WageGroupInUse?) || (e1.UnknownWageGroup? && e2.UnknownWageGroup?) ||
              (e1.IncorrectCode? && e2.IncorrectCode?)
  {
  }

  datatype Result<+T> = Ok(value: T) | Err(error: HttpError)

  // ---------------------------------------------------------------------
  // Stateless endpoints
  // ---------------------------------------------------------------------

  /** `get_message`: only the secret code 42 is let through. */
  function GetMessage(secretCode: int): (r: Result<string>)
    ensures r.Err? <==> secretCode != 42
    ensures r.Err? ==> r.error == IncorrectCode && StatusCode(r.error) == 403
    ensures r.Ok? ==> r.value == "Welcome, agent HAL"
  {
    if secretCode != 42 then Err(IncorrectCode) else Ok("Welcome, agent HAL")
  }

  /** zipcode -> home number -> extension -> label; the empty extension means
      "no extension". */
  function EnergyLabels(): (table: map<string, map<int, map<string, EnergyLabel>>>)
    ensures table.Keys == {"1111AA"}
    ensures table["1111AA"].Keys == {10}
    ensures table["1111AA"][10].Keys == {"", "C"}
    ensures table["1111AA"][10][""] == A && table["1111AA"][10]["C"] == C
  {
    map["1111AA" := map[10 := map["" := A, "C" := C]]]
  }

  /** The bounds the framework enforces on the energy-label path and query
      parameters before the handler runs. */
  predicate EnergyLabelQuery(zipcode: string, homeNumber: int, extension: Option<string>) {
    && |zipcode| == 6
    && homeNumber >= 1
    && (extension.Some? ==> 1 <= |extension.value| <= 99)
  }

  /** `get_energy_label`: a three-level lookup in which a miss at any level
      (an absent or empty inner table, or an unknown extension) yields the
      sentinel label instead of an error. */
  function GetEnergyLabel(zipcode: string, homeNumber: int, extension: Option<string>): (r: EnergyLabel)
    requires EnergyLabelQuery(zipcode, homeNumber, extension)
    ensures r != NoRegisteredLabel <==>
              zipcode == "1111AA" && homeNumber == 10 && (extension == None || extension == Some("C"))
    ensures r == A <==> zipcode == "1111AA" && homeNumber == 10 && extension == None
    ensures r == C <==> zipcode == "1111AA" && homeNumber == 10 && extension == Some("C")
  {
    var table := EnergyLabels();
    if zipcode !in table || table[zipcode] == map[] then NoRegisteredLabel
    else
      var forZipcode := table[zipcode];
      if homeNumber !in forZipcode || forZipcode[homeNumber] == map[] then NoRegisteredLabel
      else
        var forHomeNumber := forZipcode[homeNumber];
        var key := if extension.None? then "" else extension.value;
        if key in forHomeNumber then forHomeNumber[key] else NoRegisteredLabel
  }

  // ---------------------------------------------------------------------
  // Employee records
  // ---------------------------------------------------------------------

  /** The record `post_employee` builds from a request body, a new id and the
      next employee number. */
  function NewEmployee(id: string, number: int, employee: Employee): (r: EmployeeDetails)
    ensures r.id == id && r.employeeNumber == number
    ensures r.name == employee.name && r.wagegroupId == employee.wagegroupId
    ensures r.parttimeDay == employee.parttimeDay
  {
    EmployeeDetails(id, employee.name, number, employee.wagegroupId, employee.parttimeDay)
  }

  /** `stored.copy(update=...)` with the fields the client set: every set
      field replaces the stored one, every unset field keeps its stored value,
      and the id, which an update cannot carry, never changes. */
  function ApplyUpdate(stored: EmployeeDetails, update: EmployeeUpdate): (r: EmployeeDetails)
    ensures r.id == stored.id
    ensures r.name == if update.name.Some? then update.name.value else stored.name
    ensures r.employeeNumber ==
              if update.employeeNumber.Some? then update.employeeNumber.value else stored.employeeNumber
    ensures r.wagegroupId == if update.wagegroupId.Some? then update.wagegroupId.value else stored.wagegroupId
    ensures r.parttimeDay == if update.parttimeDay.Some? then update.parttimeDay.value else stored.parttimeDay
  {
    stored.(
      name := update.name.GetOr(stored.name),
      employeeNumber := update.employeeNumber.GetOr(stored.employeeNumber),
      wagegroupId := update.wagegroupId.GetOr(stored.wagegroupId),
      parttimeDay := update.parttimeDay.GetOr(stored.parttimeDay))
  }

  /** An update that sets no field leaves the record as it was. */
  lemma EmptyUpdateKeepsRecord(stored: EmployeeDetails)
    ensures ApplyUpdate(stored, EmployeeUpdate(None, None, None, None)) == stored
  {
  }

  /** Applying the same update twice is the same as applying it once. */
  lemma ApplyUpdateIdempotent(stored: EmployeeDetails, update: EmployeeUpdate)
    ensures ApplyUpdate(ApplyUpdate(stored, update), update) == ApplyUpdate(stored, update)
  {
  }

  /** Every employee's wage group is a stored wage group. */
  predicate ReferencesResolve(wageGroups: map<string, WageGroup>, employees: map<string, EmployeeDetails>) {
    forall k :: k in employees ==> employees[k].wagegroupId in wageGroups
  }

  /** The condition of the list comprehension in `delete_wagegroup`. */
  function UsesWageGroup(id: string): EmployeeDetails -> bool {
    (e: EmployeeDetails) => e.wagegroupId == id
  }

  /** The condition of the list comprehension in `get_available_employees`. */
  function AvailableOn(weekday: WeekDay): EmployeeDetails -> bool {
    (e: EmployeeDetails) => e.parttimeDay != Some(weekday)
  }

  /** An update that moves an employee to an unknown wage group breaks
      `ReferencesResolve`: `patch_employee` does not check the new id. */
  lemma PatchCanBreakReferences()
    ensures exists wageGroups, employees, k, update ::
              && ReferencesResolve(wageGroups, employees)
              && k in employees
              && !ReferencesResolve(wageGroups, employees[k := ApplyUpdate(employees[k], update)])
  {
    var al := EmployeeDetails("e1", "Al", 1, "wg1", None);
    var wageGroups := map["wg1" := WageGroup("wg1", 20.0)];
    var employees := map["e1" := al];
    var update := EmployeeUpdate(None, None, Some("unknown"), None);
    assert ReferencesResolve(wageGroups, employees);
    var patched := employees["e1" := ApplyUpdate(al, update)];
    assert patched["e1"].wagegroupId == "unknown" && "unknown" !in wageGroups;
    assert !ReferencesResolve(wageGroups, patched);
    assert "e1" in employees && employees["e1"] == al;
  }

  // ---------------------------------------------------------------------
  // The store
  // ---------------------------------------------------------------------

  /** `range(1, 1000)` yields 1 to 999; 1000 marks the exhausted iterator. */
  const NumberLimit := 1000

  /** The module-level dictionaries and the employee-number iterator. */
  class Store {
    var wageGroups: map<string, WageGroup>
    var employees: map<string, EmployeeDetails>
    /** The keys of `employees` in insertion order, the order of `employees.values()`. */
    var insertionOrder: seq<string>
    /** The value the next call of `next(EMPLOYEE_NUMBERS)` yields. */
    var nextEmployeeNumber: int

    ghost predicate Valid()
      reads this
    {
      && Distinct(insertionOrder)
      && (forall k :: k in insertionOrder <==> k in employees)
      && (forall k :: k in employees ==> employees[k].id == k)
      && 1 <= nextEmployeeNumber <= NumberLimit
      && |insertionOrder| == nextEmployeeNumber - 1
    }

    predicate Consistent()
      reads this
    {
      ReferencesResolve(wageGroups, employees)
    }

    /** The stored employees in insertion order. */
    function Employees(): (r: seq<EmployeeDetails>)
      reads this
      requires Valid()
      ensures forall e :: e in r <==> e in employees.Values
    {
      ValuesInOrderAreValues(insertionOrder, employees);
      ValuesInOrder(insertionOrder, employees)
    }

    /** A freshly started server: no wage groups, no employees, and the
        counter at its first value. */
    constructor ()
      ensures Valid() && Consistent()
      ensures wageGroups == map[] && employees == map[] && insertionOrder == []
      ensures nextEmployeeNumber == 1
    {
      wageGroups := map[];
      employees := map[];
      insertionOrder := [];
      nextEmployeeNumber := 1;
    }

    /** `post_wagegroup`. */
    method PostWagegroup(wagegroup: WageGroup) returns (r: Result<WageGroup>)
      modifies this`wageGroups
      ensures wagegroup.id in old(wageGroups) ==> r == Err(WageGroupExists) && wageGroups == old(wageGroups)
      ensures wagegroup.id !in old(wageGroups) ==>
                r == Ok(wagegroup) && wageGroups == old(wageGroups)[wagegroup.id := wagegroup]
      ensures old(Consistent()) ==> Consistent()
      ensures old(Valid()) ==> Valid()
    {
      if wagegroup.id in wageGroups {
        return Err(WageGroupExists);
      }
      wageGroups := wageGroups[wagegroup.id := wagegroup];
      r := Ok(wagegroup);
    }

    /** `get_wagegroup`. */
    method GetWagegroup(wagegroupId: string) returns (r: Result<WageGroup>)
      ensures r.Err? <==> wagegroupId !in wageGroups
      ensures r.Err? ==> r.error == NotFound
      ensures r.Ok? ==> r.value == wageGroups[wagegroupId]
    {
      if wagegroupId !in wageGroups {
        return Err(NotFound);
      }
      r := Ok(wageGroups[wagegroupId]);
    }

    /** `put_wagegroup`: the body is stored under its own id, so when that
        differs from the path id both entries are present afterwards. */
    method PutWagegroup(wagegroupId: string, wagegroup: WageGroup) returns (r: Result<WageGroup>)
      modifies this`wageGroups
      ensures wagegroupId !in old(wageGroups) ==> r == Err(NotFound) && wageGroups == old(wageGroups)
      ensures wagegroupId in old(wageGroups) ==>
                r == Ok(wagegroup) && wageGroups == old(wageGroups)[wagegroup.id := wagegroup]
      ensures wagegroupId in old(wageGroups) && wagegroup.id != wagegroupId ==>
                wagegroupId in wageGroups && wageGroups[wagegroupId] == old(wageGroups[wagegroupId])
      ensures old(Consistent()) ==> Consistent()
      ensures old(Valid()) ==> Valid()
    {
      if wagegroupId !in wageGroups {
        return Err(NotFound);
      }
      wageGroups := wageGroups[wagegroup.id := wagegroup];
      r := Ok(wagegroup);
    }

    /** `delete_wagegroup`: refused while employees reference the group, with
        the number of those employees as the reported count. */
    method DeleteWagegroup(wagegroupId: string) returns (r: Result<()>)
      requires Valid()
      modifies this`wageGroups
      ensures Valid()
      ensures wagegroupId !in old(wageGroups) ==> r == Err(NotFound) && wageGroups == old(wageGroups)
      ensures wagegroupId in old(wageGroups) && KeysSatisfying(employees, UsesWageGroup(wagegroupId)) != {} ==>
                && r == Err(WageGroupInUse(|KeysSatisfying(employees, UsesWageGroup(wagegroupId))|))
                && wageGroups == old(wageGroups)
      ensures wagegroupId in old(wageGroups) && KeysSatisfying(employees, UsesWageGroup(wagegroupId)) == {} ==>
                r == Ok(()) && wageGroups == old(wageGroups) - {wagegroupId}
      ensures old(Consistent()) ==> Consistent()
    {
      if wagegroupId !in wageGroups {
        return Err(NotFound);
      }
      var usedBy := Filter(Employees(), UsesWageGroup(wagegroupId));
      UsedByCountsReferences(wagegroupId);
      if |usedBy| > 0 {
        return Err(WageGroupInUse(|usedBy|));
      }
      wageGroups := wageGroups - {wagegroupId};
      r := Ok(());
    }

    /** The list comprehension of `delete_wagegroup` has one entry per
        employee that references the group. */
    lemma UsedByCountsReferences(wagegroupId: string)
      requires Valid()
      ensures |Filter(Employees(), UsesWageGroup(wagegroupId))| ==
              |KeysSatisfying(employees, UsesWageGroup(wagegroupId))|
    {
      var p := UsesWageGroup(wagegroupId);
      FilterOfValues(insertionOrder, employees, p);
    }

    /** `post_employee`: the record gets a new id and the next employee
        number; an unknown wage group is refused before a number is taken. */
    method PostEmployee(employee: Employee) returns (r: Result<EmployeeDetails>)
      requires Valid()
      modifies this
      ensures Valid()
      ensures wageGroups == old(wageGroups)
      ensures employee.wagegroupId !in wageGroups ==>
                r == Err(UnknownWageGroup(employee.wagegroupId)) && unchanged(this)
      ensures employee.wagegroupId in wageGroups && old(nextEmployeeNumber) == NumberLimit ==>
                r == Err(NumbersExhausted) && unchanged(this)
      ensures employee.wagegroupId in wageGroups && old(nextEmployeeNumber) < NumberLimit ==>
                && r.Ok?
                && r.value.id !in old(employees)
                && r.value == NewEmployee(r.value.id, old(nextEmployeeNumber), employee)
                && r.value.employeeNumber == |old(insertionOrder)| + 1
                && employees == old(employees)[r.value.id := r.value]
                && insertionOrder == old(insertionOrder) + [r.value.id]
                && nextEmployeeNumber == old(nextEmployeeNumber) + 1
      ensures old(Consistent()) ==> Consistent()
    {
      var wagegroupId := employee.wagegroupId;
      if wagegroupId !in wageGroups {
        return Err(UnknownWageGroup(wagegroupId));
      }
      FreshStringExists(employees.Keys);
      var id: string :| id !in employees;
      if nextEmployeeNumber == NumberLimit {
        return Err(NumbersExhausted);
      }
      var number := nextEmployeeNumber;
      nextEmployeeNumber := nextEmployeeNumber + 1;
      var newEmployee := NewEmployee(id, number, employee);
      DistinctAppend(insertionOrder, id);
      employees := employees[id := newEmployee];
      insertionOrder := insertionOrder + [id];
      r := Ok(newEmployee);
    }

    /** `get_employee`. */
    method GetEmployee(employeeId: string) returns (r: Result<EmployeeDetails>)
      ensures r.Err? <==> employeeId !in employees
      ensures r.Err? ==> r.error == NotFound
      ensures r.Ok? ==> r.value == employees[employeeId]
    {
      if employeeId !in employees {
        return Err(NotFound);
      }
      r := Ok(employees[employeeId]);
    }

    /** `patch_employee`: the stored record is merged with the fields the
        client set and stored back under the same key. */
    method PatchEmployee(employeeId: string, update: EmployeeUpdate) returns (r: Result<EmployeeDetails>)
      requires Valid()
      modifies this`employees
      ensures Valid()
      ensures employeeId !in old(employees) ==> r == Err(NotFound) && employees == old(employees)
      ensures employeeId in old(employees) ==>
                && r == Ok(ApplyUpdate(old(employees[employeeId]), update))
                && r.value.id == employeeId
                && employees == old(employees)[employeeId := r.value]
    {
      if employeeId !in employees {
        return Err(NotFound);
      }
      var updated := ApplyUpdate(employees[employeeId], update);
      employees := employees[employeeId := updated];
      r := Ok(updated);
    }

    /** `get_available_employees`: the employees whose part-time day is not
        `weekday`, in insertion order. */
    method GetAvailableEmployees(weekday: WeekDay) returns (r: seq<EmployeeDetails>)
      requires Valid()
      ensures forall e :: e in r <==> e in employees.Values && e.parttimeDay != Some(weekday)
      ensures forall k :: k in employees && employees[k].parttimeDay == None ==> employees[k] in r
      ensures IsSubsequence(r, Employees())
      ensures |r| == |KeysSatisfying(employees, AvailableOn(weekday))|
    {
      var p := AvailableOn(weekday);
      r := Filter(Employees(), p);
      FilterOfValues(insertionOrder, employees, p);
    }
  }
}
