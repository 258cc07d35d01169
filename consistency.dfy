/** The relation mapping and the store must agree: every error code a relation
    declares is the code the store raises for the violation it describes, and
    the path the energy-label relation names is the only place with data. */
module Consistency {
  import opened Wrappers
  import opened TestServer
  import opened UserMappings
  import opened Collections

  /** The uniqueness relation of the wage-group DTO expects the code that
      `post_wagegroup` raises for an id already in use. */
  lemma UniqueIdCodeMatchesPost()
    ensures GetRelations(WagegroupDto)[0].UniquePropertyValueConstraint?
    ensures GetRelations(WagegroupDto)[0].propertyName == "id"
    ensures GetRelations(WagegroupDto)[0].errorCode == StatusCode(WageGroupExists)
  {
  }

  /** The id-reference relation of the wage-group DTO expects the code that
      `delete_wagegroup` raises while employees reference the group, whatever
      their number. */
  lemma IdReferenceCodeMatchesDelete(count: nat)
    ensures GetRelations(WagegroupDto)[1].IdReference?
    ensures GetRelations(WagegroupDto)[1].postPath == "/employees"
    ensures GetRelations(WagegroupDto)[1].errorCode == StatusCode(WageGroupInUse(count))
  {
  }

  /** The id-dependency relation of the employee DTO expects the code that
      `post_employee` raises for an unknown wage group. */
  lemma IdDependencyCodeMatchesPost(wagegroupId: string)
    ensures GetRelations(EmployeeDto)[0].IdDependency?
    ensures GetRelations(EmployeeDto)[0].getPath == "/wagegroups"
    ensures GetRelations(EmployeeDto)[0].errorCode == StatusCode(UnknownWageGroup(wagegroupId))
  {
  }

  /** A lookup can return a registered label only at the path the energy-label
      relation names, and at that path a label is registered. */
  lemma {:induction false} PathConstraintIsOnlyLabelledPair(zipcode: string, homeNumber: int, extension: Option<string>)
    requires EnergyLabelQuery(zipcode, homeNumber, extension)
    ensures GetEnergyLabel(zipcode, homeNumber, extension) != NoRegisteredLabel ==>
              GetRelations(EnergyLabelDto)[0].path == EnergyLabelPath(zipcode, homeNumber)
    ensures GetRelations(EnergyLabelDto)[0].path == EnergyLabelPath(zipcode, homeNumber) ==>
              GetEnergyLabel(zipcode, homeNumber, None) == A &&
              GetEnergyLabel(zipcode, homeNumber, Some("C")) == C
  {
    PathConstraintNames(zipcode, homeNumber);
  }

  /** The energy-label lookups named as examples for the server. */
  lemma EnergyLabelExamples()
    ensures GetEnergyLabel("1111AA", 10, Some("C")) == C
    ensures GetEnergyLabel("1111AA", 10, None) == A
    ensures GetEnergyLabel("1111AA", 10, Some("B")) == NoRegisteredLabel
    ensures GetEnergyLabel("1111AA", 11, None) == NoRegisteredLabel
    ensures GetEnergyLabel("0000ZZ", 1, None) == NoRegisteredLabel
  {
  }

  /** Posting the relation's sentinel value "Teapot" twice: the second post
      fails with the code the uniqueness relation declares. */
  method PostTeapotTwice(firstRate: HourlyRate, secondRate: HourlyRate)
    returns (first: Result<WageGroup>, second: Result<WageGroup>)
    ensures first == Ok(WageGroup("Teapot", firstRate))
    ensures second == Err(WageGroupExists)
    ensures StatusCode(second.error) == GetRelations(WagegroupDto)[0].errorCode
  {
    var store := new Store();
    var teapot := GetRelations(WagegroupDto)[0].value;
    first := store.PostWagegroup(WageGroup(teapot, firstRate));
    second := store.PostWagegroup(WageGroup(teapot, secondRate));
  }

  /** Creating wage group "wg1", then employee "Al" in it, then deleting
      "wg1": the employee gets number 1 and the delete fails with a count of
      one, under the code the id-reference relation declares. */
  method DeleteReferencedWageGroup()
    returns (created: Result<WageGroup>, hired: Result<EmployeeDetails>, deleted: Result<()>)
    ensures created == Ok(WageGroup("wg1", 20.0))
    ensures hired.Ok? && hired.value.employeeNumber == 1 && hired.value.wagegroupId == "wg1"
    ensures deleted == Err(WageGroupInUse(1))
    ensures StatusCode(deleted.error) == GetRelations(WagegroupDto)[1].errorCode
  {
    var store := new Store();
    created := store.PostWagegroup(WageGroup("wg1", 20.0));
    hired := store.PostEmployee(Employee("Al", "wg1", None));
    assert KeysSatisfying(store.employees, UsesWageGroup("wg1")) == {hired.value.id};
    deleted := store.DeleteWagegroup("wg1");
  }

  /** An employee posted with an unknown wage group is refused with the code
      the id-dependency relation declares, and takes no employee number: the
      next successful post still gets number 1. */
  method PostWithUnknownWageGroup()
    returns (refused: Result<EmployeeDetails>, accepted: Result<EmployeeDetails>)
    ensures refused == Err(UnknownWageGroup("wg1"))
    ensures StatusCode(refused.error) == GetRelations(EmployeeDto)[0].errorCode
    ensures accepted.Ok? && accepted.value.employeeNumber == 1
  {
    var store := new Store();
    refused := store.PostEmployee(Employee("Al", "wg1", Some(Friday)));
    var _ := store.PostWagegroup(WageGroup("wg1", 20.0));
    accepted := store.PostEmployee(Employee("Al", "wg1", Some(Friday)));
  }

  /** A patch can point an employee at a wage group that does not exist, and
      can overwrite its employee number; its id stays. */
  method PatchToUnknownWageGroup()
    returns (consistentBefore: bool, patched: Result<EmployeeDetails>, consistentAfter: bool)
    ensures consistentBefore && !consistentAfter
    ensures patched.Ok? && patched.value.wagegroupId == "unknown" && patched.value.employeeNumber == 7
  {
    var store := new Store();
    var _ := store.PostWagegroup(WageGroup("wg1", 20.0));
    var hired := store.PostEmployee(Employee("Al", "wg1", None));
    consistentBefore := store.Consistent();
    var id := hired.value.id;
    patched := store.PatchEmployee(id, EmployeeUpdate(None, Some(7), Some("unknown"), None));
    assert patched.value.id == id && id in store.employees;
    consistentAfter := store.Consistent();
  }
}
