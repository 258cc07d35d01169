/** The declarative relation mapping the contract-testing driver reads: for
    each (path, method) of the server, the constraint relations a request body
    or URL must respect, each with the status code a violation is expected to
    produce. Only the arguments of the relations are modelled. */
module UserMappings {

  /** One constructor per relation kind. */
  datatype Relation =
    | UniquePropertyValueConstraint(propertyName: string, value: string, errorCode: int)
    | IdDependency(propertyName: string, getPath: string, errorCode: int)
    | IdReference(propertyName: string, postPath: string, errorCode: int)
    | PathPropertiesConstraint(path: string)

  datatype Dto = WagegroupDto | EmployeeDto | EnergyLabelDto

  datatype HttpMethod = Get | Post | Put | Patch | Delete

  /** The `get_relations` of each DTO class: the wage-group DTO carries two
      relations, the others one; only the energy-label DTO's is a path
      constraint; every other relation names the error code it expects. */
  function GetRelations(dto: Dto): (r: seq<Relation>)
    ensures |r| == if dto == WagegroupDto then 2 else 1
    ensures forall i :: 0 <= i < |r| ==> (r[i].PathPropertiesConstraint? <==> dto == EnergyLabelDto)
    ensures forall i :: 0 <= i < |r| && !r[i].PathPropertiesConstraint? ==> r[i].errorCode in {406, 418, 451}
  {
    match dto
    case WagegroupDto =>
      [ UniquePropertyValueConstraint("id", "Teapot", 418),
        IdReference("wagegroup_id", "/employees", 406) ]
    case EmployeeDto =>
      [ IdDependency("wagegroup_id", "/wagegroups", 451) ]
    case EnergyLabelDto =>
      [ PathPropertiesConstraint("/energy_label/1111AA/10") ]
  }

  /** `DTO_MAPPING`: four distinct (path, method) keys; creating and deleting
      a wage group share one DTO, and no other key maps to it. */
  function DtoMapping(): (m: map<(string, HttpMethod), Dto>)
    ensures |m| == 4
    ensures ("/wagegroups", Post) in m && m[("/wagegroups", Post)] == WagegroupDto
    ensures ("/wagegroups/{wagegroup_id}", Delete) in m && m[("/wagegroups/{wagegroup_id}", Delete)] == WagegroupDto
    ensures ("/employees", Post) in m && m[("/employees", Post)] == EmployeeDto
    ensures ("/energy_label/{zipcode}/{home_number}", Get) in m
    ensures m[("/energy_label/{zipcode}/{home_number}", Get)] == EnergyLabelDto
    ensures forall key :: key in m && m[key] == WagegroupDto ==>
              key == ("/wagegroups", Post) || key == ("/wagegroups/{wagegroup_id}", Delete)
  {
    var k1, k2, k3 := ("/wagegroups", Post), ("/wagegroups/{wagegroup_id}", Delete), ("/employees", Post);
    var k4 := ("/energy_label/{zipcode}/{home_number}", Get);
    assert |k1.0| != |k2.0| && |k1.0| != |k3.0| && |k1.0| != |k4.0|;
    assert |k2.0| != |k3.0| && |k2.0| != |k4.0| && |k3.0| != |k4.0|;
    var m := map[k1 := WagegroupDto, k2 := WagegroupDto, k3 := EmployeeDto, k4 := EnergyLabelDto];
    assert m.Keys == {k1, k2, k3, k4};
    m
  }

  lemma WagegroupRelations()
    ensures GetRelations(WagegroupDto) ==
              [ UniquePropertyValueConstraint("id", "Teapot", 418),
                IdReference("wagegroup_id", "/employees", 406) ]
  {
  }

  lemma EmployeeRelations()
    ensures GetRelations(EmployeeDto) == [ IdDependency("wagegroup_id", "/wagegroups", 451) ]
  {
  }

  lemma EnergyLabelRelations()
    ensures GetRelations(EnergyLabelDto) == [ PathPropertiesConstraint("/energy_label/1111AA/10") ]
  {
  }

  // ---------------------------------------------------------------------
  // Filling in the energy-label path template
  // ---------------------------------------------------------------------

  predicate IsDigit(c: char) {
    '0' <= c <= '9'
  }

  /** `str(n)` for a natural number: decimal digits without leading zeros. */
  function NatToString(n: nat): (s: string)
    ensures |s| > 0 && forall i :: 0 <= i < |s| ==> IsDigit(s[i])
    decreases n
  {
    var digit := ['0' + (n % 10) as char];
    if n < 10 then digit else NatToString(n / 10) + digit
  }

  /** The value of a string of decimal digits. */
  function ParseNat(s: string): nat
    requires forall i :: 0 <= i < |s| ==> IsDigit(s[i])
    decreases |s|
  {
    if s == [] then 0
    else
      var last := s[|s| - 1];
      assert IsDigit(last);
      ParseNat(s[..|s| - 1]) * 10 + (last as int - '0' as int)
  }

  /** Printing a number and reading it back gives the number. */
  lemma {:induction false} ParseNatToString(n: nat)
    ensures ParseNat(NatToString(n)) == n
    decreases n
  {
    var s := NatToString(n);
    if n >= 10 {
      ParseNatToString(n / 10);
      assert s[..|s| - 1] == NatToString(n / 10);
    }
  }

  /** `/energy_label/{zipcode}/{home_number}` with both parameters filled in. */
  function EnergyLabelPath(zipcode: string, homeNumber: nat): string {
    "/energy_label/" + zipcode + "/" + NatToString(homeNumber)
  }

  /** Different six-character zipcodes or different home numbers give
      different paths, so a filled-in path names exactly one pair. */
  lemma {:induction false} EnergyLabelPathInjective(z1: string, h1: nat, z2: string, h2: nat)
    requires |z1| == 6 && |z2| == 6
    requires EnergyLabelPath(z1, h1) == EnergyLabelPath(z2, h2)
    ensures z1 == z2 && h1 == h2
  {
    var p1, p2 := EnergyLabelPath(z1, h1), EnergyLabelPath(z2, h2);
    assert p1[14..20] == z1 && p2[14..20] == z2;
    assert p1[21..] == NatToString(h1) && p2[21..] == NatToString(h2);
    ParseNatToString(h1);
    ParseNatToString(h2);
  }

  /** The path of the energy-label relation is the template filled in with
      zipcode "1111AA" and home number 10, and with no other pair. */
  lemma PathConstraintNames(zipcode: string, homeNumber: nat)
    requires |zipcode| == 6
    ensures GetRelations(EnergyLabelDto)[0].path == EnergyLabelPath("1111AA", 10)
    ensures GetRelations(EnergyLabelDto)[0].path == EnergyLabelPath(zipcode, homeNumber) <==>
              zipcode == "1111AA" && homeNumber == 10
  {
    assert NatToString(10) == "10" by {
      assert NatToString(1) == "1";
    }
    assert EnergyLabelPath("1111AA", 10) == "/energy_label/1111AA/10";
    if GetRelations(EnergyLabelDto)[0].path == EnergyLabelPath(zipcode, homeNumber) {
      EnergyLabelPathInjective(zipcode, homeNumber, "1111AA", 10);
    }
  }
}
