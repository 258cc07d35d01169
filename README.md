# In-memory resource server and its relation mapping

This project models the fixture server that a contract-testing driver runs
against, and the relation mapping the driver reads for it.

- **The store** (`TestServer`, `testserver.dfy`). It holds the wage groups and the employees as two maps. It keeps employee insertion order, because the available-employees listing returns `EMPLOYEES.values()` in that order. It has the employee-number iterator `range(1, 1000)`, and the static three-level energy-label table. `TestServer.Store` is a class whose methods are the request handlers. Each method either returns an `HttpError` and leaves the store as it was, or performs one map update. Every contract says what the new state is. The pure parts of the server are functions: the energy-label lookup, the secret-message check, the patch merge and the two list comprehensions.
- **The relation mapping** (`UserMappings`, `mappings.dfy`). It models the `get_relations` lists of the three DTO classes as one `Relation` datatype with a constructor per relation kind. `DTO_MAPPING` is a function returning the map, whose contract states its keys and values.
- **Consistency** (`Consistency`, `consistency.dfy`). Lemmas and small client methods tie the two together. Each error code a relation declares is the code the store raises for that violation. The path of the energy-label relation is the only zipcode/home-number pair with registered data.
- `Collections` (`collections.dfy`) holds the generic filter and subsequence lemmas. `Wrappers` (`wrappers.dfy`) holds `Option`.

Store invariants:
- `Store.Valid()`:
  - the insertion order lists every employee key exactly once;
  - every record's `id` is its key;
  - the counter stays in `1..1000` and is one more than the number of employees, so the numbers handed out are `1, 2, …` in creation order and none repeats.
- `Store.Consistent()`: every employee's wage group is stored. `post_wagegroup`, `put_wagegroup`, `delete_wagegroup` and `post_employee` preserve it. `patch_employee` does not: see `PatchCanBreakReferences` and `PatchToUnknownWageGroup`.

Quirks of the code that the model keeps:
- `patch_employee` can overwrite `employee_number`, because `EmployeeUpdate` carries that field (tests/server/testserver.py:64).
- `put_wagegroup` stores the body under the body's id (tests/server/testserver.py:152). When that id differs from the path id, the old entry stays, and no check is made against a third group with the body's id.
- `patch_employee` does not check that a new `wagegroup_id` exists (tests/server/testserver.py:65, 216-219).

## Model

| member | source | states |
|---|---|---|
| `TestServer.GetMessage` | tests/server/testserver.py:94-97 | fails with 403 (`IncorrectCode`) exactly when the secret code is not 42; otherwise returns the agent greeting |
| `TestServer.StatusCode` | tests/server/testserver.py:94-215 | the status code of each raised error: 404 not found, 418 duplicate wage group, 406 wage group in use, 451 unknown wage group, 403 wrong secret code |
| `TestServer.StatusCodesDistinguishErrors` | tests/server/testserver.py:94-215 | two errors share a status code exactly when they are of the same kind |
| `TestServer.EnergyLabels` | tests/server/testserver.py:72-79 | the table has one zipcode, "1111AA", with one home number, 10, whose extensions are "" (label A) and "C" (label C) |
| `TestServer.GetEnergyLabel` | tests/server/testserver.py:105-115 | total under the framework's parameter bounds; the result is not the sentinel exactly for ("1111AA", 10, no extension) and ("1111AA", 10, "C"); the first gives A and the second C, because an absent extension is looked up as "" |
| `TestServer.NewEmployee` | tests/server/testserver.py:186-190 | the new record carries the generated id and number and copies name, wage group and part-time day from the body |
| `TestServer.ApplyUpdate` | tests/server/testserver.py:216-218 | every field set in the update replaces the stored one and every unset field keeps its stored value; the id never changes |
| `TestServer.EmptyUpdateKeepsRecord` | tests/server/testserver.py:217-218 | an update that sets no field leaves the record unchanged |
| `TestServer.ApplyUpdateIdempotent` | tests/server/testserver.py:217-218 | applying an update twice equals applying it once |
| `TestServer.PatchCanBreakReferences` | tests/server/testserver.py:213-220 | a patch can move an employee to a wage group that is not stored, breaking the reference invariant |
| `TestServer.Store.Employees` | tests/server/testserver.py:70 | the insertion-ordered values hold exactly the records of the employee map |
| `TestServer.Store.constructor` | tests/server/testserver.py:69-71 | a started server has no wage groups, no employees and the counter at 1, and satisfies both invariants |
| `TestServer.Store.PostWagegroup` | tests/server/testserver.py:124-128 | an id already stored fails with 418 and changes nothing; otherwise exactly that key is added, mapped to the body; employees and counter untouched; both invariants are kept |
| `TestServer.Store.GetWagegroup` | tests/server/testserver.py:137-140 | 404 exactly when the id is not stored, else the stored group; changes nothing |
| `TestServer.Store.PutWagegroup` | tests/server/testserver.py:149-153 | an absent path id fails with 404 and changes nothing; otherwise the body is stored under the body's id, so a different path id keeps its old entry; both invariants are kept |
| `TestServer.Store.DeleteWagegroup` | tests/server/testserver.py:162-171 | 404 if absent; 406 if any employee references it, with a count equal to the number of referencing employees; otherwise exactly that key is removed; employees untouched; both invariants are kept |
| `TestServer.Store.UsedByCountsReferences` | tests/server/testserver.py:165-169 | the length of the comprehension's list equals the number of employees whose wage group is the id |
| `TestServer.Store.PostEmployee` | tests/server/testserver.py:180-192 | an unknown wage group fails with 451 and changes nothing, the counter included; an exhausted counter fails and changes nothing; otherwise a record is stored at a fresh key, with the next number, equal to one plus the number of employees before, appended to the insertion order; the counter advances by one; the reference invariant is kept |
| `TestServer.Store.GetEmployee` | tests/server/testserver.py:201-204 | 404 exactly when the id is not stored, else the stored record; changes nothing |
| `TestServer.Store.PatchEmployee` | tests/server/testserver.py:213-220 | 404 if absent and nothing changes; otherwise only that key changes, to the stored record merged with the update; the record keeps its id; insertion order and counter untouched |
| `TestServer.Store.GetAvailableEmployees` | tests/server/testserver.py:224-225 | returns exactly the stored records whose part-time day is not the weekday, always including those without a part-time day, as a subsequence of insertion order, one per qualifying key |
| `Collections.Filter` | tests/server/testserver.py:225 | the filtered list holds only elements of the input that pass, and every passing element of the input |
| `Collections.FilterIsSubsequence` | tests/server/testserver.py:225 | a list comprehension keeps the order of the elements it keeps |
| `Collections.FilterCountsKeys` | tests/server/testserver.py:165-169 | filtering the values of distinct keys yields one element per key whose value passes |
| `Collections.FilterOfValues` | tests/server/testserver.py:225 | filtering a dictionary's values in insertion order keeps exactly the passing values, in order, one per passing key |
| `UserMappings.GetRelations` | tests/user_implemented/custom_user_mappings.py:15-54 | the wage-group DTO has two relations and the others one; only the energy-label DTO's is a path constraint; every other relation expects one of the codes 406, 418, 451 |
| `UserMappings.WagegroupRelations` | tests/user_implemented/custom_user_mappings.py:15-30 | the wage-group DTO has exactly two relations: uniqueness of "id" with sentinel "Teapot" and code 418, then an id reference by "wagegroup_id" from "/employees" with code 406 |
| `UserMappings.EmployeeRelations` | tests/user_implemented/custom_user_mappings.py:33-43 | the employee DTO has exactly one relation: "wagegroup_id" depends on ids from "/wagegroups", code 451 |
| `UserMappings.EnergyLabelRelations` | tests/user_implemented/custom_user_mappings.py:46-54 | the energy-label DTO has exactly one relation: the path "/energy_label/1111AA/10" |
| `UserMappings.DtoMapping` | tests/user_implemented/custom_user_mappings.py:57-62 | four distinct (path, method) keys; both wage-group keys, create and delete, map to the wage-group DTO and no other key does |
| `UserMappings.ParseNatToString` | tests/user_implemented/custom_user_mappings.py:51 | reading back the decimal text of a home number gives the number |
| `UserMappings.EnergyLabelPathInjective` | tests/user_implemented/custom_user_mappings.py:61 | filling the energy-label path template with different six-character zipcodes or different home numbers gives different paths |
| `UserMappings.PathConstraintNames` | tests/user_implemented/custom_user_mappings.py:51 | the relation's path is the template filled with ("1111AA", 10) and with no other pair |
| `Consistency.UniqueIdCodeMatchesPost` | tests/user_implemented/custom_user_mappings.py:19-23 | the uniqueness relation's code equals the code the store raises on a duplicate wage-group id (418) |
| `Consistency.IdReferenceCodeMatchesDelete` | tests/user_implemented/custom_user_mappings.py:24-28 | the id-reference relation's code equals the code the store raises when deleting a referenced wage group (406), for any count |
| `Consistency.IdDependencyCodeMatchesPost` | tests/user_implemented/custom_user_mappings.py:37-41 | the id-dependency relation's code equals the code the store raises for an unknown wage group (451) |
| `Consistency.PathConstraintIsOnlyLabelledPair` | tests/user_implemented/custom_user_mappings.py:50-52 | any lookup that returns a registered label is at the relation's path, and at that path labels A and C are registered |
| `Consistency.EnergyLabelExamples` | tests/server/testserver.py:110-115 | ("1111AA", 10, "C") gives C, ("1111AA", 10, none) gives A, and unknown extensions, home numbers and zipcodes give the sentinel |
| `Consistency.PostTeapotTwice` | tests/server/testserver.py:124-128 | on a fresh store, posting "Teapot" succeeds once and the second post fails with the relation's code 418 |
| `Consistency.DeleteReferencedWageGroup` | tests/server/testserver.py:162-171 | create "wg1", create "Al" in it (number 1), delete "wg1": fails with 406 and count 1, the relation's code |
| `Consistency.PostWithUnknownWageGroup` | tests/server/testserver.py:180-191 | a post naming an unknown wage group fails with the relation's code 451 and consumes no number: the next successful post gets number 1 |
| `Consistency.PatchToUnknownWageGroup` | tests/server/testserver.py:213-220 | on a consistent store, a patch can set an unknown wage group and a new employee number, leaving the store inconsistent |

## Left out

- HTTP routing, decorators, header, path and query plumbing, and the process entry point (`main`, `uvicorn.run`). These are transport, not logic. The framework's parameter bounds on the energy-label endpoint are the precondition `EnergyLabelQuery`: zipcode of length 6, home number at least 1, extension of length 1 to 99.
- The greeting of `get_root` (tests/server/testserver.py:82-85). It is string formatting of two headers with no state.
- Request and response validation and serialisation. The models are plain datatypes with `Option` fields. `exclude_unset` is "field present or absent in the update".
- Error detail strings are not modelled, only the error kind and status code. For example, the not-found texts of `get_wagegroup` and `put_wagegroup`/`delete_wagegroup` differ by a trailing period.
- TestServer.Store.PostEmployee: the id is any string not already a key. It is not a 32-digit hexadecimal uuid4 text, and the model assumes no collision with a stored key, so the collision case that would overwrite a record is not modelled.
- TestServer.Store.PostEmployee: after number 999 the `next` call raises `StopIteration`, which the handler does not turn into an HTTP error. The model returns `NumbersExhausted` and leaves its HTTP response unspecified: `StatusCode` is not defined for it, because what the framework answers is not part of this model. As in the source, this happens after the wage-group check, and the store stays unchanged.
- `hourly_rate` is a float that is only stored and returned. It is modelled as a `real` that the model only stores and returns, and no floating-point behaviour is modelled.
- TestServer.ApplyUpdate: an explicit null sent for `name`, `employee_number` or `wagegroup_id` is stored by the source as null, because the merge does not validate. The model cannot represent null in those fields. Only `parttime_day` distinguishes unset from null (`Some(None)` clears it).
- The insertion order of the wage-group dictionary is not modelled. No endpoint lists wage groups.
- The behaviour of the contract-testing driver's relation classes and generator. Only their constructor arguments are modelled.
- Concurrency. Requests are handled one at a time, and the source has no locks.
