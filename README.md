# Study groups: entity and controller, in Dafny

This project models the small core of a study-group web service:

- **The `StudyGroup` entity, in both of its copies.** One is in the web project (`TestAssignmentEpam/StudyGroup.cs`) and one in the domain library (`Domain/Entities/StudyGroup.cs`). A group has an id, a name, a subject, a creation date and a member list. Construction throws `WrongStudyGroupException` unless the name is 5 to 30 long, where length is C#'s `string.Length`: a count of UTF-16 code units. The member list is the caller's own `List<User>` object, held by reference. After construction only that list changes: `AddUser` appends and `RemoveUser` drops the first equal member.
- **`StudyGroupController`.** It refuses a null repository at construction. It answers a null group or an id below 1 with `BadRequest` and does not call the repository. Every other request is forwarded to the repository exactly once. The answer is `Ok` or `OkObject(result)`, and anything the repository throws passes through unchanged.

Modules, one per source component:

- `Common` (`common.dfy`): nullable values (`Option`), `Result` for calls that throw, C# `int` as `Int32`, the exceptions, `User`, `Subject` and an opaque `DateTime`. Dafny's `char` is a Unicode scalar value, so for well-formed UTF-16 `Utf16Length` gives C#'s `Length`: one code unit per character, two for a character above U+FFFF.
- `UserLists` (`user_list.dfy`): the .NET `List<User>` as a class `UserList` whose `Items` sequence changes in place. Its `Add`, `IndexOf` and `Remove` follow .NET's documented behaviour. `RemoveFirst` is the reference definition of "remove the first equal element", with lemmas about it.
- `AppEntities` (`app_study_group.dfy`) and `DomainEntities` (`domain_study_group.dfy`): the two entity copies. Each has a class `StudyGroup` and a predicate `Valid()` stating `5 <= Utf16Length(Name) <= 30`. The four get-only properties are `const` fields, so no method can change them. `Users` is also a `const` field: its private setter is used once, by the constructor, and never again. The C# constructor, which can throw, is the static method `Create`, returning a `Result`. The Dafny constructor only captures the fields, and it requires a name that the guard accepts, so no invalid instance can exist. The copies differ in one way. Given a null name, the web-project copy fails with a null dereference (`NullReferenceException`), because it reads `name.Length` without a null test. The domain copy throws `WrongStudyGroupException`.
- `Repositories` (`repository.dfy`): `IStudyGroupRepository`. No implementation of it exists, so the model uses an oracle. `Faults(history, call)` says whether a call throws and what. `Answers(history, call)` gives the `object?` a query returns. Both depend on the calls made before and on the immutable fields of the arguments. Every call is recorded in `Invocations`, and recording it is the only change the modelled repository makes.
- `Controllers` (`controller.dfy`): the controller. Each action states its exact effect on `Invocations`: either no call, or one call with the given arguments. It also states the response, and that a repository exception comes back as the same exception.
- `Scenarios` (`scenarios.dfy`): clients that replay the scenarios of the source's unit and component tests from the contracts alone. They cover the name-length boundaries, lengths in UTF-16 code units, the shared member list, and gating and pass-through in the controller. The comments at `UnitTests/StudyGroupTests.cs:48` and `:76` call their names 30 and 31 characters long. Those names are in fact 29 and 32 characters long, so the scenarios here use names of exactly 30 and 31 characters instead.

`CreateStudyGroup(null)` and `JoinStudyGroup` with an id below 1 do not call the repository: both return `BadRequest` before any repository call (`TestAssignmentEpam/Controllers/StudyGroupController.cs:17-20, 40-43`). Two unit tests expect a call in these cases (`UnitTests/StudyGroupControllerTests.cs:112` and `:125`). They contradict the code and are not modelled.

## Model

| member | source | states |
|---|---|---|
| `Common.SubjectValues` | TestAssignmentEpam/StudyGroup.cs:47-52 | `Subject` has exactly the three values Math, Chemistry and Physics, whose enum constants are distinct |
| `Common.Utf16Length` | TestAssignmentEpam/StudyGroup.cs:14 | `name.Length` counts UTF-16 code units: at least the number of characters and at most twice it |
| `Common.Utf16LengthOfBmp` | Domain/Entities/StudyGroup.cs:9 | for a name with no character above U+FFFF, the length the guard tests is the number of characters |
| `Common.Utf16LengthConcat` | Domain/Entities/StudyGroup.cs:9 | the length the guard tests adds up over concatenation |
| `UserLists.RemoveFirstAbsent` | TestAssignmentEpam/StudyGroup.cs:41-44 | removing a user who is not in the list leaves the list unchanged |
| `UserLists.RemoveFirstAt` | TestAssignmentEpam/StudyGroup.cs:41-44 | when the first occurrence of the user is at position i, exactly that element is removed and the others keep their order |
| `UserLists.RemoveFirstLength` | TestAssignmentEpam/StudyGroup.cs:41-44 | the list gets one shorter if the user was present, and keeps its length otherwise |
| `UserLists.RemoveFirstMultiset` | Domain/Entities/StudyGroup.cs:35-38 | exactly one occurrence of the user is removed; every other member keeps its number of occurrences |
| `UserLists.AddThenRemove` | Domain/Entities/StudyGroup.cs:30-38 | adding a user who was not a member and then removing that user restores the original list |
| `UserLists.UserList.Add` | TestAssignmentEpam/StudyGroup.cs:38 | `List.Add` appends the user at the end, and the earlier elements are unchanged |
| `UserLists.UserList.IndexOf` | TestAssignmentEpam/StudyGroup.cs:43 | the position found is that of the first equal element, or -1 exactly when no element is equal |
| `UserLists.UserList.Remove` | TestAssignmentEpam/StudyGroup.cs:43 | `List.Remove` returns true exactly when the user was present, and the new list is `RemoveFirst` of the old one |
| `AppEntities.NameFault` | TestAssignmentEpam/StudyGroup.cs:14-17 | the guard accepts a name exactly when it is non-null and 5 to 30 UTF-16 code units long; a null name gives a null dereference; a name of the wrong length gives `WrongStudyGroupException` |
| `AppEntities.StudyGroup.constructor` | TestAssignmentEpam/StudyGroup.cs:18-22 | the five fields equal the arguments; `Users` is the caller's list object; the result is `Valid()` |
| `AppEntities.StudyGroup.Create` | TestAssignmentEpam/StudyGroup.cs:12-23 | construction succeeds exactly when the name is non-null and 5 to 30 UTF-16 code units long, and otherwise throws the guard's exception without creating an object; on success the new group is valid, holds the given values and aliases the given list |
| `AppEntities.StudyGroup.AddUser` | TestAssignmentEpam/StudyGroup.cs:36-39 | the user is appended to the shared list; the list reference, the other fields and `Valid()` are unchanged |
| `AppEntities.StudyGroup.RemoveUser` | TestAssignmentEpam/StudyGroup.cs:41-44 | the first equal member is removed, or nothing happens and no error is raised if there is none; the list reference, the other fields and `Valid()` are unchanged |
| `DomainEntities.NameFault` | Domain/Entities/StudyGroup.cs:9-12 | the guard accepts a name exactly when it is non-null and 5 to 30 UTF-16 code units long; every rejected name, null included, gives `WrongStudyGroupException` |
| `DomainEntities.StudyGroup.constructor` | Domain/Entities/StudyGroup.cs:13-17 | the five fields equal the arguments; `Users` is the caller's list object; the result is `Valid()` |
| `DomainEntities.StudyGroup.Create` | Domain/Entities/StudyGroup.cs:7-18 | construction succeeds exactly when the name is non-null and 5 to 30 UTF-16 code units long, and otherwise throws `WrongStudyGroupException` without creating an object; on success the new group is valid, holds the given values and aliases the given list |
| `DomainEntities.StudyGroup.AddUser` | Domain/Entities/StudyGroup.cs:30-33 | the user is appended to the shared list; the list reference, the other fields and `Valid()` are unchanged |
| `DomainEntities.StudyGroup.RemoveUser` | Domain/Entities/StudyGroup.cs:35-38 | the first equal member is removed, or nothing happens if there is none; the list reference, the other fields and `Valid()` are unchanged |
| `Repositories.Repository.CreateStudyGroup` | Domain/Abstract/IStudyGroupRepository.cs:7 | records one create call with the given group, and completes or throws as the oracle says for the earlier calls |
| `Repositories.Repository.GetStudyGroups` | Domain/Abstract/IStudyGroupRepository.cs:8 | records one listing call and answers with `Reply` for the earlier calls |
| `Repositories.Repository.SearchStudyGroups` | Domain/Abstract/IStudyGroupRepository.cs:9 | records one search call with the given filter and answers with `Reply` for the earlier calls |
| `Repositories.Repository.JoinStudyGroup` | Domain/Abstract/IStudyGroupRepository.cs:10 | records one join call with both ids, and completes or throws as the oracle says |
| `Repositories.Repository.LeaveStudyGroup` | Domain/Abstract/IStudyGroupRepository.cs:11 | records one leave call with both ids, and completes or throws as the oracle says |
| `Controllers.StudyGroupController.constructor` | TestAssignmentEpam/Controllers/StudyGroupController.cs:8-12 | stores the injected repository in a read-only field |
| `Controllers.StudyGroupController.Create` | TestAssignmentEpam/Controllers/StudyGroupController.cs:10-13 | construction throws `ArgumentNullException("studyGroupRepository")` exactly when the repository is null; otherwise the controller holds that repository |
| `Controllers.StudyGroupController.CreateStudyGroup` | TestAssignmentEpam/Controllers/StudyGroupController.cs:15-23 | a null group gives `BadRequest` with no repository call; any other group is forwarded exactly once as that same object, and the result is `Ok` or the repository's own exception |
| `Controllers.StudyGroupController.GetStudyGroups` | TestAssignmentEpam/Controllers/StudyGroupController.cs:25-29 | exactly one listing call; the result is `OkObject` of exactly the repository's value, or the repository's own exception |
| `Controllers.StudyGroupController.SearchStudyGroups` | TestAssignmentEpam/Controllers/StudyGroupController.cs:31-35 | exactly one search call with the filter forwarded verbatim, `""` and null included; the result is `OkObject` of exactly the repository's value, or the repository's own exception |
| `Controllers.StudyGroupController.JoinStudyGroup` | TestAssignmentEpam/Controllers/StudyGroupController.cs:37-46 | if either id is below 1, the result is `BadRequest` with no repository call; otherwise exactly one join call with both ids, and the result is `Ok` or the repository's own exception |
| `Controllers.StudyGroupController.LeaveStudyGroup` | TestAssignmentEpam/Controllers/StudyGroupController.cs:48-52 | no validation: always exactly one leave call with both ids, and the result is `Ok` or the repository's own exception |

## Left out

- The modelled repository changes nothing but its call log, and decides only from the history of calls and the immutable fields of the arguments. An implementation that reads or changes a group's member list, for example by calling `AddUser` or `RemoveUser` when a user joins or leaves, is not modelled: the oracle functions cannot read the heap.
- `async`/`Task`: each action runs sequentially. An awaited call either completes or throws, and a throw is the `Failure` of a `Result`.
- ASP.NET's `IActionResult` classes are replaced by the three-case `Response` datatype.
- No concrete repository exists. The interface is modelled by an oracle over the history of calls. A repository whose answers depend on anything besides that history and the arguments, such as time or concurrent clients, is not modelled. The returned `object?` is the opaque type `Payload`.
- AppEntities.NameFault, DomainEntities.NameFault, AppEntities.StudyGroup.Create, DomainEntities.StudyGroup.Create: their contracts cover well-formed UTF-16 names only. A name holding an unpaired surrogate is not modelled, because a Dafny `string` cannot hold one. A C# `string` can, and C# counts each such code unit as 1.
- `DateTime` is an opaque value, because no time arithmetic is performed.
- `User` and `WrongStudyGroupException` are not part of this model. `User` is a datatype with `Id` and `Name`, as the tests build it. `List.Remove` compares users by value. If `User` is a plain class, .NET compares by reference instead. A null `User` element is not modelled either: `List<User>` accepts one, so `AddUser(null)` would append it and `RemoveUser(null)` would drop the first null.
- A null `users` list is not modelled. The constructors accept one without a check, and `AddUser` or `RemoveUser` would then throw `NullReferenceException`.
- A C# enum variable can hold an integer outside its named constants, through a cast. `Subject` here has exactly the three named values.
- Ids are C# 32-bit `int` (`Int32`). They are only compared, never computed with, so there is no overflow to model.
- The test-reporting attribute in `Integration/TestCaseForTestRail.cs` is not modelled, because it has no runtime role.
- `UnitTests/StudyGroupControllerTests.cs:112` and `:125` expect a repository call for a null group and for invalid ids. The code makes no such call, and the model follows the code.
