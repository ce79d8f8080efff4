/** Clients of the model that replay the scenarios of the source's unit and component
    tests using only the contracts above. */
module Scenarios {
  import opened Common
  import opened UserLists
  import AppEntities
  import DomainEntities
  import opened Repositories
  import opened Controllers

  /** Names of exactly 5 and 30 characters are accepted, "Study" among them. */
  method AcceptsBoundaryLengths(date: DateTime, longest: string)
    requires InBmp(longest) && |longest| == 30
  {
    var users := new UserList([]);
    var study := "Study";
    Utf16LengthOfBmp(study);
    Utf16LengthOfBmp(longest);
    var five := AppEntities.StudyGroup.Create(1, Some(study), Physics, date, users);
    assert five.Success?;
    var thirty := AppEntities.StudyGroup.Create(1, Some(longest), Chemistry, date, users);
    assert thirty.Success?;
  }

  /** Names of 4 and 31 characters are rejected, "Math" among them, and so is null. */
  method RejectsOutsideLengths(date: DateTime, tooLong: string)
    requires InBmp(tooLong) && |tooLong| == 31
  {
    var users := new UserList([]);
    var maths := "Math";
    Utf16LengthOfBmp(maths);
    Utf16LengthOfBmp(tooLong);
    var four := AppEntities.StudyGroup.Create(1, Some(maths), Math, date, users);
    assert four == Failure(WrongStudyGroupException);
    var thirtyOne := AppEntities.StudyGroup.Create(1, Some(tooLong), Math, date, users);
    assert thirtyOne == Failure(WrongStudyGroupException);
    var missing := AppEntities.StudyGroup.Create(1, None, Math, date, users);
    assert missing == Failure(NullReferenceException);
    var domainMissing := DomainEntities.StudyGroup.Create(1, None, Math, date, users);
    assert domainMissing == Failure(WrongStudyGroupException);
  }

  /** Length is C#'s UTF-16 length: three characters above U+FFFF make 6 code units and
      are accepted; sixteen of them make 32 and are rejected. */
  method NameLengthInCodeUnits(date: DateTime)
  {
    var users := new UserList([]);
    var three := DomainEntities.StudyGroup.Create(1, Some("\U{1D538}\U{1D539}\U{1D53B}"), Math, date, users);
    assert three.Success?;
    var two := "\U{1F600}\U{1F600}";
    var four := two + two;
    Utf16LengthConcat(two, two);
    var eight := four + four;
    Utf16LengthConcat(four, four);
    var sixteen := eight + eight;
    Utf16LengthConcat(eight, eight);
    var rejected := AppEntities.StudyGroup.Create(1, Some(sixteen), Math, date, users);
    assert rejected == Failure(WrongStudyGroupException);
  }

  /** The group and its creator share one list: a member added through the group is
      seen through the creator's reference, and removing it restores the list. */
  method SharedMemberList(date: DateTime)
  {
    var john := User(1, "John Doe");
    var users := new UserList([]);
    var created := DomainEntities.StudyGroup.Create(1, Some("Test Group"), Math, date, users);
    var group := created.value;
    group.AddUser(john);
    assert users.Items == [john];
    group.RemoveUser(User(2, "Jane Roe"));
    assert users.Items == [john];
    group.RemoveUser(john);
    assert users.Items == [];
    assert group.Name == "Test Group";
  }

  /** Invalid requests never reach the repository; a valid join that the repository
      refuses surfaces the repository's own exception. */
  method ControllerGating(answer: Payload)
  {
    var notFound := OtherException("ArgumentException", "Study group not found");
    var repository := new Repository(
      (history: seq<Call>, call: Call) => if call.JoinStudyGroupCall? then Some(notFound) else None,
      (history: seq<Call>, call: Call) => answer);
    var controller := new StudyGroupController(repository);

    var r := controller.CreateStudyGroup(null);
    assert r == Success(BadRequest) && repository.Invocations == [];
    r := controller.JoinStudyGroup(-1, -1);
    assert r == Success(BadRequest) && repository.Invocations == [];
    r := controller.JoinStudyGroup(1, 42);
    assert r == Failure(notFound) && repository.Invocations == [JoinStudyGroupCall(1, 42)];
    r := controller.SearchStudyGroups(Some(""));
    assert r == Success(OkObject(answer));
    assert repository.Invocations == [JoinStudyGroupCall(1, 42), SearchStudyGroupsCall(Some(""))];
    r := controller.LeaveStudyGroup(1, 42);
    assert r == Success(Ok);
  }
}
