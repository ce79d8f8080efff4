/** The study-group entity of the domain library: a group whose name is 5 to 30
    characters long and whose member list is the caller's own list object. */
module DomainEntities {
  import opened Common
  import opened UserLists

  /** The exception the constructor's guard throws for `name`, if any. Lengths are counted
      as C# counts them, in UTF-16 code units. This copy tests for null first, so every
      rejected name gives the domain exception. */
  function NameFault(name: Option<string>): (r: Option<Exception>)
    ensures r.None? <==> name.Some? && 5 <= Utf16Length(name.value) <= 30
    ensures r.Some? ==> r.value == WrongStudyGroupException
  {
    if name.None? || Utf16Length(name.value) < 5 || Utf16Length(name.value) > 30 then Some(WrongStudyGroupException) else None
  }

  class StudyGroup {
    const StudyGroupId: Int32
    const Name: string
    const Subject: Subject
    const CreateDate: DateTime
    /** Its private setter is used once, by the constructor, and never again. */
    const Users: UserList

    /** The one invariant of the entity. */
    ghost predicate Valid()
    {
      5 <= Utf16Length(Name) <= 30
    }

    /** The field captures that follow the guard; only a name the guard accepts reaches them. */
    constructor (studyGroupId: Int32, name: string, subject: Subject, createDate: DateTime, users: UserList)
      requires 5 <= Utf16Length(name) <= 30
      ensures Valid()
      ensures StudyGroupId == studyGroupId && Name == name && Subject == subject && CreateDate == createDate
      ensures Users == users
    {
      StudyGroupId := studyGroupId;
      Name := name;
      Subject := subject;
      CreateDate := createDate;
      Users := users;
    }

    /** `new StudyGroup(...)`: throws the domain exception for a null name or one of the
        wrong length, otherwise a valid group holding the four values and the very list
        object passed in. */
    static method Create(studyGroupId: Int32, name: Option<string>, subject: Subject, createDate: DateTime, users: UserList)
      returns (r: Result<StudyGroup, Exception>)
      ensures r.Failure? <==> !(name.Some? && 5 <= Utf16Length(name.value) <= 30)
      ensures r.Failure? ==> r.error == WrongStudyGroupException
      ensures r.Success? ==> fresh(r.value) && r.value.Valid()
      ensures r.Success? ==> r.value.StudyGroupId == studyGroupId && Some(r.value.Name) == name
                             && r.value.Subject == subject && r.value.CreateDate == createDate
      ensures r.Success? ==> r.value.Users == users && r.value.Users.Items == users.Items
    {
      var fault := NameFault(name);
      if fault.Some? {
        return Failure(fault.value);
      }
      var group := new StudyGroup(studyGroupId, name.value, subject, createDate, users);
      r := Success(group);
    }

    /** Appends `user` to the shared list; nothing else about the group changes. */
    method AddUser(user: User)
      requires Valid()
      modifies Users
      ensures Valid()
      ensures Users.Items == old(Users.Items) + [user]
    {
      Users.Add(user);
    }

    /** Drops the first member equal to `user`; does nothing, without error, when there is none. */
    method RemoveUser(user: User)
      requires Valid()
      modifies Users
      ensures Valid()
      ensures Users.Items == RemoveFirst(old(Users.Items), user)
    {
      var _ := Users.Remove(user);
    }
  }
}
