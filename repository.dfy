/** The repository interface the controller depends on. No implementation exists, so
    one is modelled as an oracle: each call is recorded, and whether it throws, and
    what it returns, may depend on every call made before it and on the arguments'
    immutable fields. The modelled repository changes nothing but its call log. */
module Repositories {
  import opened Common
  import AppEntities

  /** The `object?` that the two query methods complete with; the controller never looks inside. */
  type Payload

  /** One call of the interface, with its arguments. The group a create call carries is
      the web project's copy, the one the controller passes; nothing looks inside it, so
      which copy the interface declares makes no difference to the behaviour. */
  datatype Call =
    | CreateStudyGroupCall(studyGroup: AppEntities.StudyGroup?)
    | GetStudyGroupsCall
    | SearchStudyGroupsCall(subject: Option<string>)
    | JoinStudyGroupCall(studyGroupId: Int32, userId: Int32)
    | LeaveStudyGroupCall(studyGroupId: Int32, userId: Int32)

  class Repository {
    /** The exception a call throws, given the calls made before it; `None` when it completes. */
    const Faults: (seq<Call>, Call) -> Option<Exception>
    /** The value a query completes with, given the calls made before it. */
    const Answers: (seq<Call>, Call) -> Payload
    /** Every call received so far, oldest first. */
    var Invocations: seq<Call>

    constructor (faults: (seq<Call>, Call) -> Option<Exception>, answers: (seq<Call>, Call) -> Payload)
      ensures Faults == faults && Answers == answers && Invocations == []
    {
      Faults := faults;
      Answers := answers;
      Invocations := [];
    }

    /** How a query answers after `history`: the exception it throws, or the value it returns. */
    function Reply(history: seq<Call>, call: Call): (r: Result<Payload, Exception>)
    {
      match Faults(history, call)
      case Some(e) => Failure(e)
      case None => Success(Answers(history, call))
    }

    method CreateStudyGroup(studyGroup: AppEntities.StudyGroup?) returns (fault: Option<Exception>)
      modifies this
      ensures Invocations == old(Invocations) + [CreateStudyGroupCall(studyGroup)]
      ensures fault == Faults(old(Invocations), CreateStudyGroupCall(studyGroup))
    {
      fault := Faults(Invocations, CreateStudyGroupCall(studyGroup));
      Invocations := Invocations + [CreateStudyGroupCall(studyGroup)];
    }

    method GetStudyGroups() returns (r: Result<Payload, Exception>)
      modifies this
      ensures Invocations == old(Invocations) + [GetStudyGroupsCall]
      ensures r == Reply(old(Invocations), GetStudyGroupsCall)
    {
      r := Reply(Invocations, GetStudyGroupsCall);
      Invocations := Invocations + [GetStudyGroupsCall];
    }

    method SearchStudyGroups(subject: Option<string>) returns (r: Result<Payload, Exception>)
      modifies this
      ensures Invocations == old(Invocations) + [SearchStudyGroupsCall(subject)]
      ensures r == Reply(old(Invocations), SearchStudyGroupsCall(subject))
    {
      r := Reply(Invocations, SearchStudyGroupsCall(subject));
      Invocations := Invocations + [SearchStudyGroupsCall(subject)];
    }

    method JoinStudyGroup(studyGroupId: Int32, userId: Int32) returns (fault: Option<Exception>)
      modifies this
      ensures Invocations == old(Invocations) + [JoinStudyGroupCall(studyGroupId, userId)]
      ensures fault == Faults(old(Invocations), JoinStudyGroupCall(studyGroupId, userId))
    {
      fault := Faults(Invocations, JoinStudyGroupCall(studyGroupId, userId));
      Invocations := Invocations + [JoinStudyGroupCall(studyGroupId, userId)];
    }

    method LeaveStudyGroup(studyGroupId: Int32, userId: Int32) returns (fault: Option<Exception>)
      modifies this
      ensures Invocations == old(Invocations) + [LeaveStudyGroupCall(studyGroupId, userId)]
      ensures fault == Faults(old(Invocations), LeaveStudyGroupCall(studyGroupId, userId))
    {
      fault := Faults(Invocations, LeaveStudyGroupCall(studyGroupId, userId));
      Invocations := Invocations + [LeaveStudyGroupCall(studyGroupId, userId)];
    }
  }
}
