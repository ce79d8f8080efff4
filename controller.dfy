/** The study-group controller: checks the shape of each request, forwards it to the
    injected repository, and answers with one of three responses. Whatever the
    repository throws passes through unchanged. */
module Controllers {
  import opened Common
  import opened Repositories
  import AppEntities

  /** The controller's responses: `OkResult`, `OkObjectResult` and `BadRequestResult`. */
  datatype Response = Ok | OkObject(value: Payload) | BadRequest

  class StudyGroupController {
    /** Read-only: set once by the constructor. */
    const studyGroupRepository: Repository

    constructor (studyGroupRepository: Repository)
      ensures this.studyGroupRepository == studyGroupRepository
    {
      this.studyGroupRepository := studyGroupRepository;
    }

    /** `new StudyGroupController(repository)`: throws for a null repository, naming the parameter. */
    static method Create(studyGroupRepository: Repository?) returns (r: Result<StudyGroupController, Exception>)
      ensures r.Failure? <==> studyGroupRepository == null
      ensures r.Failure? ==> r.error == ArgumentNullException("studyGroupRepository")
      ensures r.Success? ==> fresh(r.value) && r.value.studyGroupRepository == studyGroupRepository
    {
      if studyGroupRepository == null {
        return Failure(ArgumentNullException("studyGroupRepository"));
      }
      var controller := new StudyGroupController(studyGroupRepository);
      r := Success(controller);
    }

    /** A null group is a bad request and reaches no repository; any other group is
        forwarded once, as it is, and answers `Ok` unless the repository throws. */
    method CreateStudyGroup(studyGroup: AppEntities.StudyGroup?) returns (r: Result<Response, Exception>)
      modifies studyGroupRepository
      ensures studyGroup == null ==>
        r == Success(BadRequest) && studyGroupRepository.Invocations == old(studyGroupRepository.Invocations)
      ensures studyGroup != null ==>
        var call := CreateStudyGroupCall(studyGroup);
        var fault := studyGroupRepository.Faults(old(studyGroupRepository.Invocations), call);
        studyGroupRepository.Invocations == old(studyGroupRepository.Invocations) + [call] &&
        (fault.Some? ==> r == Failure(fault.value)) &&
        (fault.None? ==> r == Success(Ok))
    {
      if studyGroup == null {
        return Success(BadRequest);
      }
      var fault := studyGroupRepository.CreateStudyGroup(studyGroup);
      if fault.Some? {
        return Failure(fault.value);
      }
      r := Success(Ok);
    }

    /** Asks the repository once and wraps exactly what it returns. */
    method GetStudyGroups() returns (r: Result<Response, Exception>)
      modifies studyGroupRepository
      ensures
        var reply := studyGroupRepository.Reply(old(studyGroupRepository.Invocations), GetStudyGroupsCall);
        studyGroupRepository.Invocations == old(studyGroupRepository.Invocations) + [GetStudyGroupsCall] &&
        (reply.Failure? ==> r == Failure(reply.error)) &&
        (reply.Success? ==> r == Success(OkObject(reply.value)))
    {
      var reply := studyGroupRepository.GetStudyGroups();
      if reply.Failure? {
        return Failure(reply.error);
      }
      r := Success(OkObject(reply.value));
    }

    /** Forwards `subject` verbatim (the empty string included) and wraps exactly what comes back. */
    method SearchStudyGroups(subject: Option<string>) returns (r: Result<Response, Exception>)
      modifies studyGroupRepository
      ensures
        var call := SearchStudyGroupsCall(subject);
        var reply := studyGroupRepository.Reply(old(studyGroupRepository.Invocations), call);
        studyGroupRepository.Invocations == old(studyGroupRepository.Invocations) + [call] &&
        (reply.Failure? ==> r == Failure(reply.error)) &&
        (reply.Success? ==> r == Success(OkObject(reply.value)))
    {
      var reply := studyGroupRepository.SearchStudyGroups(subject);
      if reply.Failure? {
        return Failure(reply.error);
      }
      r := Success(OkObject(reply.value));
    }

    /** An id below 1 is a bad request and reaches no repository; otherwise both ids are
        forwarded once and the answer is `Ok` unless the repository throws. */
    method JoinStudyGroup(studyGroupId: Int32, userId: Int32) returns (r: Result<Response, Exception>)
      modifies studyGroupRepository
      ensures studyGroupId < 1 || userId < 1 ==>
        r == Success(BadRequest) && studyGroupRepository.Invocations == old(studyGroupRepository.Invocations)
      ensures studyGroupId >= 1 && userId >= 1 ==>
        var call := JoinStudyGroupCall(studyGroupId, userId);
        var fault := studyGroupRepository.Faults(old(studyGroupRepository.Invocations), call);
        studyGroupRepository.Invocations == old(studyGroupRepository.Invocations) + [call] &&
        (fault.Some? ==> r == Failure(fault.value)) &&
        (fault.None? ==> r == Success(Ok))
    {
      if studyGroupId < 1 || userId < 1 {
        return Success(BadRequest);
      }
      var fault := studyGroupRepository.JoinStudyGroup(studyGroupId, userId);
      if fault.Some? {
        return Failure(fault.value);
      }
      r := Success(Ok);
    }

    /** No validation: both ids are always forwarded once; `Ok` unless the repository throws. */
    method LeaveStudyGroup(studyGroupId: Int32, userId: Int32) returns (r: Result<Response, Exception>)
      modifies studyGroupRepository
      ensures
        var call := LeaveStudyGroupCall(studyGroupId, userId);
        var fault := studyGroupRepository.Faults(old(studyGroupRepository.Invocations), call);
        studyGroupRepository.Invocations == old(studyGroupRepository.Invocations) + [call] &&
        (fault.Some? ==> r == Failure(fault.value)) &&
        (fault.None? ==> r == Success(Ok))
    {
      var fault := studyGroupRepository.LeaveStudyGroup(studyGroupId, userId);
      if fault.Some? {
        return Failure(fault.value);
      }
      r := Success(Ok);
    }
  }
}
