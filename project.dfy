/** The owner transfer of rexos/project.go: find the project by URN, find the new owner's user
    id by e-mail (or, when no user has that e-mail, by user name), and PATCH the project with
    that user id as owner.

    The resource wrappers are one oracle, `answer`, giving the result of each GET or PATCH;
    JSON decoding and `gjson` lookups are oracles too. */
module ProjectTransfer {
  import opened Wrappers
  import opened Codec
  import opened Http
  import opened Service
  import Query

  datatype Project = Project(name: string, owner: string, urn: string)

  const NoProject := Project("", "", "")

  datatype ProjectBackend = ProjectBackend(
    answer: HalCall<Project> -> HalResult,
    lookup: JsonLookup,
    unmarshalProject: Bytes -> Project)

  const ProjectFailed := "Could not get project. Please make sure you have the correct access rights."
  const NoSuchUser := "Could not get user by username or email. User does not exist."
  const EmailFailed := "Could not get user by email."
  const OwnerUpdateFailed := "Could not update owner for project. Please make sure that you have the correct access rights."

  function FindUserIdByEmail(userResourceURL: string, email: string): string {
    userResourceURL + "/search/findUserIdByEmail?email=" + email
  }

  function FindUserIdByUsername(userResourceURL: string, username: string): string {
    userResourceURL + "/search/findUserIdByUsername?username=" + username
  }

  /** The user lookups the transfer makes: by e-mail, and by user name only when the e-mail
      lookup answered 404. */
  function OwnerLookups(b: ProjectBackend, userResourceURL: string, newOwner: string): (lookups: seq<HalCall<Project>>)
    ensures 1 <= |lookups| <= 2
    ensures lookups[0] == HalGet("User", FindUserIdByEmail(userResourceURL, newOwner))
    ensures |lookups| == 2 <==> b.answer(lookups[0]).Failure? && b.answer(lookups[0]).error.code == StatusNotFound
    ensures |lookups| == 2 ==> lookups[1] == HalGet("User", FindUserIdByUsername(userResourceURL, newOwner))
  {
    var byEmail := HalGet("User", FindUserIdByEmail(userResourceURL, newOwner));
    var emailResult := b.answer(byEmail);
    if emailResult.Failure? && emailResult.error.code == StatusNotFound then
      [byEmail, HalGet("User", FindUserIdByUsername(userResourceURL, newOwner))]
    else [byEmail]
  }

  method TransferProject(projectResourceURL: string, userResourceURL: string, projectUrn: string, newOwner: string,
                         b: ProjectBackend)
    returns (project: Project, ret: Option<Status>, calls: seq<HalCall<Project>>)
    ensures |calls| >= 1 && calls[0] == HalGet("Project", Query.QueryFindByUrn(projectResourceURL, projectUrn))
    ensures b.answer(calls[0]).Failure? ==>
              |calls| == 1 && project == NoProject &&
              ret == Some(Status(b.answer(calls[0]).error.code, ProjectFailed))
    ensures b.answer(calls[0]).Success? ==>
              var found := b.unmarshalProject(b.answer(calls[0]).value);
              var lookups := OwnerLookups(b, userResourceURL, newOwner);
              var user := b.answer(lookups[|lookups| - 1]);
              |calls| >= 1 + |lookups| && calls[1..1 + |lookups|] == lookups &&
              (user.Failure? ==>
                 |calls| == 1 + |lookups| && project == found &&
                 ret == Some(Status(user.error.code, if |lookups| == 1 then EmailFailed else NoSuchUser))) &&
              (user.Success? && newOwner == found.owner ==>
                 |calls| == 1 + |lookups| && project == found && ret.None?) &&
              (user.Success? && newOwner != found.owner ==>
                 var updated := found.(owner := b.lookup(user.value, "userId"));
                 |calls| == 2 + |lookups| && project == updated &&
                 calls[|calls| - 1] == HalPatch(projectResourceURL, GetSelfLinkFromHal(b.answer(calls[0]).value, b.lookup), updated) &&
                 ret == (if b.answer(calls[|calls| - 1]).Failure?
                         then Some(Status(b.answer(calls[|calls| - 1]).error.code, OwnerUpdateFailed)) else None))
  {
    calls := [HalGet("Project", Query.QueryFindByUrn(projectResourceURL, projectUrn))];
    var projectResult := b.answer(calls[0]);
    if projectResult.Failure? {
      return NoProject, Some(Status(projectResult.error.code, ProjectFailed)), calls;
    }
    project := b.unmarshalProject(projectResult.value);

    var query := FindUserIdByEmail(userResourceURL, newOwner);
    calls := calls + [HalGet("User", query)];
    var userIDResult := b.answer(HalGet("User", query));
    if userIDResult.Failure? {
      if userIDResult.error.code == StatusNotFound {
        query := FindUserIdByUsername(userResourceURL, newOwner);
        calls := calls + [HalGet("User", query)];
        userIDResult := b.answer(HalGet("User", query));
        if userIDResult.Failure? {
          return project, Some(Status(userIDResult.error.code, NoSuchUser)), calls;
        }
      } else {
        return project, Some(Status(userIDResult.error.code, EmailFailed)), calls;
      }
    }

    var owner := b.lookup(userIDResult.value, "userId");
    if newOwner == project.owner {
      return project, None, calls;
    }
    project := project.(owner := owner);

    var patch := HalPatch(projectResourceURL, GetSelfLinkFromHal(projectResult.value, b.lookup), project);
    calls := calls + [patch];
    var patchResult := b.answer(patch);
    if patchResult.Failure? {
      return project, Some(Status(patchResult.error.code, OwnerUpdateFailed)), calls;
    }
    ret := None;
  }
}
