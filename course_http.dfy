/**
 * The /course handlers (controller/http/course.go). The request is given as
 * values: the path id, the context's userId, the body as it binds. For
 * uploadCourse the context's userId is a plain string, as the course
 * service asserts it to be. uuid.Parse is the `isUuid` oracle, of which the
 * model assumes only that it rejects the empty string.
 */
module CourseHandlers {
  import opened Wrappers
  import opened Entity
  import opened Errs
  import opened ServiceTypes
  import opened UserStorage
  import opened CourseStorage
  import opened Courses
  import opened HttpCommon

  /** Uploading and the teacher's own listing need authentication; the public list and a single course do not. */
  function Routes(): (routes: seq<Route>)
    ensures |routes| == 4
    ensures forall r :: r in routes ==> (r.protected <==> r.path == "/course/new" || r.path == "/course/teachers_list")
  {
    [ Route("POST", "/course/new", true),
      Route("GET", "/course/teachers_list", true),
      Route("GET", "/course/list", false),
      Route("GET", "/course/:id", false) ]
  }

  class CourseRouter {
    const service: CourseService
    const isUuid: string -> bool

    /** uuid.Parse rejects the empty string. */
    predicate Valid() {
      !isUuid("")
    }

    constructor (service: CourseService, isUuid: string -> bool)
      requires !isUuid("")
      ensures this.service == service && this.isUuid == isUuid && Valid()
    {
      this.service := service;
      this.isUuid := isUuid;
    }

    /**
     * uploadCourse: a body that does not bind is refused before the service
     * runs; the service result is then classified. Every error the course
     * service returns is unexpected, so a duplicate course or a caller who
     * is not a teacher is answered with the generic Server error.
     */
    method UploadCourse(body: Result<UploadCourseOptions>, callerId: string, newId: string,
                        courseFault: Fault, userFault: Fault, insertFault: Fault)
      returns (reply: Reply<CreateCourseOutput>)
      modifies service.courses
      ensures body.Err? ==> reply == Failure(BodyError(body.error))
      ensures body.Ok? ==>
                reply == Classify(UploadCourseResult(old(service.courses.courses), service.users.users, body.value,
                                                     callerId, newId, courseFault, userFault, insertFault),
                                  "failed to create course")
      ensures reply.Failure? ==> service.courses.courses == old(service.courses.courses)
      ensures reply.Failure? && body.Ok? ==> reply.error.kind == Server && reply.error.message == "failed to create course"
      ensures reply.Success? ==>
                var teacher := FirstUser(service.users.users, ById(callerId));
                teacher.Some? && teacher.value.userType == Teacher
                && service.courses.courses
                   == old(service.courses.courses) + [CourseStorage.WithDefaultId(NewCourse(body.value, teacher.value), newId)]
    {
      if body.Err? {
        return Failure(BodyError(body.error));
      }
      var uploaded := service.UploadCourse(body.value, callerId, newId, courseFault, userFault, insertFault);
      reply := Classify(uploaded, "failed to create course");
    }

    /**
     * getListByTeacherId: the context's userId must be a non-empty string;
     * the list served is the caller's own courses, and only a teacher gets
     * one. Any service failure is a Client error.
     */
    method GetListByTeacherId(identity: Option<string>, userFault: Fault, listFault: Fault)
      returns (reply: Reply<seq<Course>>)
      ensures identity.None? || identity == Some("") ==>
                reply == Failure(ClientError("userId is required and must be a string"))
      ensures identity.Some? && identity.value != "" ==>
                match GetTeachersListResult(service.courses.courses, service.users.users, identity.value, userFault, listFault)
                case Ok(list) => reply == Success(list)
                case Err(e) => reply == Failure(HttpError(Client, "failed to get course list", "", Some(e)))
      ensures reply.Success? ==>
                identity.Some?
                && (exists t :: t in service.users.users && t.id == identity.value && t.userType == Teacher)
                && forall c :: c in reply.body <==> c in service.courses.courses && c.teacherId == identity.value
    {
      if identity.None? || identity.value == "" {
        return Failure(ClientError("userId is required and must be a string"));
      }
      var list := service.GetTeachersList(identity.value, userFault, listFault);
      if list.Err? {
        return Failure(HttpError(Client, "failed to get course list", "", Some(list.error)));
      }
      return Success(list.value);
    }

    /** getList: the whole table, or a Client error. */
    method GetList(fault: Fault) returns (reply: Reply<seq<Course>>)
      ensures fault.None? ==> reply == Success(service.courses.courses)
      ensures fault.Some? ==>
                reply.Failure? && reply.error.kind == Client && reply.error.message == "failed to get course list"
    {
      var list := service.GetList(fault);
      if list.Err? {
        return Failure(HttpError(Client, "failed to get course list", "", Some(list.error)));
      }
      return Success(list.value);
    }

    /**
     * getCourseById: the path id must be a UUID; then the course with that
     * id is served, or a Client error when it is absent or the read fails.
     */
    method GetCourseById(courseId: string, fault: Fault) returns (reply: Reply<Course>)
      requires Valid()
      ensures !isUuid(courseId) ==> reply == Failure(ClientError("invalid course id parameter"))
      ensures isUuid(courseId) ==>
                match GetCourseByIdResult(service.courses.courses, courseId, fault)
                case Ok(c) => reply == Success(c)
                case Err(e) => reply == Failure(HttpError(Client, "failed to get the course", "", Some(e)))
      ensures reply.Success? ==> reply.body in service.courses.courses && reply.body.id == courseId
      ensures isUuid(courseId) && fault.None? && (exists c :: c in service.courses.courses && c.id == courseId) ==>
                reply.Success?
    {
      if !isUuid(courseId) {
        return Failure(ClientError("invalid course id parameter"));
      }
      var course := service.GetCourseById(courseId, fault);
      if course.Err? {
        return Failure(HttpError(Client, "failed to get the course", "", Some(course.error)));
      }
      return Success(course.value);
    }
  }
}
