/**
 * The course service (service/course.go): upload a course as a teacher,
 * read a course by id, list a teacher's courses, list every course. Every
 * error it returns is built with fmt.Errorf, so none is expected.
 */
module Courses {
  import opened Wrappers
  import opened Entity
  import opened Errs
  import opened ServiceTypes
  import opened UserStorage
  import opened CourseStorage

  /** No two courses share both name and author: what the upload's duplicate check is there to keep. */
  ghost predicate UniqueTitles(rows: seq<Course>) {
    forall i, j :: 0 <= i < j < |rows| ==> !(rows[i].name == rows[j].name && rows[i].author == rows[j].author)
  }

  /**
   * A course added after the (name, author) lookup found nothing keeps
   * titles unique. Empty fields widen the lookup (an empty name matches any
   * course of the author), so this holds for them too.
   */
  lemma UploadKeepsTitlesUnique(rows: seq<Course>, c: Course)
    requires UniqueTitles(rows)
    requires FirstCourse(rows, ByTitle(c.name, c.author)).None?
    ensures UniqueTitles(rows + [c])
  {
    var all := rows + [c];
    forall i, j | 0 <= i < j < |all| ensures !(all[i].name == all[j].name && all[i].author == all[j].author) {
      if j == |rows| {
        assert rows[i] in rows;
        assert !CourseMatches(ByTitle(c.name, c.author), rows[i]);
      }
    }
  }

  /** With an empty name the duplicate check refuses any author who already has a course. */
  lemma EmptyNameMatchesAnyCourseOfAuthor(rows: seq<Course>, author: string, k: nat)
    requires k < |rows| && rows[k].author == author
    ensures FirstCourse(rows, ByTitle("", author)).Some?
  {
    assert rows[k] in rows;
  }

  /** The course UploadCourse builds: the options' fields, attributed to the calling teacher. */
  function NewCourse(options: UploadCourseOptions, teacher: User): Course {
    Course("", options.name, teacher.id, options.author, options.description, options.price, options.courseLanguage)
  }

  /** The error for a caller id that resolves to no user, or whose lookup failed. */
  function UnknownCaller(err: Option<Error>): Error {
    Incidental("can`t find user with this id", err)
  }

  /**
   * What UploadCourse returns, given both tables and the caller's id. A
   * course is created only when no course has its (name, author) and the
   * caller is a teacher; the reply echoes its new id, name and author.
   */
  function UploadCourseResult(courseRows: seq<Course>, userRows: seq<User>, options: UploadCourseOptions,
                              callerId: string, newId: string,
                              courseFault: Fault, userFault: Fault, insertFault: Fault): (r: Result<CreateCourseOutput>)
    ensures r.Err? ==> !IsExpected(r.error)
    ensures courseFault.None? && FirstCourse(courseRows, ByTitle(options.name, options.author)).Some? ==> r.Err?
    ensures r.Ok? ==> courseFault.None? && userFault.None? && insertFault.None?
                      && (forall c :: c in courseRows ==> !CourseMatches(ByTitle(options.name, options.author), c))
                      && r.value == CreateCourseOutput(newId, options.name, options.author)
    ensures r.Ok? ==> exists t :: t in userRows && UserMatches(ById(callerId), t) && t.userType == Teacher
    ensures r.Ok? ==> FirstUser(userRows, ById(callerId)).Some? && FirstUser(userRows, ById(callerId)).value.userType == Teacher
    ensures (forall u :: u in userRows && UserMatches(ById(callerId), u) ==> u.userType != Teacher) ==> r.Err?
  {
    if courseFault.Some? then Err(Incidental("failed to get course", Some(DriverError(courseFault.value))))
    else if FirstCourse(courseRows, ByTitle(options.name, options.author)).Some? then
      Err(Incidental("course with such name and author already created", None))
    else if userFault.Some? then Err(UnknownCaller(Some(DriverError(userFault.value))))
    else match FirstUser(userRows, ById(callerId))
      case None => Err(UnknownCaller(None))
      case Some(user) =>
        if user.userType != Teacher then Err(Incidental("user`s type can`t allow creating a course", None))
        else if insertFault.Some? then Err(Incidental("failed to create a new course", Some(DriverError(insertFault.value))))
        else Ok(CreateCourseOutputOf(CourseStorage.WithDefaultId(NewCourse(options, user), newId)))
  }

  /** What GetCourseById returns: the course with that id, or an error when it is absent or the lookup fails. */
  function GetCourseByIdResult(courseRows: seq<Course>, id: string, fault: Fault): (r: Result<Course>)
    ensures r.Ok? ==> r.value in courseRows && (id != "" ==> r.value.id == id)
    ensures r.Err? <==> fault.Some? || forall c :: c in courseRows ==> !CourseMatches(ByCourseId(id), c)
    ensures r.Err? ==> !IsExpected(r.error)
  {
    if fault.Some? then Err(Incidental("failed to get course", Some(DriverError(fault.value))))
    else match FirstCourse(courseRows, ByCourseId(id))
      case None => Err(Incidental("failed to get course", None))
      case Some(c) => Ok(c)
  }

  /** What GetTeachersList returns: the teacher's courses, only when the id resolves to a teacher. */
  function GetTeachersListResult(courseRows: seq<Course>, userRows: seq<User>, teacherId: string,
                                 userFault: Fault, listFault: Fault): (r: Result<seq<Course>>)
    ensures r.Ok? ==> exists t :: t in userRows && UserMatches(ById(teacherId), t) && t.userType == Teacher
    ensures r.Ok? ==> forall c :: c in r.value <==> c in courseRows && c.teacherId == teacherId
    ensures (forall u :: u in userRows && UserMatches(ById(teacherId), u) ==> u.userType != Teacher) ==> r.Err?
    ensures r.Err? ==> !IsExpected(r.error)
  {
    if userFault.Some? then Err(UnknownCaller(Some(DriverError(userFault.value))))
    else match FirstUser(userRows, ById(teacherId))
      case None => Err(UnknownCaller(None))
      case Some(user) =>
        if user.userType != Teacher then Err(Incidental("user`s type can`t allow getting a course list", None))
        else if listFault.Some? then Err(Incidental("failed to get courses by teacherId", Some(DriverError(listFault.value))))
        else Ok(TaughtBy(courseRows, teacherId))
  }

  /** What GetList returns: the whole table unchanged, or the wrapped failure. */
  function GetListResult(courseRows: seq<Course>, fault: Fault): (r: Result<seq<Course>>)
    ensures r.Ok? <==> fault.None?
    ensures r.Ok? ==> r.value == courseRows
    ensures r.Err? ==> !IsExpected(r.error) && r.error.cause == Some(DriverError(fault.value))
  {
    if fault.Some? then Err(Incidental("failed to get courses by teacherId", Some(DriverError(fault.value))))
    else Ok(courseRows)
  }

  class CourseService {
    const users: UserStore
    const courses: CourseStore

    constructor (users: UserStore, courses: CourseStore)
      ensures this.users == users && this.courses == courses
    {
      this.users := users;
      this.courses := courses;
    }

    /**
     * UploadCourse for the caller `callerId` (the request context's userId,
     * which UploadCourse asserts with ctx.Value("userId").(string)). A course is added exactly
     * when the call succeeds, with TeacherId the caller's user id.
     */
    method UploadCourse(options: UploadCourseOptions, callerId: string, newId: string,
                        courseFault: Fault, userFault: Fault, insertFault: Fault)
      returns (r: Result<CreateCourseOutput>)
      modifies courses
      ensures r == UploadCourseResult(old(courses.courses), users.users, options, callerId, newId,
                                      courseFault, userFault, insertFault)
      ensures r.Ok? ==>
                var teacher := FirstUser(users.users, ById(callerId));
                teacher.Some? && teacher.value.userType == Teacher
                && courses.courses == old(courses.courses) + [CourseStorage.WithDefaultId(NewCourse(options, teacher.value), newId)]
      ensures r.Err? ==> courses.courses == old(courses.courses)
      ensures UniqueTitles(old(courses.courses)) ==> UniqueTitles(courses.courses)
    {
      var existing, err := courses.GetCourse(ByTitle(options.name, options.author), courseFault);
      if err.Some? {
        return Err(Incidental("failed to get course", err));
      }
      if existing.Some? {
        return Err(Incidental("course with such name and author already created", None));
      }
      var user, userErr := users.GetUser(ById(callerId), userFault);
      if userErr.Some? || user.None? {
        return Err(UnknownCaller(userErr));
      }
      if user.value.userType != Teacher {
        return Err(Incidental("user`s type can`t allow creating a course", None));
      }
      ghost var before := courses.courses;
      var created := courses.CreateCourse(NewCourse(options, user.value), newId, insertFault);
      if created.Err? {
        return Err(Incidental("failed to create a new course", Some(created.error)));
      }
      if UniqueTitles(before) {
        UploadKeepsTitlesUnique(before, created.value);
      }
      return Ok(CreateCourseOutputOf(created.value));
    }

    method GetCourseById(id: string, fault: Fault) returns (r: Result<Course>)
      ensures r == GetCourseByIdResult(courses.courses, id, fault)
    {
      var course, err := courses.GetCourse(ByCourseId(id), fault);
      if err.Some? || course.None? {
        return Err(Incidental("failed to get course", err));
      }
      return Ok(course.value);
    }

    method GetTeachersList(teacherId: string, userFault: Fault, listFault: Fault) returns (r: Result<seq<Course>>)
      ensures r == GetTeachersListResult(courses.courses, users.users, teacherId, userFault, listFault)
    {
      var user, err := users.GetUser(ById(teacherId), userFault);
      if err.Some? || user.None? {
        return Err(UnknownCaller(err));
      }
      if user.value.userType != Teacher {
        return Err(Incidental("user`s type can`t allow getting a course list", None));
      }
      var list := courses.GetListByTeacherId(teacherId, listFault);
      if list.Err? {
        return Err(Incidental("failed to get courses by teacherId", Some(list.error)));
      }
      return Ok(list.value);
    }

    method GetList(fault: Fault) returns (r: Result<seq<Course>>)
      ensures r == GetListResult(courses.courses, fault)
    {
      var list := courses.GetList(fault);
      if list.Err? {
        return Err(Incidental("failed to get courses by teacherId", Some(list.error)));
      }
      return Ok(list.value);
    }
  }
}
