/**
 * The course table (storage/course.go). GetCourse builds its query like
 * GetUser: a WHERE clause per non-empty filter field, then the first match,
 * with no match as (nil, nil). CreateCourse inserts a row. The two list
 * reads the course service relies on, GetListByTeacherId and GetList, have
 * no implementation in storage/course.go; they are modelled by what their
 * names and their callers say: every course of one teacher, every course,
 * in table order.
 */
module CourseStorage {
  import opened Wrappers
  import opened Entity
  import opened Errs

  /**
   * GetCourseFilter. Name and Author come from the storage's own filter;
   * Id is the field the by-id lookup of the course service sets. An empty
   * field places no constraint (the upload's duplicate check leaves Id empty).
   */
  datatype CourseFilter = CourseFilter(name: string, author: string, id: string)

  function ByTitle(name: string, author: string): CourseFilter { CourseFilter(name, author, "") }

  function ByCourseId(id: string): CourseFilter { CourseFilter("", "", id) }

  predicate CourseMatches(f: CourseFilter, c: Course) {
    (f.name != "" ==> c.name == f.name)
    && (f.author != "" ==> c.author == f.author)
    && (f.id != "" ==> c.id == f.id)
  }

  /** The first course of the table that the filter matches, if any. */
  function FirstCourse(rows: seq<Course>, f: CourseFilter): (r: Option<Course>)
    ensures r.Some? ==> r.value in rows && CourseMatches(f, r.value)
    ensures r.None? <==> forall c :: c in rows ==> !CourseMatches(f, c)
  {
    if rows == [] then None
    else if CourseMatches(f, rows[0]) then Some(rows[0])
    else FirstCourse(rows[1..], f)
  }

  /** A matching course preceded only by courses that do not match is the one found. */
  lemma {:induction false} FirstCourseIsFirst(rows: seq<Course>, f: CourseFilter, k: nat)
    requires k < |rows| && CourseMatches(f, rows[k])
    requires forall j :: 0 <= j < k ==> !CourseMatches(f, rows[j])
    ensures FirstCourse(rows, f) == Some(rows[k])
  {
    if k > 0 {
      FirstCourseIsFirst(rows[1..], f, k - 1);
    }
  }

  /** The courses whose TeacherId is `teacherId`, in table order. */
  function TaughtBy(rows: seq<Course>, teacherId: string): (r: seq<Course>)
    ensures |r| <= |rows|
    ensures forall c :: c in r <==> c in rows && c.teacherId == teacherId
  {
    if rows == [] then []
    else if rows[0].teacherId == teacherId then [rows[0]] + TaughtBy(rows[1..], teacherId)
    else TaughtBy(rows[1..], teacherId)
  }

  /** Each of the teacher's courses is listed as many times as the table holds it, and no other course is listed. */
  lemma {:induction false} TaughtByCounts(rows: seq<Course>, teacherId: string, c: Course)
    ensures multiset(TaughtBy(rows, teacherId))[c] == (if c.teacherId == teacherId then multiset(rows)[c] else 0)
  {
    if rows != [] {
      assert rows == [rows[0]] + rows[1..];
      TaughtByCounts(rows[1..], teacherId, c);
    }
  }

  /**
   * The listing keeps table order: listing two stretches of the table one
   * after the other gives the listing of the whole.
   */
  lemma {:induction false} TaughtByKeepsOrder(front: seq<Course>, back: seq<Course>, teacherId: string)
    ensures TaughtBy(front + back, teacherId) == TaughtBy(front, teacherId) + TaughtBy(back, teacherId)
  {
    if front == [] {
      assert front + back == back;
    } else {
      var whole := front + back;
      assert whole[0] == front[0];
      assert whole[1..] == front[1..] + back;
      var head := if front[0].teacherId == teacherId then [front[0]] else [];
      assert TaughtBy(front, teacherId) == head + TaughtBy(front[1..], teacherId);
      assert TaughtBy(whole, teacherId) == head + TaughtBy(front[1..] + back, teacherId);
      TaughtByKeepsOrder(front[1..], back, teacherId);
      assert head + (TaughtBy(front[1..], teacherId) + TaughtBy(back, teacherId))
          == (head + TaughtBy(front[1..], teacherId)) + TaughtBy(back, teacherId);
    }
  }


  /** One WHERE clause of the query GetCourse builds. */
  datatype CourseClause = NameIs(name: string) | AuthorIs(author: string) | IdIs(id: string)

  predicate Holds(cl: CourseClause, c: Course) {
    match cl
    case NameIs(n) => c.name == n
    case AuthorIs(a) => c.author == a
    case IdIs(i) => c.id == i
  }

  predicate SatisfiesAll(c: Course, stmt: seq<CourseClause>) {
    forall cl :: cl in stmt ==> Holds(cl, c)
  }

  /** The row a create stores: the primary key defaults to a generated UUID when left empty. */
  function WithDefaultId(c: Course, newId: string): Course {
    if c.id == "" then c.(id := newId) else c
  }

  class CourseStore {
    var courses: seq<Course>

    constructor (courses: seq<Course>)
      ensures this.courses == courses
    {
      this.courses := courses;
    }

    /** GetCourse: (first match, nil), (nil, nil) when nothing matches, or (nil, driver error). */
    method GetCourse(filter: CourseFilter, fault: Fault) returns (course: Option<Course>, err: Option<Error>)
      ensures fault.Some? ==> course.None? && err == Some(DriverError(fault.value))
      ensures fault.None? ==> err.None? && course == FirstCourse(courses, filter)
      ensures course.Some? ==> course.value in courses && CourseMatches(filter, course.value)
      ensures err.None? && course.None? ==> forall c :: c in courses ==> !CourseMatches(filter, c)
    {
      var stmt: seq<CourseClause> := [];
      if filter.name != "" {
        stmt := stmt + [NameIs(filter.name)];
      }
      if filter.author != "" {
        stmt := stmt + [AuthorIs(filter.author)];
      }
      if filter.id != "" {
        stmt := stmt + [IdIs(filter.id)];
      }
      assert forall c :: SatisfiesAll(c, stmt) <==> CourseMatches(filter, c) by {
        forall c ensures SatisfiesAll(c, stmt) <==> CourseMatches(filter, c) {
          if CourseMatches(filter, c) {
            assert forall cl :: cl in stmt ==> Holds(cl, c);
          }
          if SatisfiesAll(c, stmt) && filter.name != "" {
            assert Holds(NameIs(filter.name), c);
          }
          if SatisfiesAll(c, stmt) && filter.author != "" {
            assert Holds(AuthorIs(filter.author), c);
          }
          if SatisfiesAll(c, stmt) && filter.id != "" {
            assert Holds(IdIs(filter.id), c);
          }
        }
      }
      if fault.Some? {
        return None, Some(DriverError(fault.value));
      }
      var i := 0;
      while i < |courses| && !SatisfiesAll(courses[i], stmt)
        invariant i <= |courses|
        invariant FirstCourse(courses[i..], filter) == FirstCourse(courses, filter)
      {
        assert courses[i..][1..] == courses[i + 1..];
        i := i + 1;
      }
      if i == |courses| {
        return None, None;
      }
      return Some(courses[i]), None;
    }

    /** CreateCourse: (the inserted row, nil) or (nil, driver error) with the table unchanged. */
    method CreateCourse(course: Course, newId: string, fault: Fault) returns (r: Result<Course>)
      modifies this
      ensures fault.Some? ==> r == Err(DriverError(fault.value)) && courses == old(courses)
      ensures fault.None? ==> r == Ok(WithDefaultId(course, newId)) && courses == old(courses) + [r.value]
    {
      if fault.Some? {
        return Err(DriverError(fault.value));
      }
      var row := WithDefaultId(course, newId);
      courses := courses + [row];
      return Ok(row);
    }

    /** GetListByTeacherId: every course of the teacher, or the driver's error. */
    method GetListByTeacherId(teacherId: string, fault: Fault) returns (r: Result<seq<Course>>)
      ensures fault.Some? ==> r == Err(DriverError(fault.value))
      ensures fault.None? ==> r == Ok(TaughtBy(courses, teacherId))
      ensures r.Ok? ==> forall c :: c in r.value <==> c in courses && c.teacherId == teacherId
    {
      if fault.Some? {
        return Err(DriverError(fault.value));
      }
      return Ok(TaughtBy(courses, teacherId));
    }

    /** GetList: every course, or the driver's error. */
    method GetList(fault: Fault) returns (r: Result<seq<Course>>)
      ensures fault.Some? ==> r == Err(DriverError(fault.value))
      ensures fault.None? ==> r == Ok(courses)
    {
      if fault.Some? {
        return Err(DriverError(fault.value));
      }
      return Ok(courses);
    }
  }
}
