/** The course handlers: create, update, delete, read with the lesson
    projection, enroll, and the progress update. Each handler runs against
    the store with early error returns; a thrown error becomes a 500. */
module CourseController {
  import opened Common
  import opened CourseModel
  import opened UserModel
  import opened Db
  import opened Projection
  import opened Auth

  /** The outcome of the ownership gate: `Crash` is the TypeError of calling
      `includes` on `course.instructors`. */
  datatype Access = Allowed | Forbidden | Crash

  /** The gate of update and delete: an admin passes; otherwise a caller is
      needed, and then the handler reads `course.instructors`. The Course
      schema declares no such path, so the loaded document answers undefined
      and the call to `includes` throws, whatever the course holds. */
  function OwnerCheck(caller: Option<Payload>): (r: Access)
    ensures r == Allowed <==> caller.Some? && caller.value.role == "admin"
    ensures r == Forbidden <==> caller.None?
    ensures r == Crash <==> caller.Some? && caller.value.role != "admin"
  {
    if caller.Some? && caller.value.role == "admin" then Allowed
    else if caller.None? then Forbidden
    else Crash
  }

  /** Some listed id names a user whose role is "instructor". */
  predicate HasInstructor(users: seq<User>, ids: seq<Id>) {
    exists i :: 0 <= i < |users| && users[i].id in ids && users[i].role == "instructor"
  }

  /** createCourse. `newId` is the id the store gives the new document. */
  method CreateCourse(db: Store, body: CourseInput, instructors: seq<Id>, newId: Id) returns (res: Response)
    requires db.Valid() && newId !in db.courses
    modifies db
    ensures db.Valid() && db.lessons == old(db.lessons) && db.users == old(db.users)
    ensures !HasInstructor(old(db.users), instructors) ==> res.code == 400 && db.courses == old(db.courses)
    ensures HasInstructor(old(db.users), instructors) && ValidCourse(NewCourse(body)) ==>
      res.code == 201 && db.courses == old(db.courses)[newId := PreSave(NewCourse(body))]
    ensures HasInstructor(old(db.users), instructors) && !ValidCourse(NewCourse(body)) ==>
      res.code == 500 && db.courses == old(db.courses)
  {
    if !HasInstructor(db.users, instructors) {
      return Response(400, "At least one valid instructor is required");
    }
    var ok := db.SaveCourse(newId, NewCourse(body));
    if !ok {
      return Response(500, "Failed to create course");
    }
    res := Response(201, "");
  }

  /** updateCourse: `Object.assign` of the body, then save. */
  method UpdateCourse(db: Store, caller: Option<Payload>, courseId: Id, patch: CoursePatch) returns (res: Response)
    requires db.Valid()
    modifies db
    ensures db.Valid() && db.lessons == old(db.lessons) && db.users == old(db.users)
    ensures res.code == 404 <==> courseId !in old(db.courses)
    ensures courseId !in old(db.courses) ==> db.courses == old(db.courses)
    ensures courseId in old(db.courses) ==>
      var c := old(db.courses)[courseId];
      match OwnerCheck(caller)
      case Forbidden => res.code == 403 && db.courses == old(db.courses)
      case Crash => res.code == 500 && db.courses == old(db.courses)
      case Allowed =>
        if ValidCourse(Assigned(c, patch))
        then res.code == 200 && db.courses == old(db.courses)[courseId := PreSave(Assigned(c, patch))]
        else res.code == 500 && db.courses == old(db.courses)
  {
    if courseId !in db.courses {
      return Response(404, "Course not found");
    }
    var c := db.courses[courseId];
    var access := OwnerCheck(caller);
    if access == Forbidden {
      return Response(403, "Not authorized to update this course");
    } else if access == Crash {
      return Response(500, "Failed to update course");
    }
    var ok := db.SaveCourse(courseId, Assigned(c, patch));
    if !ok {
      return Response(500, "Failed to update course");
    }
    res := Response(200, "Course updated successfully");
  }

  /** deleteCourse. */
  method DeleteCourse(db: Store, caller: Option<Payload>, courseId: Id) returns (res: Response)
    requires db.Valid()
    modifies db
    ensures db.Valid() && db.lessons == old(db.lessons) && db.users == old(db.users)
    ensures res.code == 404 <==> courseId !in old(db.courses)
    ensures courseId !in old(db.courses) ==> db.courses == old(db.courses)
    ensures courseId in old(db.courses) ==>
      match OwnerCheck(caller)
      case Forbidden => res.code == 403 && db.courses == old(db.courses)
      case Crash => res.code == 500 && db.courses == old(db.courses)
      case Allowed => res.code == 200 && db.courses == old(db.courses) - {courseId}
  {
    if courseId !in db.courses {
      return Response(404, "Course not found");
    }
    var access := OwnerCheck(caller);
    if access == Forbidden {
      return Response(403, "Not authorized to delete this course");
    } else if access == Crash {
      return Response(500, "Failed to delete course");
    }
    db.courses := db.courses - {courseId};
    res := Response(200, "Course deleted successfully");
  }

  /** getCourseById with its lesson projection. The route runs no
      authentication, so `caller` is the id of `req.user` if one is set. */
  method GetCourseById(db: Store, caller: Option<Id>, courseId: Id) returns (res: Response, lessons: seq<LessonView>)
    ensures courseId !in db.courses ==> res.code == 404 && lessons == []
    ensures courseId in db.courses ==>
      match Project(db.courses[courseId], db.lessons, db.UserIds(), caller)
      case None => res.code == 500 && lessons == []
      case Some(vs) => res.code == 200 && lessons == vs
  {
    lessons := [];
    if courseId !in db.courses {
      return Response(404, "Course not found"), lessons;
    }
    var projected := Project(db.courses[courseId], db.lessons, db.UserIds(), caller);
    if projected.None? {
      return Response(500, "Failed to fetch course"), lessons;
    }
    lessons := projected.value;
    res := Response(200, "");
  }

  // ---------------------------------------------------------------------------
  // Enrollment

  /** The ledger enrollInCourse seeds: one entry per flat lesson reference,
      none completed. Each entry copies `l.lesson` from a plain id, which has
      no such field, so no entry refers to a lesson. */
  function SeedLedger(lessons: seq<Id>): (r: seq<LessonProgress>)
    ensures |r| == |lessons|
    ensures forall k :: 0 <= k < |r| ==> !r[k].completed && r[k].lesson.None? && r[k].completedAt.None?
  {
    seq(|lessons|, _ => LessonProgress(None, false, None))
  }

  /** How many enrollments a user has in a course. */
  function EnrollmentCount(students: seq<Enrollment>, uid: Id): nat {
    if |students| == 0 then 0
    else (if students[|students| - 1].student == uid then 1 else 0) + EnrollmentCount(students[..|students| - 1], uid)
  }

  /** There is no duplicate check: each enrollment adds one record for the
      user and none for anybody else. */
  lemma EnrollAddsOne(students: seq<Enrollment>, e: Enrollment, uid: Id)
    ensures EnrollmentCount(students + [e], uid) == EnrollmentCount(students, uid) + (if e.student == uid then 1 else 0)
  {
    assert (students + [e])[..|students|] == students;
  }

  /** A caller who enrolls for the first time sees no lesson completed. */
  lemma {:induction false} FirstEnrollmentShowsNothingCompleted(
    c: Course, lessons: map<Id, LessonModel.Lesson>, userIds: set<Id>, uid: Id)
    requires forall i :: 0 <= i < |c.students| ==> !IsCallerEnrollment(c.students[i], userIds, Some(uid))
    ensures var after := PreSave(c.(students := c.students + [Enrollment(uid, SeedLedger(c.lessons))]));
      Project(after, lessons, userIds, Some(uid)).Some? ==>
        forall v :: v in Project(after, lessons, userIds, Some(uid)).value ==> !v.completed
  {
    var after := PreSave(c.(students := c.students + [Enrollment(uid, SeedLedger(c.lessons))]));
    CompletedFromLedger(after, lessons, userIds, Some(uid));
    var ledger := CallerLedger(after.students, userIds, Some(uid));
    assert ledger.Some? ==> ledger.value == SeedLedger(c.lessons) by {
      if ledger.Some? {
        var i :| 0 <= i < |after.students| && IsCallerEnrollment(after.students[i], userIds, Some(uid)) &&
          ledger.value == after.students[i].progress;
        assert i == |c.students|;
      }
    }
  }

  /** enrollInCourse: the course lookup comes before the user check. */
  method EnrollInCourse(db: Store, userId: Option<Id>, courseId: Id) returns (res: Response)
    requires db.Valid()
    modifies db
    ensures db.Valid() && db.lessons == old(db.lessons) && db.users == old(db.users)
    ensures courseId !in old(db.courses) ==> res.code == 404 && db.courses == old(db.courses)
    ensures courseId in old(db.courses) && !Truthy(userId) ==> res.code == 400 && db.courses == old(db.courses)
    ensures courseId in old(db.courses) && Truthy(userId) ==>
      var c := old(db.courses)[courseId];
      res.code == 200 &&
      db.courses == old(db.courses)[courseId := c.(
        students := c.students + [Enrollment(userId.value, SeedLedger(c.lessons))],
        studentsCount := c.studentsCount + 1)]
  {
    if courseId !in db.courses {
      return Response(404, "Course not found");
    }
    if !Truthy(userId) {
      return Response(400, "User ID is required");
    }
    var c := db.courses[courseId];
    var enrolled := c.(students := c.students + [Enrollment(userId.value, SeedLedger(c.lessons))]);
    SaveAfterEnrollment(c, Enrollment(userId.value, SeedLedger(c.lessons)));
    var ok := db.SaveCourse(courseId, enrolled);
    res := Response(200, "Enrolled successfully");
  }

  /** Whether a user has an enrollment (compared on the stored id). */
  predicate IsEnrolled(students: seq<Enrollment>, uid: Id) {
    exists i :: 0 <= i < |students| && students[i].student == uid
  }

  /** updateCourseProgress. The handler sets `progressPercent` on the found
      enrollment, which is not a schema path, so the save writes the course
      back as it was: the store never changes. */
  method UpdateCourseProgress(db: Store, userId: Option<Id>, courseId: Id, progress: int) returns (res: Response)
    requires db.Valid()
    modifies db
    ensures db.Valid() && db.courses == old(db.courses) && db.lessons == old(db.lessons) && db.users == old(db.users)
    ensures !Truthy(userId) ==> res.code == 400
    ensures Truthy(userId) && courseId !in db.courses ==> res.code == 404
    ensures Truthy(userId) && courseId in db.courses ==>
      res.code == (if IsEnrolled(db.courses[courseId].students, userId.value) then 200 else 400)
  {
    if !Truthy(userId) {
      return Response(400, "User ID is required");
    }
    if courseId !in db.courses {
      return Response(404, "Course not found");
    }
    var c := db.courses[courseId];
    if !IsEnrolled(c.students, userId.value) {
      return Response(400, "Not enrolled in this course");
    }
    SaveStoredIsIdentity(c);
    var ok := db.SaveCourse(courseId, c);
    assert db.courses == old(db.courses);
    res := Response(200, "");
  }
}
