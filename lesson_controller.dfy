/** The lesson handlers: read, create, update, delete, and the completion
    handler whose ledger update is disabled. */
module LessonController {
  import opened Common
  import opened CourseModel
  import opened LessonModel
  import opened Db

  /** getLessonById. */
  method GetLessonById(db: Store, lessonId: Id) returns (res: Response, lesson: Option<Lesson>)
    ensures res.code == 404 <==> lessonId !in db.lessons
    ensures lessonId in db.lessons ==> res.code == 200 && lesson == Some(db.lessons[lessonId])
    ensures lessonId !in db.lessons ==> lesson.None?
  {
    if lessonId !in db.lessons {
      return Response(404, "Lesson not found"), None;
    }
    res, lesson := Response(200, ""), Some(db.lessons[lessonId]);
  }

  /** createLesson: the route's course id is written over any `course` in
      the body; a body the schema refuses gives 400 and stores nothing.
      `newId` is the id the store gives the new document. */
  method CreateLesson(db: Store, courseId: Id, body: LessonInput, newId: Id) returns (res: Response)
    requires db.Valid() && newId !in db.lessons
    modifies db
    ensures db.Valid() && db.courses == old(db.courses) && db.users == old(db.users)
    ensures NewLesson(body, courseId).None? ==> res.code == 400 && db.lessons == old(db.lessons)
    ensures NewLesson(body, courseId).Some? ==>
      res.code == 201 && db.lessons == old(db.lessons)[newId := NewLesson(body, courseId).value] &&
      db.lessons[newId].course == courseId
  {
    var created := NewLesson(body, courseId);
    if created.None? {
      return Response(400, "Lesson validation failed");
    }
    db.lessons := db.lessons[newId := created.value];
    res := Response(201, "");
  }

  /** updateLesson: `findByIdAndUpdate` without validators. */
  method UpdateLesson(db: Store, lessonId: Id, patch: LessonPatch) returns (res: Response)
    requires db.Valid()
    modifies db
    ensures db.Valid() && db.courses == old(db.courses) && db.users == old(db.users)
    ensures lessonId !in old(db.lessons) ==> res.code == 404 && db.lessons == old(db.lessons)
    ensures lessonId in old(db.lessons) ==>
      res.code == 200 && db.lessons == old(db.lessons)[lessonId := Patched(old(db.lessons)[lessonId], patch)]
  {
    if lessonId !in db.lessons {
      return Response(404, "Lesson not found");
    }
    db.lessons := db.lessons[lessonId := Patched(db.lessons[lessonId], patch)];
    res := Response(200, "");
  }

  /** deleteLesson: success whether or not the lesson existed. */
  method DeleteLesson(db: Store, lessonId: Id) returns (res: Response)
    requires db.Valid()
    modifies db
    ensures db.Valid() && db.courses == old(db.courses) && db.users == old(db.users)
    ensures res.code == 200 && db.lessons == old(db.lessons) - {lessonId}
    ensures lessonId !in old(db.lessons) ==> db.lessons == old(db.lessons)
  {
    db.lessons := db.lessons - {lessonId};
    res := Response(200, "Lesson deleted successfully");
  }

  /** markLessonCompleted: the course is looked up first, then the lesson;
      with both present the course is saved as loaded (its ledger update is
      disabled) and the route's lesson id is echoed as completed. */
  method MarkLessonCompleted(db: Store, courseId: Id, lessonId: Id) returns (res: Response, echoed: Id, completed: bool)
    requires db.Valid()
    modifies db
    ensures db.Valid() && db.courses == old(db.courses) && db.lessons == old(db.lessons) && db.users == old(db.users)
    ensures courseId !in db.courses ==> res == Response(404, "Course not found")
    ensures courseId in db.courses && lessonId !in db.lessons ==> res == Response(404, "Lesson not found")
    ensures courseId in db.courses && lessonId in db.lessons ==>
      res.code == 200 && echoed == lessonId && completed
  {
    echoed, completed := "", false;
    if courseId !in db.courses {
      return Response(404, "Course not found"), echoed, completed;
    }
    if lessonId !in db.lessons {
      return Response(404, "Lesson not found"), echoed, completed;
    }
    var c := db.courses[courseId];
    SaveStoredIsIdentity(c);
    var ok := db.SaveCourse(courseId, c);
    assert db.courses == old(db.courses);
    res, echoed, completed := Response(200, "Lesson marked as completed"), lessonId, true;
  }
}
