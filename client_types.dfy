/** The records the browser keeps, as the client's types declare them, and
    the list edits several reducers share: replace the record with an id,
    drop every record with an id, and update the first match in place. */
module ClientTypes {
  import opened Common

  /** The request status the auth and dashboard stores keep. */
  datatype RequestStatus = Idle | Loading | Succeeded | Failed

  /** An entry of a course's `instructors` as the edit form meets it: a bare
      id, or an instructor object carrying its id. */
  datatype InstructorRef = IdRef(id: Id) | Populated(id: Id, name: string)

  /** A course as the client holds it. `progress` and `completed` are set on
      enrolled courses; `published` and `courseImage` are read by the pages
      although the client type does not declare them. */
  datatype CourseRecord = CourseRecord(
    id: Id,
    title: string,
    description: string,
    category: string,
    level: string,
    price: real,
    isPublished: bool,
    published: Option<bool>,
    tags: Option<seq<string>>,
    instructors: Option<seq<InstructorRef>>,
    courseImage: Option<string>,
    progress: Option<int>,
    completed: Option<bool>)

  /** A lesson as the client holds it. */
  datatype LessonRecord = LessonRecord(id: Id, title: string, order: int, completed: Option<bool>)

  function CourseWithId(id: Id): CourseRecord -> bool {
    (c: CourseRecord) => c.id == id
  }

  function CourseWithoutId(id: Id): CourseRecord -> bool {
    (c: CourseRecord) => c.id != id
  }

  function LessonWithId(id: Id): LessonRecord -> bool {
    (l: LessonRecord) => l.id == id
  }

  /** `findIndex` by id, then overwrite: the first record with `c`'s id
      becomes `c`; nothing changes when no record has that id. */
  function ReplaceCourse(courses: seq<CourseRecord>, c: CourseRecord): (r: seq<CourseRecord>)
    ensures |r| == |courses|
    ensures (forall i :: 0 <= i < |courses| ==> courses[i].id != c.id) ==> r == courses
    ensures FirstIndex(courses, CourseWithId(c.id)).Some? ==>
      r == courses[FirstIndex(courses, CourseWithId(c.id)).value := c]
  {
    UpdateFirst(courses, CourseWithId(c.id), _ => c)
  }

  /** Replacing with the same record twice is replacing once. */
  lemma ReplaceCourseTwice(courses: seq<CourseRecord>, c: CourseRecord)
    ensures ReplaceCourse(ReplaceCourse(courses, c), c) == ReplaceCourse(courses, c)
  {
    var t := ReplaceCourse(courses, c);
    if FirstIndex(courses, CourseWithId(c.id)).Some? {
      var i := FirstIndex(courses, CourseWithId(c.id)).value;
      assert forall j :: 0 <= j < i ==> t[j] == courses[j];
      assert FirstIndex(t, CourseWithId(c.id)) == Some(i);
    }
  }

  /** A course whose id is listed is shown after the replace. */
  lemma ReplaceCourseShowsIt(courses: seq<CourseRecord>, c: CourseRecord)
    ensures (exists i :: 0 <= i < |courses| && courses[i].id == c.id) <==> c in ReplaceCourse(courses, c)
  {
    var r := ReplaceCourse(courses, c);
    if FirstIndex(courses, CourseWithId(c.id)).Some? {
      var i := FirstIndex(courses, CourseWithId(c.id)).value;
      assert r[i] == c;
    }
  }

  /** `filter(c => c.id !== id)`: no record with the id is left, and every
      other record keeps its place and its number of occurrences. */
  function RemoveCourse(courses: seq<CourseRecord>, id: Id): (r: seq<CourseRecord>)
    ensures forall i :: 0 <= i < |r| ==> r[i].id != id
    ensures forall c :: c in r <==> c in courses && c.id != id
    ensures forall c: CourseRecord :: c.id != id ==> multiset(r)[c] == multiset(courses)[c]
    ensures SubseqOf(r, courses)
  {
    Filter(courses, CourseWithoutId(id))
  }

  /** Removing an id a second time changes nothing. */
  lemma RemoveCourseTwice(courses: seq<CourseRecord>, id: Id)
    ensures RemoveCourse(RemoveCourse(courses, id), id) == RemoveCourse(courses, id)
  {
    FilterKeepsAll(RemoveCourse(courses, id), CourseWithoutId(id));
  }

  /** The progress update of an enrolled course. */
  function WithProgress(progress: int): CourseRecord -> CourseRecord {
    (c: CourseRecord) => c.(progress := Some(progress), completed := Some(progress == 100))
  }

  /** The progress reducers: the first course with the id gets the new
      progress and is completed exactly when the progress is 100; every
      other course is untouched. */
  function SetProgress(courses: seq<CourseRecord>, courseId: Id, progress: int): (r: seq<CourseRecord>)
    ensures |r| == |courses|
    ensures FirstIndex(courses, CourseWithId(courseId)).None? ==> r == courses
    ensures FirstIndex(courses, CourseWithId(courseId)).Some? ==>
      var i := FirstIndex(courses, CourseWithId(courseId)).value;
      r[i].progress == Some(progress) && r[i].completed == Some(progress == 100) &&
      r[i] == courses[i].(progress := r[i].progress, completed := r[i].completed) &&
      forall j :: 0 <= j < |courses| && j != i ==> r[j] == courses[j]
  {
    UpdateFirst(courses, CourseWithId(courseId), WithProgress(progress))
  }

  /** Of two progress updates of one course only the later one shows. */
  lemma SetProgressLastWins(courses: seq<CourseRecord>, courseId: Id, p: int, q: int)
    ensures SetProgress(SetProgress(courses, courseId, p), courseId, q) == SetProgress(courses, courseId, q)
  {
    UpdateFirstKeepsMatch(courses, CourseWithId(courseId), WithProgress(p));
  }

  /** The lesson completion edit. */
  function Completed(l: LessonRecord): LessonRecord {
    l.(completed := Some(true))
  }

  /** `find` by id, then `completed = true`: the first lesson with the id is
      completed, the others are untouched, and an unknown id changes nothing. */
  function MarkLesson(lessons: seq<LessonRecord>, lessonId: Id): (r: seq<LessonRecord>)
    ensures |r| == |lessons|
    ensures FirstIndex(lessons, LessonWithId(lessonId)).None? ==> r == lessons
    ensures FirstIndex(lessons, LessonWithId(lessonId)).Some? ==>
      var i := FirstIndex(lessons, LessonWithId(lessonId)).value;
      r[i] == lessons[i].(completed := Some(true)) &&
      forall j :: 0 <= j < |lessons| && j != i ==> r[j] == lessons[j]
  {
    UpdateFirst(lessons, LessonWithId(lessonId), Completed)
  }

  /** Marking a lesson completed twice is marking it once. */
  lemma MarkLessonTwice(lessons: seq<LessonRecord>, lessonId: Id)
    ensures MarkLesson(MarkLesson(lessons, lessonId), lessonId) == MarkLesson(lessons, lessonId)
  {
    UpdateFirstTwice(lessons, LessonWithId(lessonId), Completed);
  }

  function LessonWithoutId(id: Id): LessonRecord -> bool {
    (l: LessonRecord) => l.id != id
  }

  /** The lesson counterpart of ReplaceCourse. */
  function ReplaceLesson(lessons: seq<LessonRecord>, l: LessonRecord): (r: seq<LessonRecord>)
    ensures |r| == |lessons|
    ensures (forall i :: 0 <= i < |lessons| ==> lessons[i].id != l.id) ==> r == lessons
    ensures FirstIndex(lessons, LessonWithId(l.id)).Some? ==>
      r == lessons[FirstIndex(lessons, LessonWithId(l.id)).value := l]
  {
    UpdateFirst(lessons, LessonWithId(l.id), _ => l)
  }

  /** Replacing with the same lesson twice is replacing once. */
  lemma ReplaceLessonTwice(lessons: seq<LessonRecord>, l: LessonRecord)
    ensures ReplaceLesson(ReplaceLesson(lessons, l), l) == ReplaceLesson(lessons, l)
  {
    var t := ReplaceLesson(lessons, l);
    if FirstIndex(lessons, LessonWithId(l.id)).Some? {
      var i := FirstIndex(lessons, LessonWithId(l.id)).value;
      assert forall j :: 0 <= j < i ==> t[j] == lessons[j];
      assert FirstIndex(t, LessonWithId(l.id)) == Some(i);
    }
  }

  /** The lesson counterpart of RemoveCourse. */
  function RemoveLesson(lessons: seq<LessonRecord>, id: Id): (r: seq<LessonRecord>)
    ensures forall i :: 0 <= i < |r| ==> r[i].id != id
    ensures forall l :: l in r <==> l in lessons && l.id != id
    ensures forall l: LessonRecord :: l.id != id ==> multiset(r)[l] == multiset(lessons)[l]
    ensures SubseqOf(r, lessons)
  {
    Filter(lessons, LessonWithoutId(id))
  }

  /** Removing a lesson id a second time changes nothing. */
  lemma RemoveLessonTwice(lessons: seq<LessonRecord>, id: Id)
    ensures RemoveLesson(RemoveLesson(lessons, id), id) == RemoveLesson(lessons, id)
  {
    FilterKeepsAll(RemoveLesson(lessons, id), LessonWithoutId(id));
  }
}
