/** The client's course store: the catalogue, the enrolled courses, the
    course being viewed with its lessons, the request flags and the catalogue
    filter. Each reducer is a method that updates the fields in place. */
module CourseSlice {
  import opened Common
  import opened ClientTypes

  /** The catalogue filter; "all" means no restriction. */
  datatype CourseFilter = CourseFilter(category: string, level: string, search: string)

  const InitialFilter := CourseFilter("all", "all", "")

  /** A `Partial` filter: the keys the action carries. */
  datatype FilterPatch = FilterPatch(category: Option<string>, level: Option<string>, search: Option<string>)

  /** `{ ...filter, ...patch }`. */
  function MergeFilter(f: CourseFilter, patch: FilterPatch): (r: CourseFilter)
    ensures patch == FilterPatch(None, None, None) ==> r == f
    ensures patch.category.Some? ==> r.category == patch.category.value
    ensures patch.level.Some? ==> r.level == patch.level.value
    ensures patch.search.Some? ==> r.search == patch.search.value
    ensures patch.category.None? ==> r.category == f.category
    ensures patch.level.None? ==> r.level == f.level
    ensures patch.search.None? ==> r.search == f.search
  {
    CourseFilter(OrElse(patch.category, f.category), OrElse(patch.level, f.level), OrElse(patch.search, f.search))
  }

  /** Merging the same patch again changes nothing. */
  lemma MergeFilterTwice(f: CourseFilter, patch: FilterPatch)
    ensures MergeFilter(MergeFilter(f, patch), patch) == MergeFilter(f, patch)
  {
  }

  /** The body of the create response, `{ success: true, data: course }`,
      which the create thunk delivers as its payload unchanged. */
  datatype CreateReply = CreateReply(success: bool, data: CourseRecord)

  /** The body of the update response, `{ message, course }`, which the
      update thunk delivers as its payload unchanged. It has no top-level
      `id`. */
  datatype UpdateReply = UpdateReply(message: string, course: CourseRecord)

  /** A course or response body the store can hold.
      - `Listed`: a course serialized by the document's toJSON transform,
        which renames `_id` to `id`.
      - `Fetched`: the course getCourseById sends, built from `toObject()`,
        which skips that transform, so it carries `_id` and no `id`. Its
        record's `id` field stands for that `_id`.
      - `CreateBody` and `UpdateBody`: a response body stored in place of a
        course. */
  datatype Entry =
    | Listed(course: CourseRecord)
    | Fetched(course: CourseRecord)
    | CreateBody(created: CreateReply)
    | UpdateBody(updated: UpdateReply)

  /** `entry.id`: a listed course's id, and undefined (None) for a fetched
      course or a response body. */
  function EntryId(e: Entry): (r: Option<Id>)
    ensures r.Some? <==> e.Listed?
    ensures e.Listed? ==> r.value == e.course.id
  {
    if e.Listed? then Some(e.course.id) else None
  }

  /** The id of the course an entry is, under whichever key carries it
      (`id` or `_id`); None for a response body. */
  function CourseKey(e: Entry): (r: Option<Id>)
    ensures r.Some? <==> e.Listed? || e.Fetched?
    ensures r.Some? ==> r.value == e.course.id
  {
    if e.Listed? || e.Fetched? then Some(e.course.id) else None
  }

  function HasNoId(): Entry -> bool {
    (e: Entry) => EntryId(e).None?
  }

  /** A catalogue of courses only, as entries. */
  function Listing(courses: seq<CourseRecord>): (r: seq<Entry>)
    ensures |r| == |courses|
    ensures forall i :: 0 <= i < |r| ==> r[i] == Listed(courses[i])
  {
    if |courses| == 0 then [] else [Listed(courses[0])] + Listing(courses[1..])
  }

  /** createCourse.fulfilled as written: `push(action.payload)` stores the
      whole response body, which has no id. */
  function CreateAsWritten(entries: seq<Entry>, reply: CreateReply): (r: seq<Entry>)
    ensures |r| == |entries| + 1 && r[..|entries|] == entries
    ensures EntryId(r[|entries|]).None?
  {
    entries + [CreateBody(reply)]
  }

  /** updateCourse.fulfilled as written: `c.id === action.payload.id`
      compares with undefined, so it matches the first entry without an id
      (a stored response body), never a course; and `currentCourse?.id ===
      undefined` holds when no course is open or the open one is a fetched
      course or a body. */
  function UpdateAsWritten(entries: seq<Entry>, current: Option<Entry>, reply: UpdateReply): (r: (seq<Entry>, Option<Entry>))
    ensures |r.0| == |entries|
    ensures (forall i :: 0 <= i < |entries| ==> entries[i].Listed?) ==> r.0 == entries
    ensures FirstIndex(entries, HasNoId()).Some? ==>
      r.0 == entries[FirstIndex(entries, HasNoId()).value := UpdateBody(reply)]
    ensures current.Some? && current.value.Listed? ==> r.1 == current
    ensures current.None? || !current.value.Listed? ==> r.1 == Some(UpdateBody(reply))
  {
    var openId := if current.None? then None else EntryId(current.value);
    (UpdateFirst(entries, HasNoId(), _ => UpdateBody(reply)),
     if openId.None? then Some(UpdateBody(reply)) else current)
  }

  /** As written, an update replaces a fetched open course with the
      response body, even when that course is the one updated. */
  lemma UpdateReplacesFetchedCourse(entries: seq<Entry>, c: CourseRecord, reply: UpdateReply)
    ensures UpdateAsWritten(entries, Some(Fetched(c)), reply).1 == Some(UpdateBody(reply))
  {
  }

  /** deleteCourse.fulfilled as written: entries whose `id` differs from the
      deleted one are kept (a response body's undefined id always differs),
      and the open course is closed, with its lessons, only when its `id` is
      the deleted one. */
  function DeleteAsWritten(entries: seq<Entry>, current: Option<Entry>, lessons: seq<LessonRecord>, id: Id):
    (r: (seq<Entry>, Option<Entry>, seq<LessonRecord>))
    ensures forall e :: e in r.0 <==> e in entries && EntryId(e) != Some(id)
    ensures SubseqOf(r.0, entries)
    ensures current.Some? && EntryId(current.value) == Some(id) ==> r.1.None? && r.2 == []
    ensures current.None? || EntryId(current.value) != Some(id) ==> r.1 == current && r.2 == lessons
  {
    var kept := Filter(entries, (e: Entry) => EntryId(e) != Some(id));
    if current.Some? && EntryId(current.value) == Some(id) then (kept, None, []) else (kept, current, lessons)
  }

  /** As written, deleting the course that fetchCourseById opened leaves it
      open with its lessons, since a fetched course has no `id`. */
  lemma DeleteKeepsFetchedOpen(entries: seq<Entry>, c: CourseRecord, lessons: seq<LessonRecord>)
    ensures DeleteAsWritten(entries, Some(Fetched(c)), lessons, c.id).1 == Some(Fetched(c))
    ensures DeleteAsWritten(entries, Some(Fetched(c)), lessons, c.id).2 == lessons
  {
  }

  /** As written, creating a course adds no course to the catalogue: the
      created course is listed afterwards only if it was listed before. */
  lemma CreateListsNoCourse(courses: seq<CourseRecord>, reply: CreateReply)
    ensures forall c :: Listed(c) in CreateAsWritten(Listing(courses), reply) <==> c in courses
  {
    var r := CreateAsWritten(Listing(courses), reply);
    forall c
      ensures Listed(c) in r <==> c in courses
    {
      if c in courses {
        var i :| 0 <= i < |courses| && courses[i] == c;
        assert r[i] == Listed(c);
      }
      if Listed(c) in r {
        var i :| 0 <= i < |r| && r[i] == Listed(c);
        assert i < |courses|;
        assert courses[i] == c;
      }
    }
  }

  /** As written, an update replaces no course of a catalogue of courses,
      even one listing the updated id, and with no course open it opens the
      response body. */
  lemma UpdateMissesCourses(courses: seq<CourseRecord>, reply: UpdateReply)
    ensures UpdateAsWritten(Listing(courses), None, reply) == (Listing(courses), Some(UpdateBody(reply)))
  {
  }

  /** As written, an update after a create overwrites the stored create
      body with the update body. */
  lemma UpdateOverwritesCreateBody(courses: seq<CourseRecord>, created: CreateReply, updated: UpdateReply)
    ensures (UpdateAsWritten(CreateAsWritten(Listing(courses), created), None, updated)).0 ==
      Listing(courses) + [UpdateBody(updated)]
  {
    var e := CreateAsWritten(Listing(courses), created);
    assert FirstIndex(e, HasNoId()) == Some(|courses|);
  }

  /** The whole state as one value, for stating what a reducer changes. */
  datatype CourseState = CourseState(
    courses: seq<CourseRecord>,
    enrolledCourses: seq<CourseRecord>,
    currentCourse: Option<Entry>,
    lessons: seq<LessonRecord>,
    loading: bool,
    error: Option<string>,
    filter: CourseFilter)

  class Store {
    var courses: seq<CourseRecord>
    var enrolledCourses: seq<CourseRecord>
    var currentCourse: Option<Entry>
    var lessons: seq<LessonRecord>
    var loading: bool
    var error: Option<string>
    var filter: CourseFilter

    function State(): CourseState
      reads this
    {
      CourseState(courses, enrolledCourses, currentCourse, lessons, loading, error, filter)
    }

    /** Lessons are only held for a course being viewed, and the course
        being viewed is a course, not a response body. */
    predicate Valid()
      reads this
    {
      && (currentCourse.None? ==> lessons == [])
      && (currentCourse.Some? ==> CourseKey(currentCourse.value).Some?)
    }

    constructor ()
      ensures State() == CourseState([], [], None, [], false, None, InitialFilter)
      ensures Valid()
    {
      courses, enrolledCourses, currentCourse, lessons := [], [], None, [];
      loading, error, filter := false, None, InitialFilter;
    }

    method ClearError()
      modifies this
      ensures State() == old(State()).(error := None)
      ensures old(Valid()) ==> Valid()
    {
      error := None;
    }

    method SetFilter(patch: FilterPatch)
      modifies this
      ensures State() == old(State()).(filter := MergeFilter(old(filter), patch))
      ensures old(Valid()) ==> Valid()
    {
      filter := MergeFilter(filter, patch);
    }

    method ClearFilter()
      modifies this
      ensures State() == old(State()).(filter := InitialFilter)
      ensures old(Valid()) ==> Valid()
    {
      filter := InitialFilter;
    }

    /** markLessonComplete, and markLessonCompleted.fulfilled, which does
        the same with the lesson id the request echoes. */
    method MarkLessonComplete(lessonId: Id)
      modifies this
      ensures State() == old(State()).(lessons := MarkLesson(old(lessons), lessonId))
      ensures old(Valid()) ==> Valid()
    {
      lessons := MarkLesson(lessons, lessonId);
    }

    method ClearCurrentCourse()
      modifies this
      ensures State() == old(State()).(currentCourse := None, lessons := [])
      ensures Valid()
    {
      currentCourse, lessons := None, [];
    }

    /** The pending case of create, update, delete, fetch, enroll and fetch
        enrolled. */
    method Pending()
      modifies this
      ensures State() == old(State()).(loading := true)
      ensures old(Valid()) ==> Valid()
    {
      loading := true;
    }

    /** The rejected case of create, update, delete, fetch, enroll and fetch
        enrolled: the message the thunk rejected with. */
    method Rejected(message: string)
      modifies this
      ensures State() == old(State()).(loading := false, error := Some(message))
      ensures old(Valid()) ==> Valid()
    {
      loading, error := false, Some(message);
    }

    /** createCourse.fulfilled, taking the course out of the response body
        (`action.payload.data`): the new course goes at the end. */
    method CreateFulfilled(reply: CreateReply)
      modifies this
      ensures State() == old(State()).(loading := false, courses := old(courses) + [reply.data])
      ensures old(Valid()) ==> Valid()
    {
      loading := false;
      courses := courses + [reply.data];
    }

    /** updateCourse.fulfilled, taking the course out of the response body
        (`action.payload.course`): the catalogue entry with its id is
        replaced, and so is the course being viewed when it is that course,
        compared under whichever key carries its id (`_id` for a course
        opened by fetchCourseById). */
    method UpdateFulfilled(reply: UpdateReply)
      modifies this
      ensures State() == old(State()).(
        loading := false,
        courses := ReplaceCourse(old(courses), reply.course),
        currentCourse := if old(currentCourse).Some? && CourseKey(old(currentCourse).value) == Some(reply.course.id)
          then Some(Listed(reply.course)) else old(currentCourse))
      ensures (exists i :: 0 <= i < |old(courses)| && old(courses)[i].id == reply.course.id) ==>
        reply.course in courses
      ensures old(Valid()) ==> Valid()
    {
      ReplaceCourseShowsIt(courses, reply.course);
      loading := false;
      courses := ReplaceCourse(courses, reply.course);
      if currentCourse.Some? && CourseKey(currentCourse.value) == Some(reply.course.id) {
        currentCourse := Some(Listed(reply.course));
      }
    }

    /** deleteCourse.fulfilled: every entry with the id goes; a deleted
        course being viewed is closed with its lessons, compared under
        whichever key carries its id. */
    method DeleteFulfilled(id: Id)
      modifies this
      ensures State() == old(State()).(
        loading := false,
        courses := RemoveCourse(old(courses), id),
        currentCourse := if old(currentCourse).Some? && CourseKey(old(currentCourse).value) == Some(id) then None else old(currentCourse),
        lessons := if old(currentCourse).Some? && CourseKey(old(currentCourse).value) == Some(id) then [] else old(lessons))
      ensures old(Valid()) ==> Valid()
    {
      loading := false;
      courses := RemoveCourse(courses, id);
      if currentCourse.Some? && CourseKey(currentCourse.value) == Some(id) {
        currentCourse, lessons := None, [];
      }
    }

    method FetchCoursesFulfilled(received: seq<CourseRecord>)
      modifies this
      ensures State() == old(State()).(loading := false, courses := received)
      ensures old(Valid()) ==> Valid()
    {
      loading, courses := false, received;
    }

    method FetchByIdPending()
      modifies this
      ensures State() == old(State()).(loading := true, error := None)
      ensures old(Valid()) ==> Valid()
    {
      loading, error := true, None;
    }

    /** fetchCourseById.fulfilled: the course, which carries `_id` and no
        `id`, and the lessons it came with. */
    method FetchByIdFulfilled(course: CourseRecord, received: seq<LessonRecord>)
      modifies this
      ensures State() == old(State()).(loading := false, currentCourse := Some(Fetched(course)), lessons := received, error := None)
      ensures Valid()
    {
      loading, currentCourse, lessons, error := false, Some(Fetched(course)), received, None;
    }

    /** fetchCourseById.rejected: the view is emptied. */
    method FetchByIdRejected(message: string)
      modifies this
      ensures State() == old(State()).(loading := false, error := Some(message), currentCourse := None, lessons := [])
      ensures Valid()
    {
      loading, error, currentCourse, lessons := false, Some(message), None, [];
    }

    /** enrollInCourse.fulfilled: the course is added only when the response
        carries one; there is no duplicate check. */
    method EnrollFulfilled(course: Option<CourseRecord>)
      modifies this
      ensures State() == old(State()).(
        loading := false,
        enrolledCourses := if course.Some? then old(enrolledCourses) + [course.value] else old(enrolledCourses))
      ensures old(Valid()) ==> Valid()
    {
      loading := false;
      if course.Some? {
        enrolledCourses := enrolledCourses + [course.value];
      }
    }

    method FetchEnrolledFulfilled(received: seq<CourseRecord>)
      modifies this
      ensures State() == old(State()).(loading := false, enrolledCourses := received)
      ensures old(Valid()) ==> Valid()
    {
      loading, enrolledCourses := false, received;
    }

    /** updateCourseProgress.fulfilled: the loading flag is not touched
        (the thunk has no pending case). */
    method UpdateProgressFulfilled(courseId: Id, progress: int)
      modifies this
      ensures State() == old(State()).(enrolledCourses := SetProgress(old(enrolledCourses), courseId, progress))
      ensures old(Valid()) ==> Valid()
    {
      enrolledCourses := SetProgress(enrolledCourses, courseId, progress);
    }
  }
}
