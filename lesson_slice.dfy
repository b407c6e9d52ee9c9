/** The client's lesson store: the lessons of one course and the request
    flags. Only fetching has pending and rejected cases. */
module LessonSlice {
  import opened Common
  import opened ClientTypes

  datatype LessonState = LessonState(lessons: seq<LessonRecord>, loading: bool, error: Option<string>)

  class Store {
    var lessons: seq<LessonRecord>
    var loading: bool
    var error: Option<string>

    function State(): LessonState
      reads this
    {
      LessonState(lessons, loading, error)
    }

    constructor ()
      ensures State() == LessonState([], false, None)
    {
      lessons, loading, error := [], false, None;
    }

    /** clearLessons: the loading flag is left as it is. */
    method ClearLessons()
      modifies this
      ensures State() == old(State()).(lessons := [], error := None)
    {
      lessons, error := [], None;
    }

    method FetchPending()
      modifies this
      ensures State() == old(State()).(loading := true, error := None)
    {
      loading, error := true, None;
    }

    method FetchFulfilled(received: seq<LessonRecord>)
      modifies this
      ensures State() == old(State()).(loading := false, lessons := received)
    {
      loading, lessons := false, received;
    }

    /** fetchLessons.rejected: the error is whatever the thunk rejected with,
        here the message of the thrown error, which may be absent. */
    method FetchRejected(message: Option<string>)
      modifies this
      ensures State() == old(State()).(loading := false, error := message)
    {
      loading, error := false, message;
    }

    /** createLesson.fulfilled: appended, with no check for an existing id. */
    method CreateFulfilled(l: LessonRecord)
      modifies this
      ensures State() == old(State()).(lessons := old(lessons) + [l])
    {
      lessons := lessons + [l];
    }

    method UpdateFulfilled(l: LessonRecord)
      modifies this
      ensures State() == old(State()).(lessons := ReplaceLesson(old(lessons), l))
    {
      lessons := ReplaceLesson(lessons, l);
    }

    method DeleteFulfilled(id: Id)
      modifies this
      ensures State() == old(State()).(lessons := RemoveLesson(old(lessons), id))
    {
      lessons := RemoveLesson(lessons, id);
    }
  }

  /** A lesson created and then deleted by id leaves no lesson with that
      id, and every other lesson as it was. */
  lemma CreateThenDelete(lessons: seq<LessonRecord>, l: LessonRecord)
    requires forall i :: 0 <= i < |lessons| ==> lessons[i].id != l.id
    ensures RemoveLesson(lessons + [l], l.id) == lessons
  {
    FilterKeepsAll(lessons, LessonWithoutId(l.id));
    FilterAppend(lessons, [l], LessonWithoutId(l.id));
  }
}
