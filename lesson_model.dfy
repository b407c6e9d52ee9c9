/** The Lesson document: its schema constraints and the defaults the ODM
    fills in when a lesson is created from a request body. */
module LessonModel {
  import opened Common

  /** The eight values the `type` field accepts. */
  const LessonTypes: set<string> :=
    {"video", "text", "quiz", "assignment", "mixed", "code", "exercise", "resources"}

  const Difficulties: set<string> := {"beginner", "intermediate", "advanced"}

  datatype QuizQuestion = QuizQuestion(question: string, options: seq<string>, correctAnswer: int)

  datatype Metadata = Metadata(difficulty: Option<string>, required: bool, points: Option<int>)

  /** A stored lesson. `kind` is the schema's `type` field. */
  datatype Lesson = Lesson(
    course: Id,
    title: string,
    description: Option<string>,
    duration: Option<int>,
    order: int,
    kind: string,
    content: Option<string>,
    quiz: seq<QuizQuestion>,
    metadata: Metadata,
    isPublished: bool,
    isCompleted: bool)

  /** A lesson request body: every field may be missing. */
  datatype MetadataInput = MetadataInput(difficulty: Option<string>, required: Option<bool>, points: Option<int>)

  datatype LessonInput = LessonInput(
    course: Option<Id>,
    title: string,
    description: Option<string>,
    duration: Option<int>,
    order: Option<int>,
    kind: Option<string>,
    content: Option<string>,
    quiz: seq<QuizQuestion>,
    metadata: Option<MetadataInput>,
    isPublished: Option<bool>,
    isCompleted: Option<bool>)

  predicate ValidQuestion(q: QuizQuestion) {
    q.question != "" &&
    (forall i :: 0 <= i < |q.options| ==> q.options[i] != "") &&
    q.correctAnswer >= 0
  }

  /** The schema validators of Lesson.ts. */
  predicate ValidLesson(l: Lesson) {
    && l.course != ""
    && l.title != ""
    && (l.description.Some? ==> |l.description.value| <= 1000)
    && (l.duration.Some? ==> l.duration.value >= 0)
    && l.order >= 1
    && l.kind in LessonTypes
    && (l.content.Some? ==> |l.content.value| <= 10000)
    && (forall i :: 0 <= i < |l.quiz| ==> ValidQuestion(l.quiz[i]))
    && (l.metadata.difficulty.Some? ==> l.metadata.difficulty.value in Difficulties)
    && (l.metadata.points.Some? ==> l.metadata.points.value >= 0)
  }

  /** `new Lesson({ ...body, course: courseId })`: the route's course id wins
      over any `course` in the body, the title is trimmed, and the schema
      defaults fill the missing fields. None when `order` (required, with no
      default) is missing or a validator rejects the document. */
  function NewLesson(body: LessonInput, courseId: Id): (r: Option<Lesson>)
    ensures r.Some? ==> ValidLesson(r.value) && r.value.course == courseId
    ensures r.Some? ==> body.order == Some(r.value.order)
    ensures r.Some? && body.kind.None? ==> r.value.kind == "video"
    ensures r.Some? && body.isPublished.None? ==> !r.value.isPublished
    ensures r.Some? && body.isCompleted.None? ==> !r.value.isCompleted
    ensures r.Some? && (body.metadata.None? || body.metadata.value.required.None?) ==>
      r.value.metadata.required
    ensures r.Some? ==> r.value.title == Trim(body.title)
    ensures r.Some? ==> r.value.description == body.description && r.value.duration == body.duration
    ensures r.Some? ==> r.value.content == body.content && r.value.quiz == body.quiz
    ensures r.Some? && body.kind.Some? ==> r.value.kind == body.kind.value
    ensures r.Some? && body.isPublished.Some? ==> r.value.isPublished == body.isPublished.value
    ensures r.Some? && body.isCompleted.Some? ==> r.value.isCompleted == body.isCompleted.value
    ensures r.Some? && body.metadata.None? ==> r.value.metadata.difficulty.None? && r.value.metadata.points.None?
    ensures r.Some? && body.metadata.Some? ==>
      && r.value.metadata.difficulty == body.metadata.value.difficulty
      && r.value.metadata.points == body.metadata.value.points
      && (body.metadata.value.required.Some? ==> r.value.metadata.required == body.metadata.value.required.value)
  {
    if body.order.None? then None
    else
      var md := OrElse(body.metadata, MetadataInput(None, None, None));
      var l := Lesson(courseId, Trim(body.title), body.description, body.duration,
        body.order.value, OrElse(body.kind, "video"), body.content, body.quiz,
        Metadata(md.difficulty, OrElse(md.required, true), md.points),
        OrElse(body.isPublished, false), OrElse(body.isCompleted, false));
      if ValidLesson(l) then Some(l) else None
  }

  /** Which bodies createLesson accepts, field by field. */
  lemma NewLessonAcceptsIff(body: LessonInput, courseId: Id)
    requires courseId != ""
    ensures NewLesson(body, courseId).Some? <==>
      && body.order.Some? && body.order.value >= 1
      && Trim(body.title) != ""
      && (body.description.Some? ==> |body.description.value| <= 1000)
      && (body.duration.Some? ==> body.duration.value >= 0)
      && (body.kind.Some? ==> body.kind.value in LessonTypes)
      && (body.content.Some? ==> |body.content.value| <= 10000)
      && (forall i :: 0 <= i < |body.quiz| ==> ValidQuestion(body.quiz[i]))
      && (body.metadata.Some? && body.metadata.value.difficulty.Some? ==>
            body.metadata.value.difficulty.value in Difficulties)
      && (body.metadata.Some? && body.metadata.value.points.Some? ==>
            body.metadata.value.points.value >= 0)
  {
  }

  /** The schema bounds correctAnswer below only: an answer index past the
      last option is accepted. */
  lemma CorrectAnswerHasNoUpperBound()
    ensures var q := QuizQuestion("2 + 2?", ["4"], 7);
      ValidQuestion(q) && q.correctAnswer >= |q.options|
  {
  }

  /** The fields of a lesson update body; a missing field is left alone. */
  datatype LessonPatch = LessonPatch(
    course: Option<Id>,
    title: Option<string>,
    description: Option<string>,
    duration: Option<int>,
    order: Option<int>,
    kind: Option<string>,
    content: Option<string>,
    quiz: Option<seq<QuizQuestion>>,
    isPublished: Option<bool>,
    isCompleted: Option<bool>)

  /** findByIdAndUpdate applies the body as a `$set`. The update query runs
      the schema's setters, so a new title is trimmed, but not its
      validators. */
  function Patched(l: Lesson, p: LessonPatch): (r: Lesson)
    ensures p.course.Some? ==> r.course == p.course.value
    ensures p.course.None? ==> r.course == l.course
    ensures p.title.Some? ==> r.title == Trim(p.title.value)
    ensures p.title.None? ==> r.title == l.title
    ensures p.description.Some? ==> r.description == p.description
    ensures p.description.None? ==> r.description == l.description
    ensures p.duration.Some? ==> r.duration == p.duration
    ensures p.duration.None? ==> r.duration == l.duration
    ensures p.order.Some? ==> r.order == p.order.value
    ensures p.order.None? ==> r.order == l.order
    ensures p.kind.Some? ==> r.kind == p.kind.value
    ensures p.kind.None? ==> r.kind == l.kind
    ensures p.content.Some? ==> r.content == p.content
    ensures p.content.None? ==> r.content == l.content
    ensures p.quiz.Some? ==> r.quiz == p.quiz.value
    ensures p.quiz.None? ==> r.quiz == l.quiz
    ensures p.isPublished.Some? ==> r.isPublished == p.isPublished.value
    ensures p.isPublished.None? ==> r.isPublished == l.isPublished
    ensures p.isCompleted.Some? ==> r.isCompleted == p.isCompleted.value
    ensures p.isCompleted.None? ==> r.isCompleted == l.isCompleted
    ensures r.metadata == l.metadata
  {
    Lesson(OrElse(p.course, l.course),
      if p.title.Some? then Trim(p.title.value) else l.title,
      Overriding(p.description, l.description), Overriding(p.duration, l.duration),
      OrElse(p.order, l.order), OrElse(p.kind, l.kind),
      Overriding(p.content, l.content),
      OrElse(p.quiz, l.quiz), l.metadata,
      OrElse(p.isPublished, l.isPublished), OrElse(p.isCompleted, l.isCompleted))
  }

  /** An empty body changes nothing. */
  lemma EmptyPatchKeepsLesson(l: Lesson)
    ensures Patched(l, LessonPatch(None, None, None, None, None, None, None, None, None, None)) == l
  {
  }

  /** Because no validator runs, an update can store a lesson the schema
      would refuse on creation. */
  lemma UpdateCanBreakSchema(l: Lesson)
    requires ValidLesson(l)
    ensures !ValidLesson(Patched(l, LessonPatch(None, None, None, None, Some(0), None, None, None, None, None)))
  {
  }
}
