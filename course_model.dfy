/** The Course document with its embedded enrollments: schema constraints,
    creation defaults, the pre-save hook that recomputes `studentsCount`, and
    the two static queries. */
module CourseModel {
  import opened Common

  const Levels: set<string> := {"Beginner", "Intermediate", "Advanced"}

  /** One entry of a student's progress ledger. `lesson` is absent when the
      entry was written without a lesson reference. */
  datatype LessonProgress = LessonProgress(lesson: Option<Id>, completed: bool, completedAt: Option<int>)

  /** An enrollment record embedded in a course: a student and the ledger. */
  datatype Enrollment = Enrollment(student: Id, progress: seq<LessonProgress>)

  datatype CurriculumItem = CurriculumItem(lesson: Option<Id>, order: int)

  datatype Section = Section(section: string, order: int, lessons: seq<CurriculumItem>)

  datatype Review = Review(userName: string, rating: real, comment: string)

  datatype InstructorInfo = InstructorInfo(name: string, title: string, bio: string, rating: real, experience: string)

  /** A stored course. Required strings are "" when missing; a missing
      `price` is None. The schema declares no `instructors` path, so a course
      never carries the owner list the handlers look for. */
  datatype Course = Course(
    title: string,
    description: string,
    instructor: string,
    instructorInfo: InstructorInfo,
    students: seq<Enrollment>,
    price: Option<real>,
    originalPrice: Option<real>,
    category: string,
    level: string,
    rating: real,
    reviews: seq<Review>,
    studentsCount: int,
    tags: seq<string>,
    curriculum: seq<Section>,
    lessons: seq<Id>,
    isPublished: bool,
    isFeatured: bool)

  predicate ValidReview(r: Review) {
    r.userName != "" && 1.0 <= r.rating <= 5.0 && r.comment != "" && |r.comment| <= 1000
  }

  /** The schema validators of Course.ts. */
  predicate ValidCourse(c: Course) {
    && c.title != "" && |c.title| <= 100
    && c.description != "" && |c.description| <= 2000
    && c.instructor != ""
    && c.instructorInfo.name != "" && c.instructorInfo.title != ""
    && c.instructorInfo.bio != "" && c.instructorInfo.experience != ""
    && 0.0 <= c.instructorInfo.rating <= 5.0
    && c.price.Some? && c.price.value >= 0.0
    && (c.originalPrice.Some? ==> c.originalPrice.value >= 0.0)
    && c.category != ""
    && c.level in Levels
    && 0.0 <= c.rating <= 5.0
    && (forall i :: 0 <= i < |c.reviews| ==> ValidReview(c.reviews[i]))
    && (forall i :: 0 <= i < |c.curriculum| ==> c.curriculum[i].section != "")
  }

  /** What every stored course satisfies: it passed validation and the
      pre-save hook ran on it. */
  predicate StoredCourse(c: Course) {
    ValidCourse(c) && c.studentsCount == |c.students|
  }

  /** The pre-save hook: `this.studentsCount = this.students.length`;
      nothing else is touched. */
  function PreSave(c: Course): (r: Course)
    ensures r.studentsCount == |r.students|
    ensures r.(studentsCount := c.studentsCount) == c
  {
    c.(studentsCount := |c.students|)
  }

  /** Saving: validation first, then the hook. None when validation fails. */
  function Save(c: Course): (r: Option<Course>)
    ensures r.Some? <==> ValidCourse(c)
    ensures r.Some? ==> StoredCourse(r.value)
  {
    if ValidCourse(c) then Some(PreSave(c)) else None
  }

  /** Saving a stored course again changes nothing. */
  lemma SaveStoredIsIdentity(c: Course)
    requires StoredCourse(c)
    ensures Save(c) == Some(c)
  {
  }

  /** Appending an enrollment never makes a valid course invalid, and saving
      it brings the count along. */
  lemma SaveAfterEnrollment(c: Course, e: Enrollment)
    requires StoredCourse(c)
    ensures Save(c.(students := c.students + [e])).Some?
    ensures Save(c.(students := c.students + [e])).value.studentsCount == c.studentsCount + 1
  {
  }

  // ---------------------------------------------------------------------------
  // Creation and update bodies

  /** The course fields of a create body (everything but `instructors`).
      Fields with a schema default may be missing; a missing array is []. */
  datatype CourseInput = CourseInput(
    title: string,
    description: string,
    instructor: string,
    instructorInfo: InstructorInfo,
    students: seq<Enrollment>,
    price: Option<real>,
    originalPrice: Option<real>,
    category: string,
    level: Option<string>,
    rating: Option<real>,
    reviews: seq<Review>,
    studentsCount: Option<int>,
    tags: seq<string>,
    curriculum: seq<Section>,
    lessons: seq<Id>,
    isPublished: Option<bool>,
    isFeatured: Option<bool>)

  function TrimAll(s: seq<string>): (r: seq<string>)
    ensures |r| == |s| && forall i :: 0 <= i < |s| ==> r[i] == Trim(s[i])
  {
    seq(|s|, i requires 0 <= i < |s| => Trim(s[i]))
  }

  /** `Course.create({ ...courseData, instructors })` before saving: every
      body field is copied, the title and each tag trimmed, and the schema
      defaults fill the missing ones. The `instructors` key is not a schema
      path, so strict mode drops it. */
  function NewCourse(input: CourseInput): (r: Course)
    ensures r.title == Trim(input.title) && r.tags == TrimAll(input.tags)
    ensures r.description == input.description && r.instructor == input.instructor
    ensures r.instructorInfo == input.instructorInfo && r.category == input.category
    ensures r.price == input.price && r.originalPrice == input.originalPrice
    ensures r.students == input.students && r.reviews == input.reviews
    ensures r.curriculum == input.curriculum && r.lessons == input.lessons
    ensures input.level.Some? ==> r.level == input.level.value
    ensures input.level.None? ==> r.level == "Beginner"
    ensures input.rating.Some? ==> r.rating == input.rating.value
    ensures input.rating.None? ==> r.rating == 0.0
    ensures input.studentsCount.Some? ==> r.studentsCount == input.studentsCount.value
    ensures input.studentsCount.None? ==> r.studentsCount == 0
    ensures input.isPublished.Some? ==> r.isPublished == input.isPublished.value
    ensures input.isPublished.None? ==> !r.isPublished
    ensures input.isFeatured.Some? ==> r.isFeatured == input.isFeatured.value
    ensures input.isFeatured.None? ==> !r.isFeatured
  {
    Course(Trim(input.title), input.description, input.instructor, input.instructorInfo,
      input.students, input.price, input.originalPrice, input.category,
      OrElse(input.level, "Beginner"), OrElse(input.rating, 0.0), input.reviews,
      OrElse(input.studentsCount, 0),
      TrimAll(input.tags), input.curriculum, input.lessons,
      OrElse(input.isPublished, false), OrElse(input.isFeatured, false))
  }

  /** `price` is required and has no default: a body without it is refused. */
  lemma MissingPriceRefused(input: CourseInput)
    requires input.price.None?
    ensures Save(NewCourse(input)).None?
  {
  }

  /** The enrollments of the body are stored, and the hook counts them,
      whatever count the body claims. */
  lemma CreatedCountIsEnrollments(input: CourseInput)
    requires Save(NewCourse(input)).Some?
    ensures Save(NewCourse(input)).value.students == input.students
    ensures Save(NewCourse(input)).value.studentsCount == |input.students|
  {
  }

  /** The fields an update body may carry; `Object.assign` copies the present
      ones onto the loaded document. */
  datatype CoursePatch = CoursePatch(
    title: Option<string>,
    description: Option<string>,
    price: Option<real>,
    category: Option<string>,
    level: Option<string>,
    tags: Option<seq<string>>,
    lessons: Option<seq<Id>>,
    isPublished: Option<bool>,
    isFeatured: Option<bool>,
    studentsCount: Option<int>)

  function Assigned(c: Course, p: CoursePatch): (r: Course)
    ensures r.students == c.students && r.curriculum == c.curriculum && r.reviews == c.reviews
    ensures r.instructor == c.instructor && r.instructorInfo == c.instructorInfo
    ensures r.originalPrice == c.originalPrice && r.rating == c.rating
    ensures p.title.Some? ==> r.title == Trim(p.title.value)
    ensures p.title.None? ==> r.title == c.title
    ensures p.description.Some? ==> r.description == p.description.value
    ensures p.description.None? ==> r.description == c.description
    ensures p.price.Some? ==> r.price == p.price
    ensures p.price.None? ==> r.price == c.price
    ensures p.category.Some? ==> r.category == p.category.value
    ensures p.category.None? ==> r.category == c.category
    ensures p.level.Some? ==> r.level == p.level.value
    ensures p.level.None? ==> r.level == c.level
    ensures p.tags.Some? ==> r.tags == TrimAll(p.tags.value)
    ensures p.tags.None? ==> r.tags == c.tags
    ensures p.lessons.Some? ==> r.lessons == p.lessons.value
    ensures p.lessons.None? ==> r.lessons == c.lessons
    ensures p.isPublished.Some? ==> r.isPublished == p.isPublished.value
    ensures p.isPublished.None? ==> r.isPublished == c.isPublished
    ensures p.isFeatured.Some? ==> r.isFeatured == p.isFeatured.value
    ensures p.isFeatured.None? ==> r.isFeatured == c.isFeatured
    ensures p.studentsCount.Some? ==> r.studentsCount == p.studentsCount.value
    ensures p.studentsCount.None? ==> r.studentsCount == c.studentsCount
  {
    Course(
      if p.title.Some? then Trim(p.title.value) else c.title,
      OrElse(p.description, c.description), c.instructor, c.instructorInfo, c.students,
      Overriding(p.price, c.price), c.originalPrice,
      OrElse(p.category, c.category), OrElse(p.level, c.level), c.rating, c.reviews,
      OrElse(p.studentsCount, c.studentsCount),
      if p.tags.Some? then TrimAll(p.tags.value) else c.tags, c.curriculum,
      OrElse(p.lessons, c.lessons), OrElse(p.isPublished, c.isPublished),
      OrElse(p.isFeatured, c.isFeatured))
  }

  /** A body that tries to set `studentsCount` cannot desynchronise it: the
      hook overwrites it on save. */
  lemma CountCannotBePatched(c: Course, p: CoursePatch)
    requires StoredCourse(c)
    requires Save(Assigned(c, p)).Some?
    ensures Save(Assigned(c, p)).value.studentsCount == |c.students|
  {
  }

  // ---------------------------------------------------------------------------
  // Static queries

  /** The `sort({ rating: -1, studentsCount: -1 })` order. */
  function RanksBefore(a: Course, b: Course): bool {
    a.rating > b.rating || (a.rating == b.rating && a.studentsCount >= b.studentsCount)
  }

  lemma RanksBeforeTotal()
    ensures Total(RanksBefore)
  {
  }

  lemma RanksBeforeTransitive(a: Course, b: Course, c: Course)
    requires RanksBefore(a, b) && RanksBefore(b, c)
    ensures RanksBefore(a, c)
  {
  }

  /** In a rank-sorted sequence every course ranks before every later one. */
  lemma {:induction false} RankedPairwise(s: seq<Course>, i: nat, j: nat)
    requires forall k :: 0 <= k < |s| - 1 ==> RanksBefore(s[k], s[k + 1])
    requires i <= j < |s|
    ensures RanksBefore(s[i], s[j])
    decreases j - i
  {
    if i < j {
      RankedPairwise(s, i + 1, j);
      RanksBeforeTransitive(s[i], s[i + 1], s[j]);
    }
  }

  /** Cutting a rank-sorted sequence after `k` courses keeps part of it, and
      every course cut off ranks after every course kept. */
  lemma {:induction false} CutRanked(s: seq<Course>, k: nat)
    requires forall i :: 0 <= i < |s| - 1 ==> RanksBefore(s[i], s[i + 1])
    requires k <= |s|
    ensures multiset(s[..k]) <= multiset(s)
    ensures forall c :: c in multiset(s) - multiset(s[..k]) ==>
      forall i :: 0 <= i < k ==> RanksBefore(s[i], c)
  {
    assert s == s[..k] + s[k..];
    assert multiset(s) == multiset(s[..k]) + multiset(s[k..]);
    forall c | c in multiset(s) - multiset(s[..k])
      ensures forall i :: 0 <= i < k ==> RanksBefore(s[i], c)
    {
      assert c in multiset(s[k..]);
      var m :| 0 <= m < |s[k..]| && s[k..][m] == c;
      forall i | 0 <= i < k
        ensures RanksBefore(s[i], c)
      {
        RankedPairwise(s, i, k + m);
      }
    }
  }

  /** `s` in `RanksBefore` order. */
  function Ranked(s: seq<Course>): (r: seq<Course>)
    ensures multiset(r) == multiset(s)
    ensures forall i :: 0 <= i < |r| ==> r[i] in s
    ensures forall i :: 0 <= i < |r| - 1 ==> RanksBefore(r[i], r[i + 1])
  {
    RanksBeforeTotal();
    var r := SortBy(s, RanksBefore);
    assert forall i :: 0 <= i < |r| ==> multiset(s)[r[i]] > 0;
    r
  }

  /** The ten best ranked of `q`: a sorted part of it that no course left
      out outranks. */
  lemma TopTen(q: seq<Course>)
    ensures var r := Take(Ranked(q), 10);
      && |r| == (if |q| <= 10 then |q| else 10)
      && (forall i :: 0 <= i < |r| ==> r[i] in q)
      && (forall i :: 0 <= i < |r| - 1 ==> RanksBefore(r[i], r[i + 1]))
      && multiset(r) <= multiset(q)
      && (|q| <= 10 ==> multiset(r) == multiset(q))
      && forall c :: c in multiset(q) - multiset(r) ==> forall i :: 0 <= i < |r| ==> RanksBefore(r[i], c)
  {
    var sorted := Ranked(q);
    var r := Take(sorted, 10);
    CutRanked(sorted, |r|);
    assert forall i :: 0 <= i < |r| ==> r[i] == sorted[i];
  }

  function IsPublishedFeatured(c: Course): bool { c.isPublished && c.isFeatured }

  /** findFeatured: the ten best ranked published featured courses (all of
      them when there are fewer), best rated first, more students first among
      equal ratings. */
  function FindFeatured(courses: seq<Course>): (r: seq<Course>)
    ensures forall i :: 0 <= i < |r| ==> r[i].isPublished && r[i].isFeatured && r[i] in courses
    ensures var q := Filter(courses, IsPublishedFeatured);
      && |r| == (if |q| <= 10 then |q| else 10)
      && (forall i :: 0 <= i < |r| - 1 ==> RanksBefore(r[i], r[i + 1]))
      && multiset(r) <= multiset(q)
      && (|q| <= 10 ==> multiset(r) == multiset(q))
      && forall c :: c in multiset(q) - multiset(r) ==> forall i :: 0 <= i < |r| ==> RanksBefore(r[i], c)
  {
    var q := Filter(courses, IsPublishedFeatured);
    TopTen(q);
    var r := Take(Ranked(q), 10);
    FeaturedMembers(courses, r);
    r
  }

  lemma FeaturedMembers(courses: seq<Course>, r: seq<Course>)
    requires forall i :: 0 <= i < |r| ==> r[i] in Filter(courses, IsPublishedFeatured)
    ensures forall i :: 0 <= i < |r| ==> r[i].isPublished && r[i].isFeatured && r[i] in courses
  {
    var q := Filter(courses, IsPublishedFeatured);
    forall i | 0 <= i < |r|
      ensures r[i].isPublished && r[i].isFeatured && r[i] in courses
    {
      assert r[i] in q;
      assert IsPublishedFeatured(r[i]);
    }
  }

  /** findByCategory: exactly the published courses of that category, in the
      same order as findFeatured, without a limit. */
  function FindByCategory(courses: seq<Course>, category: string): (r: seq<Course>)
    ensures multiset(r) == multiset(Filter(courses, (c: Course) => c.isPublished && c.category == category))
    ensures forall i :: 0 <= i < |r| ==> r[i].isPublished && r[i].category == category
    ensures forall i :: 0 <= i < |r| - 1 ==> RanksBefore(r[i], r[i + 1])
  {
    Ranked(Filter(courses, (c: Course) => c.isPublished && c.category == category))
  }
}
