/** The instructor's course editor page: the filtered course list, the
    add/edit form with its tag and instructor pickers. */
module CreateCoursePage {
  import opened Common
  import opened ClientTypes

  /** The page's filters; an empty value means no restriction. */
  datatype AdminFilters = AdminFilters(search: string, category: string, status: string)

  /** A course is listed when its title or description contains the search
      text (ignoring case), its category is the chosen one, and its status
      is the chosen one ("published", or anything else for unpublished). */
  predicate AdminMatches(f: AdminFilters, c: CourseRecord) {
    (Includes(Lower(c.title), Lower(f.search)) || Includes(Lower(c.description), Lower(f.search))) &&
    (f.category == "" || c.category == f.category) &&
    (f.status == "" || (if f.status == "published" then c.isPublished else !c.isPublished))
  }

  function AdminMatcher(f: AdminFilters): CourseRecord -> bool {
    (c: CourseRecord) => AdminMatches(f, c)
  }

  /** The listed courses, in catalogue order. */
  function AdminFilter(courses: seq<CourseRecord>, f: AdminFilters): (r: seq<CourseRecord>)
    ensures SubseqOf(r, courses)
    ensures forall c :: c in r <==> c in courses && AdminMatches(f, c)
    ensures forall c :: multiset(r)[c] == if AdminMatches(f, c) then multiset(courses)[c] else 0
  {
    Filter(courses, AdminMatcher(f))
  }

  /** With no search text, category or status every course is listed. */
  lemma {:induction false} NoFiltersListsAll(courses: seq<CourseRecord>)
    ensures AdminFilter(courses, AdminFilters("", "", "")) == courses
  {
    forall i | 0 <= i < |courses|
      ensures AdminMatches(AdminFilters("", "", ""), courses[i])
    {
      IncludesEmpty(Lower(courses[i].title));
    }
    FilterKeepsAll(courses, AdminMatcher(AdminFilters("", "", "")));
  }

  /** Any status other than "published" lists the unpublished courses, so
      "published" and "draft" together list each course exactly once. */
  lemma PublishedAndDraftPartition(courses: seq<CourseRecord>)
    ensures |AdminFilter(courses, AdminFilters("", "", "published"))| +
            |AdminFilter(courses, AdminFilters("", "", "draft"))| == |courses|
  {
    forall c: CourseRecord
      ensures AdminMatcher(AdminFilters("", "", "draft"))(c) == !AdminMatcher(AdminFilters("", "", "published"))(c)
    {
      IncludesEmpty(Lower(c.title));
    }
    FilterSplitsLength(courses, AdminMatcher(AdminFilters("", "", "published")), AdminMatcher(AdminFilters("", "", "draft")));
  }

  // ---------------------------------------------------------------------------
  // The form

  datatype CourseForm = CourseForm(
    title: string, description: string, price: real, category: string,
    instructors: seq<Id>, courseImage: string, isPublished: bool, tags: seq<string>)

  const EmptyForm := CourseForm("", "", 0.0, "", [], "", false, [])

  /** The pickers' rule: a non-empty value is appended unless already
      chosen. */
  function AddIfNew(xs: seq<string>, x: string): (r: seq<string>)
    ensures x != "" && x !in xs ==> r == xs + [x]
    ensures x == "" || x in xs ==> r == xs
  {
    if x != "" && x !in xs then xs + [x] else xs
  }

  /** A tag as addTag stores it: non-empty, with no surrounding blanks. */
  predicate CleanTag(t: string) {
    t != "" && !IsSpace(t[0]) && !IsSpace(t[|t| - 1])
  }

  /** addTag: the trimmed text is added when it is not blank and not already
      a tag. */
  function WithTag(tags: seq<string>, text: string): (r: seq<string>)
    ensures r == tags || (r == tags + [Trim(text)] && CleanTag(Trim(text)) && Trim(text) !in tags)
    ensures NoDuplicates(tags) ==> NoDuplicates(r)
    ensures Trim(text) != "" ==> Trim(text) in r
  {
    AddIfNew(tags, Trim(text))
  }

  function TagIsNot(tag: string): string -> bool {
    (t: string) => t != tag
  }

  /** removeTag and the instructor chip's remove: every occurrence goes. */
  function Without(xs: seq<string>, x: string): (r: seq<string>)
    ensures x !in r
    ensures forall y :: y != x ==> (y in r <==> y in xs)
    ensures forall y :: y != x ==> multiset(r)[y] == multiset(xs)[y]
    ensures SubseqOf(r, xs)
    ensures NoDuplicates(xs) ==> NoDuplicates(r)
  {
    if NoDuplicates(xs) then
      FilterKeepsNoDuplicates(xs, TagIsNot(x));
      Filter(xs, TagIsNot(x))
    else Filter(xs, TagIsNot(x))
  }

  /** A tag edit the user can make. */
  datatype TagEdit = AddTag(text: string) | RemoveTag(tag: string)

  function ApplyTagEdits(tags: seq<string>, edits: seq<TagEdit>): seq<string>
    decreases |edits|
  {
    if |edits| == 0 then tags
    else
      var next := match edits[0]
        case AddTag(text) => WithTag(tags, text)
        case RemoveTag(tag) => Without(tags, tag);
      ApplyTagEdits(next, edits[1..])
  }

  /** Every tag is stored as addTag stores it. */
  predicate AllClean(tags: seq<string>) {
    forall t :: t in tags ==> CleanTag(t)
  }

  /** Starting from the empty form, any run of tag edits leaves the tags
      duplicate-free, non-empty and without surrounding blanks. */
  lemma {:induction false} TagEditsKeepTagsClean(tags: seq<string>, edits: seq<TagEdit>)
    requires NoDuplicates(tags) && AllClean(tags)
    ensures NoDuplicates(ApplyTagEdits(tags, edits)) && AllClean(ApplyTagEdits(tags, edits))
    decreases |edits|
  {
    if |edits| > 0 {
      var next := match edits[0]
        case AddTag(text) => WithTag(tags, text)
        case RemoveTag(tag) => Without(tags, tag);
      assert AllClean(next);
      TagEditsKeepTagsClean(next, edits[1..]);
    }
  }

  function RefId(ref: InstructorRef): Id {
    ref.id
  }

  /** openEditModal's form: each missing value falls back to the empty one,
      and instructors are reduced to their ids. A price is always present
      and `price || 0` maps 0 to 0, so the price is copied as it is. */
  function EditForm(c: CourseRecord): (r: CourseForm)
    ensures r.title == c.title && r.description == c.description && r.category == c.category
    ensures r.isPublished == c.isPublished && r.price == c.price
    ensures c.courseImage.Some? ==> r.courseImage == c.courseImage.value
    ensures c.courseImage.None? ==> r.courseImage == ""
    ensures r.tags == (if c.tags.Some? then c.tags.value else [])
    ensures c.instructors.None? ==> r.instructors == []
    ensures c.instructors.Some? ==>
      |r.instructors| == |c.instructors.value| &&
      forall i :: 0 <= i < |r.instructors| ==> r.instructors[i] == c.instructors.value[i].id
  {
    CourseForm(
      c.title, c.description, c.price, c.category,
      if c.instructors.Some? then seq(|c.instructors.value|, i requires 0 <= i < |c.instructors.value| => RefId(c.instructors.value[i])) else [],
      if c.courseImage.Some? then c.courseImage.value else "",
      c.isPublished,
      if c.tags.Some? then c.tags.value else [])
  }

  datatype EditorState = EditorState(form: CourseForm, newTag: string, currentCourseId: Option<Id>, modalOpen: bool)

  /** The page's local state. */
  class Editor {
    var form: CourseForm
    var newTag: string
    var currentCourseId: Option<Id>
    var modalOpen: bool

    function State(): EditorState
      reads this
    {
      EditorState(form, newTag, currentCourseId, modalOpen)
    }

    constructor ()
      ensures State() == EditorState(EmptyForm, "", None, false)
    {
      form, newTag, currentCourseId, modalOpen := EmptyForm, "", None, false;
    }

    method SetNewTag(text: string)
      modifies this
      ensures State() == old(State()).(newTag := text)
    {
      newTag := text;
    }

    /** addTag: on success the tag is added and the input cleared; a blank
        or repeated tag leaves everything as it was. */
    method AddTagAction()
      modifies this
      ensures Trim(old(newTag)) != "" && Trim(old(newTag)) !in old(form).tags ==>
        State() == old(State()).(form := old(form).(tags := WithTag(old(form).tags, old(newTag))), newTag := "")
      ensures !(Trim(old(newTag)) != "" && Trim(old(newTag)) !in old(form).tags) ==> State() == old(State())
    {
      var t := Trim(newTag);
      if t != "" && t !in form.tags {
        form := form.(tags := WithTag(form.tags, newTag));
        newTag := "";
      }
    }

    method RemoveTagAction(tag: string)
      modifies this
      ensures State() == old(State()).(form := old(form).(tags := Without(old(form).tags, tag)))
    {
      form := form.(tags := Without(form.tags, tag));
    }

    /** The instructor dropdown: the chosen id is added unless empty or
        already chosen. */
    method SelectInstructor(selectedId: Id)
      modifies this
      ensures State() == old(State()).(form := old(form).(instructors := AddIfNew(old(form).instructors, selectedId)))
    {
      form := form.(instructors := AddIfNew(form.instructors, selectedId));
    }

    method RemoveInstructor(id: Id)
      modifies this
      ensures State() == old(State()).(form := old(form).(instructors := Without(old(form).instructors, id)))
    {
      form := form.(instructors := Without(form.instructors, id));
    }

    /** openAddModal: an empty form for a new course. */
    method OpenAddModal()
      modifies this
      ensures State() == old(State()).(form := EmptyForm, currentCourseId := None, modalOpen := true)
    {
      form, currentCourseId, modalOpen := EmptyForm, None, true;
    }

    /** openEditModal: the form filled from the course. */
    method OpenEditModal(c: CourseRecord)
      modifies this
      ensures State() == old(State()).(form := EditForm(c), currentCourseId := Some(c.id), modalOpen := true)
    {
      form, currentCourseId, modalOpen := EditForm(c), Some(c.id), true;
    }
  }
}
