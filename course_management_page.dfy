/** The admin course dashboard: summary counts, the filtered list and the
    edit form. */
module CourseManagementPage {
  import opened Common
  import opened ClientTypes

  function IsPublished(c: CourseRecord): bool {
    c.isPublished
  }

  function IsDraft(c: CourseRecord): bool {
    !c.isPublished
  }

  /** The "published" card. */
  function PublishedCount(courses: seq<CourseRecord>): (r: nat)
    ensures r <= |courses|
  {
    |Filter(courses, IsPublished)|
  }

  /** The card shows the total exactly when every course is published. */
  lemma PublishedCountIsTotalIff(courses: seq<CourseRecord>)
    ensures PublishedCount(courses) == |courses| <==> forall i :: 0 <= i < |courses| ==> courses[i].isPublished
  {
    if forall i :: 0 <= i < |courses| ==> courses[i].isPublished {
      FilterKeepsAll(courses, IsPublished);
    } else {
      var i :| 0 <= i < |courses| && !courses[i].isPublished;
      assert courses[i] in Filter(courses, IsDraft);
      FilterSplitsLength(courses, IsPublished, IsDraft);
    }
  }

  /** The "drafts" card, computed as total minus published: exactly the
      courses not marked published. */
  function DraftCount(courses: seq<CourseRecord>): (r: nat)
    ensures r == |Filter(courses, IsDraft)|
  {
    FilterSplitsLength(courses, IsPublished, IsDraft);
    |courses| - PublishedCount(courses)
  }

  /** A course is listed when its title contains the search text (ignoring
      case) and its status matches: "All" lists every course, "Published"
      the published ones, and any other value the unpublished ones. */
  predicate ManagementMatches(searchTerm: string, status: string, c: CourseRecord) {
    Includes(Lower(c.title), Lower(searchTerm)) &&
    (status == "All" || (if status == "Published" then c.isPublished else !c.isPublished))
  }

  function ManagementMatcher(searchTerm: string, status: string): CourseRecord -> bool {
    (c: CourseRecord) => ManagementMatches(searchTerm, status, c)
  }

  function ManagementFilter(courses: seq<CourseRecord>, searchTerm: string, status: string): (r: seq<CourseRecord>)
    ensures SubseqOf(r, courses)
    ensures forall c :: c in r <==> c in courses && ManagementMatches(searchTerm, status, c)
    ensures forall c :: multiset(r)[c] == if ManagementMatches(searchTerm, status, c) then multiset(courses)[c] else 0
  {
    Filter(courses, ManagementMatcher(searchTerm, status))
  }

  /** The initial view (no search, "All") lists every course, and the
      "Published" and "Draft" views have the sizes of the two cards. */
  lemma {:induction false} ViewsMatchCards(courses: seq<CourseRecord>)
    ensures ManagementFilter(courses, "", "All") == courses
    ensures |ManagementFilter(courses, "", "Published")| == PublishedCount(courses)
    ensures |ManagementFilter(courses, "", "Draft")| == DraftCount(courses)
  {
    forall c: CourseRecord
      ensures ManagementMatcher("", "All")(c)
      ensures ManagementMatcher("", "Published")(c) == IsPublished(c)
      ensures ManagementMatcher("", "Draft")(c) == IsDraft(c)
    {
      IncludesEmpty(Lower(c.title));
    }
    FilterKeepsAll(courses, ManagementMatcher("", "All"));
    FilterSameTest(courses, ManagementMatcher("", "Published"), IsPublished);
    FilterSameTest(courses, ManagementMatcher("", "Draft"), IsDraft);
  }

  /** The edit form. `isPublished` is copied from the record's `published`
      key, not from `isPublished`. */
  datatype ManagementForm = ManagementForm(
    title: string, description: string, category: string, price: real, isPublished: Option<bool>)

  /** handleEdit's form. */
  function EditFormFor(c: CourseRecord): (r: ManagementForm)
    ensures r.title == c.title && r.description == c.description && r.category == c.category && r.price == c.price
    ensures r.isPublished == c.published
  {
    ManagementForm(c.title, c.description, c.category, c.price, c.published)
  }

  /** A published course whose record has no `published` key opens with the
      published box unticked, whatever the stored flag says. */
  lemma PublishedCourseOpensUnticked(c: CourseRecord)
    requires c.isPublished && c.published.None?
    ensures EditFormFor(c).isPublished.None? && EditFormFor(c).isPublished != Some(c.isPublished)
  {
  }
}
