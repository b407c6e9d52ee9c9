/** The lesson list that getCourseById returns beside a course: the flat
    `lessons` references when any of them resolves, otherwise the lessons of
    the curriculum sections in section order, each annotated with whether
    the caller's ledger marks it completed, then sorted by `order`. */
module Projection {
  import opened Common
  import opened CourseModel
  import opened LessonModel

  /** One entry of the projected list (the fields the model keeps). */
  datatype LessonView = LessonView(id: Id, title: string, order: int, kind: string, isPublished: bool, completed: bool)

  // ---------------------------------------------------------------------------
  // The caller's ledger

  /** `students.student` after population: the id when it names a user, and
      absent when the user no longer exists. */
  function PopulatedStudent(e: Enrollment, userIds: set<Id>): Option<Id> {
    if e.student in userIds then Some(e.student) else None
  }

  /** The enrollment test of the handler. It compares the populated id with
      the caller's id, both possibly absent, so an anonymous caller matches an
      enrollment whose student no longer resolves. */
  predicate IsCallerEnrollment(e: Enrollment, userIds: set<Id>, caller: Option<Id>) {
    PopulatedStudent(e, userIds) == caller
  }

  /** The progress ledger of the first enrollment that matches the caller. */
  function CallerLedger(students: seq<Enrollment>, userIds: set<Id>, caller: Option<Id>): (r: Option<seq<LessonProgress>>)
    ensures r.None? <==> forall i :: 0 <= i < |students| ==> !IsCallerEnrollment(students[i], userIds, caller)
    ensures r.Some? ==> exists i :: (0 <= i < |students| && IsCallerEnrollment(students[i], userIds, caller) &&
      (forall j :: 0 <= j < i ==> !IsCallerEnrollment(students[j], userIds, caller)) &&
      r.value == students[i].progress)
  {
    match FirstIndex(students, (e: Enrollment) => IsCallerEnrollment(e, userIds, caller))
    case None => None
    case Some(i) => Some(students[i].progress)
  }

  /** `lessonProgress?.completed || false`: the first ledger entry that
      refers to the lesson decides. */
  function IsCompleted(ledger: Option<seq<LessonProgress>>, id: Id): (r: bool)
    ensures r <==> ledger.Some? && exists k :: (0 <= k < |ledger.value| &&
      ledger.value[k].lesson == Some(id) && ledger.value[k].completed &&
      forall j :: 0 <= j < k ==> ledger.value[j].lesson != Some(id))
  {
    if ledger.None? then false
    else
      match FirstIndex(ledger.value, (p: LessonProgress) => p.lesson == Some(id))
      case None => false
      case Some(k) => ledger.value[k].completed
  }

  /** The projected entry for lesson `id` shown with `order`; a falsy `type`
      reads as "video". */
  function View(id: Id, l: Lesson, order: int, ledger: Option<seq<LessonProgress>>): (r: LessonView)
    ensures r.id == id && r.title == l.title && r.order == order && r.isPublished == l.isPublished
    ensures r.kind != "" && (l.kind != "" ==> r.kind == l.kind)
    ensures r.completed == IsCompleted(ledger, id)
  {
    LessonView(id, l.title, order, if l.kind == "" then "video" else l.kind, l.isPublished, IsCompleted(ledger, id))
  }

  // ---------------------------------------------------------------------------
  // The flat list

  /** Populating the flat `lessons` array drops the references that do not
      resolve. */
  function Resolved(ids: seq<Id>, lessons: map<Id, Lesson>): (r: seq<Id>)
    ensures forall i :: 0 <= i < |r| ==> r[i] in lessons
    ensures forall id :: id in r <==> id in ids && id in lessons
    ensures SubseqOf(r, ids)
  {
    Filter(ids, (id: Id) => id in lessons)
  }

  /** One entry per resolved flat reference, each with its lesson's order. */
  function FlatViews(ids: seq<Id>, lessons: map<Id, Lesson>, ledger: Option<seq<LessonProgress>>): (r: seq<LessonView>)
    requires forall i :: 0 <= i < |ids| ==> ids[i] in lessons
    ensures |r| == |ids|
    ensures forall i :: 0 <= i < |ids| ==>
      r[i].id == ids[i] && r[i].order == lessons[ids[i]].order && r[i].completed == IsCompleted(ledger, ids[i])
  {
    seq(|ids|, i requires 0 <= i < |ids| => View(ids[i], lessons[ids[i]], lessons[ids[i]].order, ledger))
  }

  // ---------------------------------------------------------------------------
  // The curriculum

  /** A curriculum item resolves when it refers to a stored lesson. */
  predicate Resolves(item: CurriculumItem, lessons: map<Id, Lesson>) {
    item.lesson.Some? && item.lesson.value in lessons
  }

  /** The entry for one curriculum item: its own order unless that is 0, in
      which case the lesson's order. An item that does not resolve reads
      `_id` of null, which fails the whole request. */
  function ItemView(item: CurriculumItem, lessons: map<Id, Lesson>, ledger: Option<seq<LessonProgress>>): (r: Option<LessonView>)
    ensures r.Some? <==> Resolves(item, lessons)
    ensures r.Some? ==> (r.value.id == item.lesson.value &&
      r.value.order == (if item.order != 0 then item.order else lessons[item.lesson.value].order) &&
      r.value.completed == IsCompleted(ledger, item.lesson.value))
  {
    if Resolves(item, lessons) then
      var l := lessons[item.lesson.value];
      Some(View(item.lesson.value, l, if item.order != 0 then item.order else l.order, ledger))
    else None
  }

  /** `section.lessons.map(...)`: one entry per item, None when an item
      does not resolve. */
  function ItemViews(items: seq<CurriculumItem>, lessons: map<Id, Lesson>, ledger: Option<seq<LessonProgress>>): (r: Option<seq<LessonView>>)
    ensures r.Some? ==> |r.value| == |items|
  {
    if |items| == 0 then Some([])
    else
      match (ItemView(items[0], lessons, ledger), ItemViews(items[1..], lessons, ledger))
      case (Some(v), Some(rest)) => Some([v] + rest)
      case _ => None
  }

  /** `curriculum.flatMap(section => section.lessons.map(...))`. */
  function SectionViews(sections: seq<Section>, lessons: map<Id, Lesson>, ledger: Option<seq<LessonProgress>>): (r: Option<seq<LessonView>>)
    ensures r.Some? ==> |r.value| == ItemCount(sections)
  {
    if |sections| == 0 then Some([])
    else
      match (ItemViews(sections[0].lessons, lessons, ledger), SectionViews(sections[1..], lessons, ledger))
      case (Some(vs), Some(rest)) => Some(vs + rest)
      case _ => None
  }

  /** The number of items over all sections. */
  function ItemCount(sections: seq<Section>): nat {
    if |sections| == 0 then 0 else |sections[0].lessons| + ItemCount(sections[1..])
  }

  /** Item views: defined iff every item resolves; one entry per item, in
      order, each the view of some item. */
  lemma {:induction false} ItemViewsSpec(items: seq<CurriculumItem>, lessons: map<Id, Lesson>, ledger: Option<seq<LessonProgress>>)
    ensures ItemViews(items, lessons, ledger).Some? <==> forall k :: 0 <= k < |items| ==> Resolves(items[k], lessons)
    ensures ItemViews(items, lessons, ledger).Some? ==>
      |ItemViews(items, lessons, ledger).value| == |items| &&
      forall k :: 0 <= k < |items| ==> Some(ItemViews(items, lessons, ledger).value[k]) == ItemView(items[k], lessons, ledger)
  {
    if |items| > 0 {
      ItemViewsSpec(items[1..], lessons, ledger);
      assert forall k :: 1 <= k < |items| ==> items[1..][k - 1] == items[k];
    }
  }

  /** Section views: defined iff every item of every section resolves, and
      then with one entry per item. */
  lemma {:induction false} SectionViewsDefined(sections: seq<Section>, lessons: map<Id, Lesson>, ledger: Option<seq<LessonProgress>>)
    ensures SectionViews(sections, lessons, ledger).Some? <==>
      forall s, k :: 0 <= s < |sections| && 0 <= k < |sections[s].lessons| ==> Resolves(sections[s].lessons[k], lessons)
    ensures SectionViews(sections, lessons, ledger).Some? ==>
      |SectionViews(sections, lessons, ledger).value| == ItemCount(sections)
  {
    if |sections| > 0 {
      ItemViewsSpec(sections[0].lessons, lessons, ledger);
      SectionViewsDefined(sections[1..], lessons, ledger);
      assert forall s :: 1 <= s < |sections| ==> sections[1..][s - 1] == sections[s];
    }
  }

  /** Every entry of the section views is the view of some item. */
  lemma {:induction false} SectionViewsMembers(sections: seq<Section>, lessons: map<Id, Lesson>, ledger: Option<seq<LessonProgress>>)
    ensures SectionViews(sections, lessons, ledger).Some? ==>
      forall v :: v in SectionViews(sections, lessons, ledger).value ==>
        exists s, k :: 0 <= s < |sections| && 0 <= k < |sections[s].lessons| &&
          ItemView(sections[s].lessons[k], lessons, ledger) == Some(v)
  {
    if |sections| > 0 {
      var head := ItemViews(sections[0].lessons, lessons, ledger);
      var tail := SectionViews(sections[1..], lessons, ledger);
      if head.Some? && tail.Some? {
        ItemViewsSpec(sections[0].lessons, lessons, ledger);
        SectionViewsMembers(sections[1..], lessons, ledger);
        forall v | v in head.value + tail.value
          ensures exists s, k :: (0 <= s < |sections| && 0 <= k < |sections[s].lessons| &&
            ItemView(sections[s].lessons[k], lessons, ledger) == Some(v))
        {
          if v in head.value {
            var k :| 0 <= k < |head.value| && head.value[k] == v;
            assert ItemView(sections[0].lessons[k], lessons, ledger) == Some(v);
          } else {
            assert v in tail.value;
            var s, k :| 0 <= s < |sections[1..]| && 0 <= k < |sections[1..][s].lessons| &&
              ItemView(sections[1..][s].lessons[k], lessons, ledger) == Some(v);
            assert sections[1..][s] == sections[s + 1];
          }
        }
      }
    }
  }

  /** Section views: defined iff every item of every section resolves; as
      many entries as items, each the view of some item. */
  lemma SectionViewsSpec(sections: seq<Section>, lessons: map<Id, Lesson>, ledger: Option<seq<LessonProgress>>)
    ensures SectionViews(sections, lessons, ledger).Some? <==>
      forall s, k :: 0 <= s < |sections| && 0 <= k < |sections[s].lessons| ==> Resolves(sections[s].lessons[k], lessons)
    ensures SectionViews(sections, lessons, ledger).Some? ==>
      |SectionViews(sections, lessons, ledger).value| == ItemCount(sections) &&
      forall v :: v in SectionViews(sections, lessons, ledger).value ==>
        exists s, k :: 0 <= s < |sections| && 0 <= k < |sections[s].lessons| &&
          ItemView(sections[s].lessons[k], lessons, ledger) == Some(v)
  {
    SectionViewsDefined(sections, lessons, ledger);
    SectionViewsMembers(sections, lessons, ledger);
  }

  // ---------------------------------------------------------------------------
  // The whole projection

  /** The unsorted list: flat when some flat reference resolves, else the
      curriculum, else empty. None stands for the 500 response. */
  function Unsorted(c: Course, lessons: map<Id, Lesson>, userIds: set<Id>, caller: Option<Id>): (r: Option<seq<LessonView>>)
    ensures |Resolved(c.lessons, lessons)| > 0 ==> r.Some? && |r.value| == |Resolved(c.lessons, lessons)|
    ensures r.None? ==> |Resolved(c.lessons, lessons)| == 0 && |c.curriculum| > 0
    ensures |Resolved(c.lessons, lessons)| == 0 && |c.curriculum| == 0 ==> r == Some([])
  {
    var ledger := CallerLedger(c.students, userIds, caller);
    var flat := Resolved(c.lessons, lessons);
    if |flat| > 0 then Some(FlatViews(flat, lessons, ledger))
    else if |c.curriculum| > 0 then SectionViews(c.curriculum, lessons, ledger)
    else Some([])
  }

  /** The comparator `a.order - b.order`, read as "may come first". */
  function ByOrder(a: LessonView, b: LessonView): bool {
    a.order <= b.order
  }

  lemma ByOrderTotal()
    ensures Total(ByOrder)
  {
  }

  /** The response's `lessons`: the unsorted list sorted ascending by order. */
  function Project(c: Course, lessons: map<Id, Lesson>, userIds: set<Id>, caller: Option<Id>): (r: Option<seq<LessonView>>)
    ensures r.Some? <==> Unsorted(c, lessons, userIds, caller).Some?
    ensures r.Some? ==> |r.value| == |Unsorted(c, lessons, userIds, caller).value|
    ensures r.Some? ==> multiset(r.value) == multiset(Unsorted(c, lessons, userIds, caller).value)
    ensures r.Some? ==> forall i :: 0 <= i < |r.value| - 1 ==> r.value[i].order <= r.value[i + 1].order
  {
    ByOrderTotal();
    match Unsorted(c, lessons, userIds, caller)
    case None => None
    case Some(vs) => Some(SortBy(vs, ByOrder))
  }

  /** When some flat reference resolves, the curriculum is ignored: one entry
      per resolved reference, each a flat lesson with its own order. */
  lemma {:induction false} FlatListWins(c: Course, lessons: map<Id, Lesson>, userIds: set<Id>, caller: Option<Id>)
    requires |Resolved(c.lessons, lessons)| > 0
    ensures Project(c, lessons, userIds, caller).Some?
    ensures |Project(c, lessons, userIds, caller).value| == |Resolved(c.lessons, lessons)|
    ensures forall v :: v in Project(c, lessons, userIds, caller).value ==>
      v.id in c.lessons && v.id in lessons && v.order == lessons[v.id].order
  {
    var flat := Resolved(c.lessons, lessons);
    var ledger := CallerLedger(c.students, userIds, caller);
    var vs := FlatViews(flat, lessons, ledger);
    var r := Project(c, lessons, userIds, caller).value;
    assert multiset(r) == multiset(vs);
    forall v | v in r ensures v.id in c.lessons && v.id in lessons && v.order == lessons[v.id].order {
      assert multiset(vs)[v] > 0;
      var i :| 0 <= i < |vs| && vs[i] == v;
      assert v.id == flat[i];
    }
  }

  /** With no resolvable flat reference, the curriculum decides: the request
      fails iff some item does not resolve; otherwise one entry per item, each
      the view of an item (whose order falls back to the lesson's when the
      item's is 0). With no curriculum either, the list is empty. */
  lemma {:induction false} CurriculumFallback(c: Course, lessons: map<Id, Lesson>, userIds: set<Id>, caller: Option<Id>)
    requires |Resolved(c.lessons, lessons)| == 0
    ensures |c.curriculum| == 0 ==> Project(c, lessons, userIds, caller) == Some([])
    ensures Project(c, lessons, userIds, caller).Some? <==>
      forall s, k :: 0 <= s < |c.curriculum| && 0 <= k < |c.curriculum[s].lessons| ==>
        Resolves(c.curriculum[s].lessons[k], lessons)
    ensures Project(c, lessons, userIds, caller).Some? ==>
      |Project(c, lessons, userIds, caller).value| == ItemCount(c.curriculum) &&
      forall v :: v in Project(c, lessons, userIds, caller).value ==>
        exists s, k :: 0 <= s < |c.curriculum| && 0 <= k < |c.curriculum[s].lessons| &&
          ItemView(c.curriculum[s].lessons[k], lessons, CallerLedger(c.students, userIds, caller)) == Some(v)
  {
    var ledger := CallerLedger(c.students, userIds, caller);
    SectionViewsSpec(c.curriculum, lessons, ledger);
    var p := Project(c, lessons, userIds, caller);
    if p.Some? {
      var u := Unsorted(c, lessons, userIds, caller).value;
      forall v | v in p.value ensures v in u {
        assert multiset(u)[v] > 0;
      }
    }
  }

  /** Each projected entry's `completed` is read from the caller's ledger:
      true iff the first enrollment matching the caller has a first entry for
      that lesson that is marked completed. */
  lemma {:induction false} CompletedFromLedger(c: Course, lessons: map<Id, Lesson>, userIds: set<Id>, caller: Option<Id>)
    ensures Project(c, lessons, userIds, caller).Some? ==>
      forall v :: v in Project(c, lessons, userIds, caller).value ==>
        v.completed == IsCompleted(CallerLedger(c.students, userIds, caller), v.id)
  {
    var ledger := CallerLedger(c.students, userIds, caller);
    var p := Project(c, lessons, userIds, caller);
    if p.Some? {
      var u := Unsorted(c, lessons, userIds, caller).value;
      forall v | v in p.value ensures v.completed == IsCompleted(ledger, v.id) {
        assert multiset(u)[v] > 0;
        assert v in u;
        var flat := Resolved(c.lessons, lessons);
        if |flat| > 0 {
          var i :| 0 <= i < |u| && u[i] == v;
        } else {
          SectionViewsSpec(c.curriculum, lessons, ledger);
        }
      }
    }
  }

  /** A caller with no matching enrollment sees no lesson completed. */
  lemma NotEnrolledSeesNothingCompleted(c: Course, lessons: map<Id, Lesson>, userIds: set<Id>, caller: Option<Id>)
    requires forall i :: 0 <= i < |c.students| ==> !IsCallerEnrollment(c.students[i], userIds, caller)
    ensures Project(c, lessons, userIds, caller).Some? ==>
      forall v :: v in Project(c, lessons, userIds, caller).value ==> !v.completed
  {
    CompletedFromLedger(c, lessons, userIds, caller);
  }
}
