/** The document store the handlers read and write, in place of the Mongo
    collections: courses and lessons by id, and the users in their natural
    order (so that a `findOne` is the first match). */
module Db {
  import opened Common
  import opened CourseModel
  import opened LessonModel
  import opened UserModel

  class Store {
    var courses: map<Id, Course>
    var lessons: map<Id, Lesson>
    var users: seq<User>

    /** What every write through the ODM keeps: each stored course passed
        validation and its pre-save hook, and the users satisfy the schema
        and the unique indexes. Lessons carry no invariant, because an
        update bypasses their validators. */
    predicate Valid()
      reads this
    {
      (forall id :: id in courses ==> StoredCourse(courses[id])) && UsersInvariant(users)
    }

    constructor ()
      ensures Valid() && courses == map[] && lessons == map[] && users == []
    {
      courses := map[];
      lessons := map[];
      users := [];
    }

    /** The ids of all users (what a populate of a user reference resolves). */
    function UserIds(): (r: set<Id>)
      reads this
      ensures forall u :: u in users ==> u.id in r
      ensures forall id :: id in r ==> exists u :: u in users && u.id == id
    {
      set u | u in users :: u.id
    }

    /** `doc.save()` on a course: validation, then the pre-save hook, then
        the write; a document that fails validation is not written. */
    method SaveCourse(id: Id, c: Course) returns (ok: bool)
      requires Valid()
      modifies this
      ensures Valid()
      ensures ok == ValidCourse(c)
      ensures courses == if ok then old(courses)[id := PreSave(c)] else old(courses)
      ensures lessons == old(lessons) && users == old(users)
    {
      match Save(c)
      case None =>
        ok := false;
      case Some(stored) =>
        courses := courses[id := stored];
        ok := true;
    }
  }
}
