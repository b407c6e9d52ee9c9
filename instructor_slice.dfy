/** The client's instructor list, filled from `/api/instructors`. */
module InstructorSlice {
  import opened Common

  /** An instructor document as the server sends it. */
  datatype RawInstructor = RawInstructor(
    docId: Id, name: string, email: string, avatar: Option<string>, bio: Option<string>, role: string)

  /** An instructor as the client keeps it. */
  datatype Instructor = Instructor(
    id: Id, name: string, email: string, avatar: Option<string>, bio: Option<string>, role: string)

  /** The thunk's mapping of one document: `_id` becomes `id` and the role
      is written as "instructor" whatever the document said. */
  function FromRaw(raw: RawInstructor): (r: Instructor)
    ensures r.role == "instructor" && r.id == raw.docId
  {
    Instructor(raw.docId, raw.name, raw.email, raw.avatar, raw.bio, "instructor")
  }

  /** fetchInstructors' `res.data.map(...)`: one instructor per document,
      in the same order. */
  function MapInstructors(raws: seq<RawInstructor>): (r: seq<Instructor>)
    ensures |r| == |raws|
    ensures forall i :: 0 <= i < |r| ==> r[i] == FromRaw(raws[i])
  {
    seq(|raws|, i requires 0 <= i < |raws| => FromRaw(raws[i]))
  }

  /** The mapping preserves the documents' ids, and hence their
      distinctness, and every mapped record claims the instructor role. */
  lemma MappedIdsAndRoles(raws: seq<RawInstructor>)
    ensures forall i :: 0 <= i < |raws| ==> MapInstructors(raws)[i].id == raws[i].docId
    ensures forall i :: 0 <= i < |raws| ==> MapInstructors(raws)[i].role == "instructor"
    ensures (forall i, j :: 0 <= i < j < |raws| ==> raws[i].docId != raws[j].docId) ==>
      (forall i, j :: 0 <= i < j < |raws| ==> MapInstructors(raws)[i].id != MapInstructors(raws)[j].id)
  {
  }

  /** Mapping a concatenation maps each part. */
  lemma MapInstructorsAppend(a: seq<RawInstructor>, b: seq<RawInstructor>)
    ensures MapInstructors(a + b) == MapInstructors(a) + MapInstructors(b)
  {
  }

  datatype InstructorState = InstructorState(list: seq<Instructor>, loading: bool, error: Option<string>)

  class Store {
    var list: seq<Instructor>
    var loading: bool
    var error: Option<string>

    function State(): InstructorState
      reads this
    {
      InstructorState(list, loading, error)
    }

    constructor ()
      ensures State() == InstructorState([], false, None)
    {
      list, loading, error := [], false, None;
    }

    method ClearInstructorError()
      modifies this
      ensures State() == old(State()).(error := None)
    {
      error := None;
    }

    /** resetInstructors: back to the initial state. */
    method ResetInstructors()
      modifies this
      ensures State() == InstructorState([], false, None)
    {
      list, error, loading := [], None, false;
    }

    method FetchPending()
      modifies this
      ensures State() == old(State()).(loading := true)
    {
      loading := true;
    }

    /** fetchInstructors.fulfilled with the server's documents. */
    method FetchFulfilled(raws: seq<RawInstructor>)
      modifies this
      ensures State() == old(State()).(loading := false, list := MapInstructors(raws))
    {
      loading, list := false, MapInstructors(raws);
    }

    /** fetchInstructors.rejected: the rejection message, or a fixed text
        when there is none. */
    method FetchRejected(message: Option<string>)
      modifies this
      ensures State() == old(State()).(loading := false,
        error := Some(if message.Some? then message.value else "Unknown error occurred"))
    {
      loading := false;
      error := Some(if message.Some? then message.value else "Unknown error occurred");
    }
  }
}
