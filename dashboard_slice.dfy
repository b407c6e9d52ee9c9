/** The client's dashboard store: what the role's dashboard endpoint
    returned, with the request status. */
module DashboardSlice {
  import opened Common
  import opened ClientTypes

  datatype Deadline = Deadline(id: Id, title: string, course: string)
  datatype Activity = Activity(id: Id, title: string)
  datatype Recommendation = Recommendation(id: Id, title: string)

  /** The user and the role-specific blocks are kept as received; each is
      represented by an opaque text. */
  type Opaque = string

  /** The part of a dashboard response the fulfilled case copies. */
  datatype DashboardData = DashboardData(
    userData: Option<Opaque>,
    courses: seq<CourseRecord>,
    deadlines: seq<Deadline>,
    activities: seq<Activity>,
    recommendations: seq<Recommendation>,
    studentData: Option<Opaque>,
    instructorData: Option<Opaque>,
    adminData: Option<Opaque>)

  const NoData := DashboardData(None, [], [], [], [], None, None, None)

  /** The endpoint fetchDashboardData calls for the signed-in user's role:
      the instructor and admin dashboards for those roles, the student
      dashboard for any other role or none. */
  function EndpointFor(role: Option<string>): (r: string)
    ensures r == "/dashboard/instructor" <==> role == Some("instructor")
    ensures r == "/dashboard/admin" <==> role == Some("admin")
    ensures r == "/dashboard/student" <==> role != Some("instructor") && role != Some("admin")
  {
    var endpoint := "/dashboard/student";
    var endpoint' := if role == Some("instructor") then "/dashboard/instructor" else endpoint;
    if role == Some("admin") then "/dashboard/admin" else endpoint'
  }

  datatype DashboardState = DashboardState(data: DashboardData, status: RequestStatus, error: Option<string>)

  class Store {
    var data: DashboardData
    var status: RequestStatus
    var error: Option<string>

    function State(): DashboardState
      reads this
    {
      DashboardState(data, status, error)
    }

    constructor ()
      ensures State() == DashboardState(NoData, Idle, None)
    {
      data, status, error := NoData, Idle, None;
    }

    method ClearError()
      modifies this
      ensures State() == old(State()).(error := None)
    {
      error := None;
    }

    /** updateCourseProgress: the same edit as the course store's. */
    method UpdateCourseProgress(courseId: Id, progress: int)
      modifies this
      ensures State() == old(State()).(data := old(data).(courses := SetProgress(old(data).courses, courseId, progress)))
    {
      data := data.(courses := SetProgress(data.courses, courseId, progress));
    }

    /** markActivityAsRead looks the activity up and changes nothing, found
        or not (there is no read flag to set). */
    method MarkActivityAsRead(id: Id) returns (found: bool)
      ensures found <==> exists i :: 0 <= i < |data.activities| && data.activities[i].id == id
    {
      found := FirstIndex(data.activities, (a: Activity) => a.id == id).Some?;
    }

    method FetchPending()
      modifies this
      ensures State() == old(State()).(status := Loading, error := None)
    {
      status, error := Loading, None;
    }

    /** fetchDashboardData.fulfilled copies the eight data fields; the error
        of an earlier failure is left in place. */
    method FetchFulfilled(received: DashboardData)
      modifies this
      ensures State() == old(State()).(status := Succeeded, data := received)
    {
      status, data := Succeeded, received;
    }

    method FetchRejected(message: string)
      modifies this
      ensures State() == old(State()).(status := Failed, error := Some(message))
    {
      status, error := Failed, Some(message);
    }
  }
}
