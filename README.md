# Advanced LMS — a Dafny model of its core

This project models the core of a learning management system. The system has an
Express/Mongoose backend and a Next.js/Redux frontend. The model covers four parts:

- **Course enrollment and progress store.** This covers the Course and Lesson
  documents, with their schema validators, defaults and pre-save hook. It also
  covers the course handlers (create, update, delete, read with the lesson
  projection, enroll, progress) and the lesson handlers (read, create, update,
  delete, mark completed). All of them run against a document store (`Db.Store`)
  that keeps every stored course valid and its `studentsCount` in step with its
  enrollments.
- **Identity resolution and access checks.** This covers the User document, with
  its password-required rule, role enum, unique indexes and password re-hash on
  save. It also covers the Google and GitHub verify callbacks. Each one returns
  the linked account, links an account by email, or creates a student. Last are
  the `authenticate` and `authorize` request guards.
- **Client state.** The Redux slices for courses, lessons, UI, dashboard, auth,
  instructors and user are modelled. Each slice is a class whose fields are the
  slice's state keys, and each reducer case is a method. Every method states the
  whole new state in terms of the old one. Where the source keeps an invariant,
  the methods preserve it: no duplicate sidebar items, no two modals with one id,
  and no lessons without a current course. The list edits these reducers perform
  (replace the first match, remove all matches, toggle, set progress) are pure
  functions in `ClientTypes` and `UiSlice`, and lemmas state what they promise.
- **Catalog and admin filtering.** These are the filters and counters of the
  admin course editor, the course-management page and the public catalog. The
  editor's tag and instructor edits are modelled, and so are the catalog's
  filter bar setters.

The store, the request and each slice are classes with `modifies` frames. Pure
JavaScript expressions (filters, maps, the projection, the verify callbacks'
decision logic) are functions, and lemmas relate them. Random ids, clock values,
token verification and password hashing are parameters.

## Model

| member | source | states |
|---|---|---|
| CourseModel.PreSave | backend/src/models/Course.ts:268-271 | the pre-save hook sets `studentsCount` to the number of enrollments and changes nothing else |
| CourseModel.ValidCourse | backend/src/models/Course.ts:80-259 | the modelled schema validators: required strings non-empty, the maxlength bounds on title, description and review comments, the numeric bounds on price, ratings and instructor rating, the level enum, and a name for every curriculum section |
| CourseModel.Save | backend/src/models/Course.ts:80-271 | a save succeeds iff the course passes every modelled schema validator (title ≤ 100, description ≤ 2000, price present and ≥ 0, level enum, rating in [0,5], review ratings in [1,5], …); what it stores has a consistent `studentsCount` |
| CourseModel.SaveStoredIsIdentity | backend/src/models/Course.ts:268-271 | saving a course that is already stored and consistent stores it unchanged |
| CourseModel.SaveAfterEnrollment | backend/src/controllers/courseController.ts:273-278 | pushing one enrollment onto a stored course always saves, and the count goes up by exactly one |
| CourseModel.TrimAll | backend/src/models/Course.ts:190-193 | the tags are trimmed one by one, keeping their number and order |
| CourseModel.NewCourse | backend/src/controllers/courseController.ts:10-28 | every field of the body is copied, enrollments and reviews included; the title and each tag are trimmed; a missing level is Beginner, a missing rating and count 0, and missing published and featured flags false; the `instructors` key is not a schema path and is not kept |
| CourseModel.MissingPriceRefused | backend/src/models/Course.ts:127-131 | `price` is required and has no default, so a create body without one is refused |
| CourseModel.CreatedCountIsEnrollments | backend/src/models/Course.ts:268-271 | a created course stores the enrollments of its body, and its count is theirs whatever count the body gives |
| CourseModel.Assigned | backend/src/controllers/courseController.ts:53 | `Object.assign`: each patchable field present in the body replaces the stored one (title and tags trimmed, as the schema setters do), each absent one stays; enrollments, curriculum, reviews, instructor, instructor info, original price and rating are kept |
| CourseModel.CountCannotBePatched | backend/src/models/Course.ts:268-271 | a body that sets `studentsCount` cannot desynchronise it: after the save it equals the number of enrollments |
| CourseModel.RanksBefore | backend/src/models/Course.ts:276 | the `{ rating: -1, studentsCount: -1 }` order: a higher rating first, and on equal ratings more students first |
| CourseModel.RanksBeforeTotal | backend/src/models/Course.ts:276-277 | the sort by rating, then studentsCount, both descending, is a total order |
| CourseModel.RanksBeforeTransitive | backend/src/models/Course.ts:276 | the rank order is transitive |
| CourseModel.RankedPairwise | backend/src/models/Course.ts:276 | in a rank-sorted list every course ranks before every later one |
| CourseModel.CutRanked | backend/src/models/Course.ts:276-277 | cutting a rank-sorted list keeps a part of it, and every course cut off ranks after every course kept |
| CourseModel.TopTen | backend/src/models/Course.ts:276-277 | `sort(...).limit(10)`: the first ten of the ranked list, or all when fewer, are sorted, part of the input, and outranked by no course left out |
| CourseModel.Ranked | backend/src/models/Course.ts:276-277 | the ranked list is a permutation of its input, sorted by rating then studentsCount, descending |
| CourseModel.FindFeatured | backend/src/models/Course.ts:274-278 | the ten best ranked published featured courses (all of them when there are fewer): each stored, published and featured, in rank order, and no qualifying course left out ranks before one kept |
| CourseModel.FindByCategory | backend/src/models/Course.ts:281-284 | exactly the published courses of the category (as a multiset), in rank order, with no limit |
| LessonModel.NewLesson | backend/src/controllers/lessonController.ts:38-39 | a created lesson is valid and belongs to the route's course whatever the body says; its title is the body's trimmed; description, duration, content, quiz, metadata difficulty and points are the body's; a given type, isPublished, isCompleted and metadata.required are kept, and a missing one defaults to "video", false, false and true |
| LessonModel.ValidLesson | backend/src/models/Lesson.ts:52-139 | the lesson validators: course and title required, description ≤ 1000 and content ≤ 10000 characters, duration and points ≥ 0, order ≥ 1, the type and difficulty enums, and valid quiz questions |
| LessonModel.NewLessonAcceptsIff | backend/src/models/Lesson.ts:52-139 | a body is accepted iff its trimmed title is non-empty, order is present and ≥ 1, a given type is one of the eight values, duration and points are ≥ 0, description ≤ 1000 and content ≤ 10000 characters, difficulty is in its enum, and every quiz question is valid (correctAnswer ≥ 0) |
| LessonModel.CorrectAnswerHasNoUpperBound | backend/src/models/Lesson.ts:100-105 | a quiz question whose correctAnswer is past the end of its options is still valid |
| LessonModel.Patched | backend/src/controllers/lessonController.ts:56 | the update body is applied as a `$set`: each present field (course, title, description, duration, order, type, content, quiz, isPublished, isCompleted) replaces the stored one, the title trimmed by the schema setter; each absent field and the metadata stay |
| LessonModel.EmptyPatchKeepsLesson | backend/src/controllers/lessonController.ts:56 | an empty update body leaves the lesson as it was |
| LessonModel.UpdateCanBreakSchema | backend/src/controllers/lessonController.ts:56 | since no validator runs, an update can store `order = 0`, which the schema forbids |
| UserModel.ValidUser | backend/src/models/User.ts:20-34 | a user needs a name and an email, a password unless it has a Google or GitHub id, and one of the three roles |
| UserModel.PasswordRuleIff | backend/src/models/User.ts:23-29 | with name, email and role valid, a user is valid iff it has a password or a Google id or a GitHub id |
| UserModel.PasswordAndProviderMayCoexist | backend/src/models/User.ts:23-29 | the rule does not forbid a password beside a provider id |
| UserModel.UniqueUsers | backend/src/models/User.ts:22-36 | the unique indexes: no two users share an id or an email, nor a Google or GitHub id that one of them has |
| UserModel.AppendUnique | backend/src/models/User.ts:22-36 | adding a user keeps id, email and the sparse provider-id indexes unique iff it clashes with nobody |
| UserModel.HashOnSave | backend/src/models/User.ts:42-46 | the password is rehashed only when modified; otherwise the user is stored as given; no other field changes; a password marked modified but absent makes the save fail |
| Db.Store.Valid | backend/src/models/Course.ts:268-271 | what every write through the ODM keeps: every stored course validates and counts its enrollments; the users are valid and their indexes unique |
| Db.Store.UserIds | backend/src/controllers/courseController.ts:105-125 | the ids a populate of a user reference resolves: exactly the ids of stored users |
| Db.Store.SaveCourse | backend/src/models/Course.ts:268-271 | `course.save()`: stores the hooked course iff it validates, otherwise stores nothing; the store stays valid |
| Projection.PopulatedStudent | backend/src/controllers/courseController.ts:117-120 | `students.student` after population: the id of an existing user, absent otherwise |
| Projection.IsCallerEnrollment | backend/src/controllers/courseController.ts:167-169 | the handler's match: the populated id equals the caller's id, both possibly absent |
| Projection.CallerLedger | backend/src/controllers/courseController.ts:167-169 | the progress ledger of the first enrollment whose populated student is the caller; none iff no enrollment matches |
| Projection.IsCompleted | backend/src/controllers/courseController.ts:171-191 | a lesson shows completed iff the first ledger entry that refers to it is marked completed |
| Projection.View | backend/src/controllers/courseController.ts:175-192 | a projected entry: the lesson id, title, given order and published flag, a non-empty type ("video" when the lesson has none), and the caller's completion flag |
| Projection.Resolved | backend/src/controllers/courseController.ts:105-125 | populating the flat lesson list keeps, in order, exactly the references to stored lessons |
| Projection.FlatViews | backend/src/controllers/courseController.ts:163-193 | one entry per resolved flat reference, in order, each with its lesson's own order and the caller's completion flag |
| Projection.ItemView | backend/src/controllers/courseController.ts:197-226 | a curriculum item gives an entry iff its lesson resolves; the order is the item's own unless that is 0, then the lesson's |
| Projection.ItemViews | backend/src/controllers/courseController.ts:197-227 | a section's entries, when defined, are one per item |
| Projection.ItemViewsSpec | backend/src/controllers/courseController.ts:197-226 | a section's entries exist iff every item resolves, one per item in item order |
| Projection.SectionViews | backend/src/controllers/courseController.ts:194-229 | the flattened curriculum, when defined, has one entry per item over all sections |
| Projection.SectionViewsDefined | backend/src/controllers/courseController.ts:194-229 | the flattened curriculum exists iff every item of every section resolves, and then has one entry per item |
| Projection.SectionViewsMembers | backend/src/controllers/courseController.ts:194-229 | every entry of the flattened curriculum is the view of some item of some section |
| Projection.SectionViewsSpec | backend/src/controllers/courseController.ts:194-229 | the flattened curriculum exists iff every item of every section resolves; it then has one entry per item, each the view of some item |
| Projection.Unsorted | backend/src/controllers/courseController.ts:160-229 | a resolvable flat list gives one entry per resolved reference; only the curriculum can fail the request; with neither, the list is empty |
| Projection.ByOrderTotal | backend/src/controllers/courseController.ts:232 | the `a.order - b.order` comparator is a total order |
| Projection.Project | backend/src/controllers/courseController.ts:160-232 | the projected lessons are a permutation of the unsorted list (same length and elements), sorted ascending by order; they exist iff the unsorted list does |
| Projection.FlatListWins | backend/src/controllers/courseController.ts:163-193 | when some flat reference resolves, the curriculum is ignored: one entry per resolved reference, with the lesson's own order |
| Projection.CurriculumFallback | backend/src/controllers/courseController.ts:194-229 | with no resolvable flat reference, the curriculum decides: empty when there is none, and it fails iff some item does not resolve |
| Projection.CompletedFromLedger | backend/src/controllers/courseController.ts:167-191 | every projected entry's `completed` is read from the caller's ledger |
| Projection.NotEnrolledSeesNothingCompleted | backend/src/controllers/courseController.ts:201-225 | a caller without an enrollment sees no lesson completed |
| Auth.UpToSpace | backend/src/models/middlewares/auth.ts:13-14 | the prefix of the text before its first space |
| Auth.Split | backend/src/models/middlewares/auth.ts:13-14 | `split(" ")` has at least one field, and the first is the text up to the first space |
| Auth.BearerSecondField | backend/src/models/middlewares/auth.ts:13-14 | the second field of "Bearer " + rest is rest up to its first space |
| Auth.HeaderToken | backend/src/models/middlewares/auth.ts:13-14 | a header token exists iff the header starts with "Bearer "; it is the second space-separated field |
| Auth.SelectToken | backend/src/models/middlewares/auth.ts:15 | a truthy header token wins; otherwise the refresh-token cookie, when truthy; a selected token is never empty |
| Auth.EmptyBearerUsesCookie | backend/src/models/middlewares/auth.ts:15 | "Bearer " with an empty token falls back to the cookie |
| Auth.Request.constructor | backend/src/models/middlewares/auth.ts:9-27 | a request starts without a user |
| Auth.Authenticate | backend/src/models/middlewares/auth.ts:9-27 | no token gives 401 and a failed verification 403, both leaving `req.user` alone; otherwise `req.user` is the decoded payload and the request goes on |
| Auth.Authorize | backend/src/models/middlewares/auth.ts:30-37 | the request goes on iff it has a user whose role is listed; otherwise 403 "Access denied" |
| Auth.StudentsCannotMutateCourses | backend/src/routes/course.ts:29-31 | the course mutation routes' `authorize("instructor", "admin")` rejects a student |
| Passport.GoogleEmail | backend/src/config/passport.ts:28 | reads the first email when there is one; an empty email list throws; no list gives none |
| Passport.GoogleLogin | backend/src/config/passport.ts:26-55 | a failed login leaves the users unchanged; a successful one returns a stored user carrying the Google id; at most one user is added |
| Passport.GoogleNeedsEmail | backend/src/config/passport.ts:28-29 | without an email the callback fails before any lookup, even for a linked Google id, and the users are unchanged |
| Passport.GoogleFindsLinked | backend/src/config/passport.ts:31-33 | the first user with the Google id is returned and nothing changes |
| Passport.GoogleLinksByEmail | backend/src/config/passport.ts:35-41 | otherwise the first user with the email gets the Google id and is returned; nobody is created |
| Passport.GoogleCreatesStudent | backend/src/config/passport.ts:43-51 | otherwise exactly one student is appended, with the display name, the email and the Google id |
| Passport.GoogleLoginLinks | backend/src/config/passport.ts:26-55 | a successful Google login returns a stored user that carries the Google id |
| Passport.GoogleRepeatIsStable | backend/src/config/passport.ts:31-33 | logging in again with the same profile returns the same user and changes nothing |
| Passport.GoogleKeepsInvariant | backend/src/config/passport.ts:26-55 | the Google callback keeps every user valid and the unique indexes unique |
| Passport.GoogleVerify | backend/src/config/passport.ts:26-55 | the callback against the store: it changes only the users, as the Google login function says, and keeps the store valid |
| Passport.GithubEmailOf | backend/src/config/passport.ts:73 | the first verified email when it is non-empty, else the first listed email, else none; it is always one of the listed emails |
| Passport.VerifiedEmailPreferred | backend/src/config/passport.ts:73 | a verified address beats an earlier unverified one |
| Passport.GithubNewUser | backend/src/config/passport.ts:89-95 | a new GitHub user is a student named by the username or "GitHub User", with the chosen email or `<username>@github.temp` |
| Passport.GithubLogin | backend/src/config/passport.ts:70-101 | a failed login leaves the users unchanged; a successful one returns a stored user carrying the GitHub id; at most one user is added |
| Passport.GithubFindsLinked | backend/src/config/passport.ts:75-77 | the first user with the GitHub id is returned and nothing changes |
| Passport.GithubLinksByEmail | backend/src/config/passport.ts:79-87 | otherwise, with an email, the first user with that email gets the GitHub id; only that user changes |
| Passport.GithubWithoutEmailCreates | backend/src/config/passport.ts:89-97 | with no email, a student with the placeholder address is appended |
| Passport.GithubPlaceholderEmailCollides | backend/src/config/passport.ts:92 | two GitHub users without username or email both get "undefined@github.temp", so the second creation fails on the unique email index |
| Passport.GithubRepeatIsStable | backend/src/config/passport.ts:76-77 | logging in again with the same profile returns the same user and changes nothing |
| Passport.GithubKeepsInvariant | backend/src/config/passport.ts:70-101 | the GitHub callback keeps every user valid and the unique indexes unique |
| Passport.GithubVerify | backend/src/config/passport.ts:70-101 | the callback against the store: it changes only the users, as the GitHub login function says, and keeps the store valid |
| CourseController.HasInstructor | backend/src/controllers/courseController.ts:13-16 | the instructor query: some stored user listed in the body has the role "instructor" |
| CourseController.OwnerCheck | backend/src/controllers/courseController.ts:46-51 | an admin passes and a request without a user is refused (403); any other caller crashes (500), because `course.instructors` is not a schema path and reads undefined on a loaded course |
| CourseController.CreateCourse | backend/src/controllers/courseController.ts:8-34 | 400 and nothing stored without a listed instructor user; 201 storing the new course when it validates; 500 otherwise |
| CourseController.UpdateCourse | backend/src/controllers/courseController.ts:37-60 | 404 iff the course is missing; 403 without a user and 500 for any caller but an admin, leaving it unchanged; for an admin it stores the assigned course when it validates (200), else 500 |
| CourseController.DeleteCourse | backend/src/controllers/courseController.ts:63-83 | 404 iff the course is missing; 403 without a user and 500 for any caller but an admin; for an admin the course is removed and nothing else |
| CourseController.GetCourseById | backend/src/controllers/courseController.ts:103-247 | 404 for an unknown course; 200 with the projected lessons, or 500 when a curriculum item does not resolve |
| CourseController.SeedLedger | backend/src/controllers/courseController.ts:268-271 | one ledger entry per flat lesson reference, in order, none completed and none referring to a lesson |
| CourseController.EnrollAddsOne | backend/src/controllers/courseController.ts:262-276 | there is no duplicate check: each enrollment adds exactly one record for its user and none for anybody else |
| CourseController.FirstEnrollmentShowsNothingCompleted | backend/src/controllers/courseController.ts:268-276 | right after a first enrollment, the projection shows the user no lesson completed |
| CourseController.EnrollInCourse | backend/src/controllers/courseController.ts:251-285 | 404 for an unknown course is checked before the 400 for a missing user, and both change nothing; otherwise one enrollment with a fresh ledger is appended and the count goes up by one |
| CourseController.IsEnrolled | backend/src/controllers/courseController.ts:312-314 | the enrollment lookup: some enrollment's stored student id equals the user id |
| CourseController.UpdateCourseProgress | backend/src/controllers/courseController.ts:302-325 | 400 without a user, 404 for an unknown course, 400 when not enrolled, otherwise 200; the store never changes |
| LessonController.GetLessonById | backend/src/controllers/lessonController.ts:23-32 | 404 iff the lesson is unknown; otherwise 200 with the stored lesson |
| LessonController.CreateLesson | backend/src/controllers/lessonController.ts:35-50 | 400 and nothing stored when the body is refused; otherwise 201, storing the new lesson under the route's course |
| LessonController.UpdateLesson | backend/src/controllers/lessonController.ts:53-68 | 404 for an unknown id; otherwise the lesson is replaced by its patched version |
| LessonController.DeleteLesson | backend/src/controllers/lessonController.ts:71-79 | 200 even for an unknown id; the lesson is removed and nothing else changes |
| LessonController.MarkLessonCompleted | backend/src/controllers/lessonController.ts:83-176 | "Course not found" comes before the lesson lookup, then "Lesson not found"; on success it echoes the route's lesson id as completed, and no store collection changes |
| ClientTypes.ReplaceCourse | frontend/src/redux/slices/courseSlice.ts:206-211 | the first course with the payload's id is replaced in place; length kept; an unknown id changes nothing |
| ClientTypes.ReplaceCourseTwice | frontend/src/redux/slices/courseSlice.ts:206-211 | replacing twice with the same course is replacing once |
| ClientTypes.ReplaceCourseShowsIt | frontend/src/redux/slices/courseSlice.ts:208-211 | after the replace the catalogue shows the course iff its id was listed |
| ClientTypes.RemoveCourse | frontend/src/redux/slices/courseSlice.ts:225-227 | every course with the id goes; the others are kept in order and with their multiplicity |
| ClientTypes.RemoveCourseTwice | frontend/src/redux/slices/courseSlice.ts:225-227 | removing twice is removing once |
| ClientTypes.SetProgress | frontend/src/redux/slices/courseSlice.ts:298-305 | the first course with the id gets the progress and is completed iff the progress is 100; the other courses are untouched and an unknown id changes nothing |
| ClientTypes.SetProgressLastWins | frontend/src/redux/slices/courseSlice.ts:298-305 | two progress updates leave the second one |
| ClientTypes.MarkLesson | frontend/src/redux/slices/courseSlice.ts:176-181 | the first lesson with the id is marked completed; the others are untouched and an unknown id changes nothing |
| ClientTypes.MarkLessonTwice | frontend/src/redux/slices/courseSlice.ts:176-181 | marking twice is marking once |
| ClientTypes.ReplaceLesson | frontend/src/redux/slices/lessonSlice.ts:91-94 | the first lesson with the id is replaced; length kept; an unknown id changes nothing |
| ClientTypes.ReplaceLessonTwice | frontend/src/redux/slices/lessonSlice.ts:91-94 | replacing twice is replacing once |
| ClientTypes.RemoveLesson | frontend/src/redux/slices/lessonSlice.ts:96-98 | every lesson with the id goes; the rest keep their order |
| ClientTypes.RemoveLessonTwice | frontend/src/redux/slices/lessonSlice.ts:96-98 | removing twice is removing once |
| CourseSlice.MergeFilter | frontend/src/redux/slices/courseSlice.ts:166-168 | exactly the fields present in the patch are overwritten; an empty patch changes nothing |
| CourseSlice.MergeFilterTwice | frontend/src/redux/slices/courseSlice.ts:166-168 | applying the same patch twice is applying it once |
| CourseSlice.Store.constructor | frontend/src/redux/slices/courseSlice.ts:7-19 | the initial state: empty lists, no current course, not loading, no error, the initial filter |
| CourseSlice.Store.ClearError | frontend/src/redux/slices/courseSlice.ts:163-165 | only the error is cleared |
| CourseSlice.Store.SetFilter | frontend/src/redux/slices/courseSlice.ts:166-168 | only the filter changes, by the merge |
| CourseSlice.Store.ClearFilter | frontend/src/redux/slices/courseSlice.ts:169-175 | the filter is reset to the initial one |
| CourseSlice.Store.MarkLessonComplete | frontend/src/redux/slices/courseSlice.ts:176-181 | only the lessons change: the first with the id is marked completed |
| CourseSlice.Store.ClearCurrentCourse | frontend/src/redux/slices/courseSlice.ts:182-185 | the current course and the lessons are cleared |
| CourseSlice.Store.Pending | frontend/src/redux/slices/courseSlice.ts:190-192 | the pending case of create, update, delete, fetch, enroll and fetch-enrolled sets loading and changes nothing else |
| CourseSlice.Store.Rejected | frontend/src/redux/slices/courseSlice.ts:197-200 | a rejected case clears loading and sets the error, keeping the current course and lessons |
| CourseSlice.CreateAsWritten | frontend/src/redux/slices/courseSlice.ts:193-196 | as written, the whole `{ success, data }` response body is pushed, an entry without an id |
| CourseSlice.UpdateAsWritten | frontend/src/redux/slices/courseSlice.ts:206-215 | as written, the id-less `{ message, course }` body replaces the first catalogue entry without an id, never a course, and becomes the open course when none is open or the open one has no `id` (a course opened by fetchCourseById, or a body); only an open course with an `id` is kept |
| CourseSlice.UpdateReplacesFetchedCourse | frontend/src/redux/slices/courseSlice.ts:212-214 | as written, a course opened by fetchCourseById is replaced by the update's response body, even when it is the course updated |
| CourseSlice.DeleteAsWritten | frontend/src/redux/slices/courseSlice.ts:225-232 | as written, every entry whose `id` differs from the deleted one stays, in order, and the open course and its lessons are cleared only when the open course's `id` is the deleted one |
| CourseSlice.DeleteKeepsFetchedOpen | frontend/src/redux/slices/courseSlice.ts:228-231 | as written, deleting the course opened by fetchCourseById leaves it open with its lessons, because it has no `id` |
| CourseSlice.CourseKey | backend/src/models/Course.ts:287-293 | a course's id under `id` (toJSON output) or `_id` (toObject output), and none for a response body |
| CourseSlice.CreateListsNoCourse | frontend/src/redux/slices/courseSlice.ts:193-196 | as written, a create adds no course to a catalogue of courses |
| CourseSlice.UpdateMissesCourses | frontend/src/redux/slices/courseSlice.ts:206-215 | as written, an update leaves a catalogue of courses unchanged even when it lists the updated id, and with no course open it opens the response body |
| CourseSlice.UpdateOverwritesCreateBody | frontend/src/redux/slices/courseSlice.ts:193-215 | as written, an update after a create overwrites the stored create body |
| CourseSlice.Store.CreateFulfilled | frontend/src/redux/slices/courseSlice.ts:193-196 | corrected: the course inside the `{ success, data }` response body is appended to the courses |
| CourseSlice.Store.UpdateFulfilled | frontend/src/redux/slices/courseSlice.ts:206-215 | corrected: the course inside the `{ message, course }` response body replaces the catalogue entry with its id, which then lists it, and replaces the open course too when that is the same course, its id read from `_id` for a course opened by fetchCourseById |
| CourseSlice.Store.DeleteFulfilled | frontend/src/redux/slices/courseSlice.ts:225-232 | corrected: every course with the id goes; when the open course is that course, its id read from `_id` for a course opened by fetchCourseById, it is closed and the lessons are cleared |
| CourseSlice.Store.FetchCoursesFulfilled | frontend/src/redux/slices/courseSlice.ts:239-249 | the list is replaced and loading cleared |
| CourseSlice.Store.FetchByIdPending | frontend/src/redux/slices/courseSlice.ts:252-255 | loading set, error cleared |
| CourseSlice.Store.FetchByIdFulfilled | frontend/src/redux/slices/courseSlice.ts:256-261 | the open course becomes the fetched course, which carries `_id` and no `id`, and the lessons are the ones it came with; the store is valid afterwards |
| CourseSlice.Store.FetchByIdRejected | frontend/src/redux/slices/courseSlice.ts:262-267 | the error is set; the current course and the lessons are cleared |
| CourseSlice.Store.EnrollFulfilled | frontend/src/redux/slices/courseSlice.ts:270-282 | the course is appended to the enrolled courses only when the payload has one |
| CourseSlice.Store.FetchEnrolledFulfilled | frontend/src/redux/slices/courseSlice.ts:285-295 | the enrolled list is replaced |
| CourseSlice.Store.UpdateProgressFulfilled | frontend/src/redux/slices/courseSlice.ts:298-305 | the enrolled list gets the progress update; loading is untouched |
| LessonSlice.Store.constructor | frontend/src/redux/slices/lessonSlice.ts:12-16 | empty list, not loading, no error |
| LessonSlice.Store.ClearLessons | frontend/src/redux/slices/lessonSlice.ts:78-81 | empties the list and clears the error, keeping loading |
| LessonSlice.Store.FetchPending | frontend/src/redux/slices/lessonSlice.ts:85 | loading set, error cleared |
| LessonSlice.Store.FetchFulfilled | frontend/src/redux/slices/lessonSlice.ts:86 | the list is replaced and loading cleared |
| LessonSlice.Store.FetchRejected | frontend/src/redux/slices/lessonSlice.ts:87 | the error is set and loading cleared |
| LessonSlice.Store.CreateFulfilled | frontend/src/redux/slices/lessonSlice.ts:89 | exactly one lesson is appended at the end |
| LessonSlice.Store.UpdateFulfilled | frontend/src/redux/slices/lessonSlice.ts:91-94 | the first lesson with the id is replaced |
| LessonSlice.Store.DeleteFulfilled | frontend/src/redux/slices/lessonSlice.ts:96-98 | every lesson with the id is removed |
| LessonSlice.CreateThenDelete | frontend/src/redux/slices/lessonSlice.ts:89-98 | deleting a lesson just created with a fresh id gives the old list back |
| UiSlice.Flipped | frontend/src/redux/slices/uiSlice.ts:64-66 | the theme always changes |
| UiSlice.FlipTwice | frontend/src/redux/slices/uiSlice.ts:64-66 | toggling the theme twice restores it |
| UiSlice.Toggle | frontend/src/redux/slices/uiSlice.ts:78-87 | an absent item is appended; for a present one the first occurrence is spliced out and the rest keep their order |
| UiSlice.ToggleKeepsNoDuplicates | frontend/src/redux/slices/uiSlice.ts:78-87 | toggling keeps a duplicate-free list duplicate-free |
| UiSlice.ToggleTwiceRestoresMembers | frontend/src/redux/slices/uiSlice.ts:78-87 | toggling twice restores the members of a duplicate-free list |
| UiSlice.ToggleAppendedRemoves | frontend/src/redux/slices/uiSlice.ts:78-87 | toggling an item that toggling appended removes it again, restoring the list |
| UiSlice.ToggleTwiceReorders | frontend/src/redux/slices/uiSlice.ts:78-87 | toggling twice need not restore the order |
| UiSlice.Expand | frontend/src/redux/slices/uiSlice.ts:88-93 | the item is a member afterwards, nothing else is added, and a present item changes nothing |
| UiSlice.ExpandKeepsNoDuplicates | frontend/src/redux/slices/uiSlice.ts:88-93 | expanding never creates a duplicate and is idempotent |
| UiSlice.Collapse | frontend/src/redux/slices/uiSlice.ts:94-97 | every occurrence goes; the other items are kept in order |
| UiSlice.CollapseUndoesExpand | frontend/src/redux/slices/uiSlice.ts:88-97 | collapsing an item that expanding added restores the list |
| UiSlice.OpenModal | frontend/src/redux/slices/uiSlice.ts:100-115 | an existing modal is reopened with the new props and keeps its type; otherwise a new open modal is appended |
| UiSlice.OpenModalKeepsIdsUnique | frontend/src/redux/slices/uiSlice.ts:100-115 | opening never makes two modals share an id, and the modal is open afterwards |
| UiSlice.CloseModal | frontend/src/redux/slices/uiSlice.ts:116-122 | only the first modal with the id is closed; length and ids kept; an unknown id changes nothing |
| UiSlice.CloseAfterOpen | frontend/src/redux/slices/uiSlice.ts:100-122 | opening then closing leaves one modal with the id, closed, with the new props |
| UiSlice.RemoveModal | frontend/src/redux/slices/uiSlice.ts:123-125 | every modal with the id goes; the rest are kept in order |
| UiSlice.UnreadCount | frontend/src/redux/slices/uiSlice.ts:128-150 | the unread count never exceeds the number of notifications |
| UiSlice.AddNotification | frontend/src/redux/slices/uiSlice.ts:128-136 | one unread notification is prepended; the unread count grows by one |
| UiSlice.MarkRead | frontend/src/redux/slices/uiSlice.ts:140-145 | only the first notification with the id is marked read; the unread count does not grow |
| UiSlice.UnreadAfterMark | frontend/src/redux/slices/uiSlice.ts:140-145 | marking one notification read lowers the unread count by one exactly when it was unread |
| UiSlice.RemoveNotification | frontend/src/redux/slices/uiSlice.ts:137-139 | every notification with the id goes; the rest are kept in order |
| UiSlice.AllRead | frontend/src/redux/slices/uiSlice.ts:146-150 | every notification is read, and nothing else about any of them changes |
| UiSlice.AllReadNoneUnread | frontend/src/redux/slices/uiSlice.ts:146-150 | after marking all read nothing is unread |
| UiSlice.SetFlag | frontend/src/redux/slices/uiSlice.ts:156-159 | exactly the keyed loading flag is set |
| UiSlice.SubseqKeepsUniqueIds | frontend/src/redux/slices/uiSlice.ts:116-125 | a list obtained by dropping modals keeps ids unique |
| UiSlice.Store.constructor | frontend/src/redux/slices/uiSlice.ts:41-57 | the initial UI state |
| UiSlice.Store.ToggleTheme | frontend/src/redux/slices/uiSlice.ts:64-66 | only the theme flips |
| UiSlice.Store.SetTheme | frontend/src/redux/slices/uiSlice.ts:67-69 | only the theme is set |
| UiSlice.Store.ToggleSidebar | frontend/src/redux/slices/uiSlice.ts:72-74 | only the sidebar flag flips |
| UiSlice.Store.SetSidebarOpen | frontend/src/redux/slices/uiSlice.ts:75-77 | only the sidebar flag is set |
| UiSlice.Store.ToggleSidebarItem | frontend/src/redux/slices/uiSlice.ts:78-87 | the expanded items are toggled, staying duplicate-free |
| UiSlice.Store.ExpandSidebarItem | frontend/src/redux/slices/uiSlice.ts:88-93 | the item is expanded, staying duplicate-free |
| UiSlice.Store.CollapseSidebarItem | frontend/src/redux/slices/uiSlice.ts:94-97 | the item is collapsed |
| UiSlice.Store.OpenModalAction | frontend/src/redux/slices/uiSlice.ts:100-115 | the modals are opened as `OpenModal` says, ids staying unique |
| UiSlice.Store.CloseModalAction | frontend/src/redux/slices/uiSlice.ts:116-122 | the modal is closed, ids staying unique |
| UiSlice.Store.RemoveModalAction | frontend/src/redux/slices/uiSlice.ts:123-125 | the modals with the id are removed |
| UiSlice.Store.AddNotificationAction | frontend/src/redux/slices/uiSlice.ts:128-136 | the notification is prepended |
| UiSlice.Store.RemoveNotificationAction | frontend/src/redux/slices/uiSlice.ts:137-139 | the notifications with the id are removed |
| UiSlice.Store.MarkNotificationAsRead | frontend/src/redux/slices/uiSlice.ts:140-145 | the first notification with the id is marked read |
| UiSlice.Store.MarkAllNotificationsAsRead | frontend/src/redux/slices/uiSlice.ts:146-150 | the loop marks every notification read, one by one, keeping the count |
| UiSlice.Store.ClearNotifications | frontend/src/redux/slices/uiSlice.ts:151-153 | the notifications are emptied |
| UiSlice.Store.SetLoading | frontend/src/redux/slices/uiSlice.ts:156-159 | only the keyed loading flag is set |
| UiSlice.Store.SetGlobalLoading | frontend/src/redux/slices/uiSlice.ts:160-162 | only the global loading flag is set |
| UiSlice.Store.SetCurrentPage | frontend/src/redux/slices/uiSlice.ts:165-167 | only the current page is set |
| UiSlice.Store.ToggleMobileMenu | frontend/src/redux/slices/uiSlice.ts:170-172 | only the mobile-menu flag flips |
| UiSlice.Store.SetMobileMenuOpen | frontend/src/redux/slices/uiSlice.ts:173-175 | only the mobile-menu flag is set |
| DashboardSlice.EndpointFor | frontend/src/redux/slices/dashboardSlice.ts:31-33 | the instructor endpoint iff the role is instructor, the admin endpoint iff admin, the student endpoint otherwise, also without a user |
| DashboardSlice.Store.constructor | frontend/src/redux/slices/dashboardSlice.ts:7-18 | no data, status idle, no error |
| DashboardSlice.Store.ClearError | frontend/src/redux/slices/dashboardSlice.ts:55-57 | only the error is cleared |
| DashboardSlice.Store.UpdateCourseProgress | frontend/src/redux/slices/dashboardSlice.ts:58-67 | only the data's courses change, by the progress update |
| DashboardSlice.Store.MarkActivityAsRead | frontend/src/redux/slices/dashboardSlice.ts:68-74 | the state is left unchanged; the result reports whether an activity with the id exists |
| DashboardSlice.Store.FetchPending | frontend/src/redux/slices/dashboardSlice.ts:78-81 | status loading and the error cleared |
| DashboardSlice.Store.FetchFulfilled | frontend/src/redux/slices/dashboardSlice.ts:82-92 | all eight data fields are copied from the payload and status set to succeeded; the error is kept |
| DashboardSlice.Store.FetchRejected | frontend/src/redux/slices/dashboardSlice.ts:93-96 | status failed and the error set |
| AuthSlice.Store.constructor | frontend/src/redux/slices/authSlice.ts:45-50 | no token, no user, idle, no error |
| AuthSlice.Store.Logout | frontend/src/redux/slices/authSlice.ts:56-59 | token and user cleared; status and error kept |
| AuthSlice.Store.Pending | frontend/src/redux/slices/authSlice.ts:64-66 | login and fetchUser pending set status loading and leave the error alone |
| AuthSlice.Store.LoginFulfilled | frontend/src/redux/slices/authSlice.ts:67-70 | the token is set and status succeeded; a previous error is kept |
| AuthSlice.Store.LoginRejected | frontend/src/redux/slices/authSlice.ts:71-74 | status failed and the error set |
| AuthSlice.Store.RegisterFulfilled | frontend/src/redux/slices/authSlice.ts:77-79 | only the status is set to succeeded |
| AuthSlice.Store.FetchUserFulfilled | frontend/src/redux/slices/authSlice.ts:85-88 | status succeeded and the user set; token and error kept |
| AuthSlice.Store.FetchUserRejected | frontend/src/redux/slices/authSlice.ts:89-93 | status failed, the error set and the user cleared; the token is kept |
| InstructorSlice.FromRaw | frontend/src/redux/slices/instructorSlice.ts:26-33 | a record maps to id = `_id` and role "instructor", its other fields copied |
| InstructorSlice.MapInstructors | frontend/src/redux/slices/instructorSlice.ts:26-33 | one instructor per record, in order |
| InstructorSlice.MappedIdsAndRoles | frontend/src/redux/slices/instructorSlice.ts:26-33 | every mapped instructor has the instructor role and its record's id |
| InstructorSlice.MapInstructorsAppend | frontend/src/redux/slices/instructorSlice.ts:26-33 | mapping distributes over concatenation |
| InstructorSlice.Store.constructor | frontend/src/redux/slices/instructorSlice.ts:43-47 | empty list, not loading, no error |
| InstructorSlice.Store.ClearInstructorError | frontend/src/redux/slices/instructorSlice.ts:49-51 | only the error is cleared |
| InstructorSlice.Store.ResetInstructors | frontend/src/redux/slices/instructorSlice.ts:52-56 | empty list, no error, not loading |
| InstructorSlice.Store.FetchPending | frontend/src/redux/slices/instructorSlice.ts:60-62 | loading set; an earlier error is kept |
| InstructorSlice.Store.FetchFulfilled | frontend/src/redux/slices/instructorSlice.ts:63-66 | the list is replaced by the mapped records and loading cleared |
| InstructorSlice.Store.FetchRejected | frontend/src/redux/slices/instructorSlice.ts:67-70 | the error is the payload or "Unknown error occurred", and loading is cleared |
| UserSlice.MergeProfile | frontend/src/redux/slices/userSlice.ts:143-147 | each field present in the payload (id, name, email, avatar, bio, location, website, join date, role) replaces the profile's; each absent one stays |
| UserSlice.MergeProfileTwice | frontend/src/redux/slices/userSlice.ts:143-147 | merging the same payload twice is merging once |
| UserSlice.MergePreferences | frontend/src/redux/slices/userSlice.ts:148-150 | a present notifications or privacy group replaces the whole group |
| UserSlice.MergePreferencesTwice | frontend/src/redux/slices/userSlice.ts:148-150 | merging the same payload twice is merging once |
| UserSlice.Store.constructor | frontend/src/redux/slices/userSlice.ts:47-66 | no profile or stats, the default preferences, not loading, no error |
| UserSlice.Store.ClearError | frontend/src/redux/slices/userSlice.ts:140-142 | only the error is cleared |
| UserSlice.Store.UpdateProfileLocal | frontend/src/redux/slices/userSlice.ts:143-147 | the profile is merged only when there is one; otherwise nothing changes |
| UserSlice.Store.UpdatePreferencesLocal | frontend/src/redux/slices/userSlice.ts:148-150 | the preferences are shallow-merged |
| UserSlice.Store.ResetUser | frontend/src/redux/slices/userSlice.ts:151-155 | profile, stats and error cleared; preferences and loading kept |
| UserSlice.Store.FetchProfilePending | frontend/src/redux/slices/userSlice.ts:160-162 | loading set; an earlier error is kept |
| UserSlice.Store.FetchProfileFulfilled | frontend/src/redux/slices/userSlice.ts:163-166 | the profile is set and loading cleared |
| UserSlice.Store.FetchProfileRejected | frontend/src/redux/slices/userSlice.ts:167-170 | the error is set and loading cleared |
| UserSlice.Store.UpdateProfileFulfilled | frontend/src/redux/slices/userSlice.ts:172-177 | the profile is replaced |
| UserSlice.Store.UpdatePreferencesFulfilled | frontend/src/redux/slices/userSlice.ts:179-184 | the preferences are replaced |
| UserSlice.Store.FetchStatsFulfilled | frontend/src/redux/slices/userSlice.ts:186-188 | the stats are set |
| UserSlice.Store.UploadAvatarFulfilled | frontend/src/redux/slices/userSlice.ts:190-194 | the avatar is set only when a profile exists |
| UserSlice.Store.Rejected | frontend/src/redux/slices/userSlice.ts:175-197 | the rejected cases of update profile, update preferences and upload avatar set the error and nothing else |
| CreateCoursePage.AdminFilter | frontend/src/app/dashboard/create-course/page.tsx:49-57 | the course list filtered by search, category (exact, when set) and status ('' all, 'published', else drafts), kept in order |
| CreateCoursePage.NoFiltersListsAll | frontend/src/app/dashboard/create-course/page.tsx:49-57 | with no search, category or status every course is listed |
| CreateCoursePage.PublishedAndDraftPartition | frontend/src/app/dashboard/create-course/page.tsx:49-57 | the 'published' and 'draft' views split the courses between them |
| CreateCoursePage.AddIfNew | frontend/src/app/dashboard/create-course/page.tsx:274-278 | an id is appended only when non-empty and not already selected |
| CreateCoursePage.WithTag | frontend/src/app/dashboard/create-course/page.tsx:120-125 | the trimmed tag is appended when non-blank and new; otherwise the tags are unchanged; no duplicates appear |
| CreateCoursePage.Without | frontend/src/app/dashboard/create-course/page.tsx:126-128 | every equal entry goes; the others keep their order and their number of occurrences; a duplicate-free list stays so |
| CreateCoursePage.TagEditsKeepTagsClean | frontend/src/app/dashboard/create-course/page.tsx:119-128 | starting duplicate-free with clean tags, any sequence of tag adds and removes keeps the tags duplicate-free, non-empty and trimmed |
| CreateCoursePage.EditForm | frontend/src/app/dashboard/create-course/page.tsx:76-89 | the edit form copies title, description, category, price and published flag; a missing image becomes "" and missing tags []; the instructors are taken as ids |
| CreateCoursePage.Editor.constructor | frontend/src/app/dashboard/create-course/page.tsx:32-41 | an empty form, no tag input, no current course, modal closed |
| CreateCoursePage.Editor.SetNewTag | frontend/src/app/dashboard/create-course/page.tsx:120-125 | only the tag input changes |
| CreateCoursePage.Editor.AddTagAction | frontend/src/app/dashboard/create-course/page.tsx:120-125 | a non-blank new tag is appended trimmed and the input cleared; otherwise nothing changes |
| CreateCoursePage.Editor.RemoveTagAction | frontend/src/app/dashboard/create-course/page.tsx:126-128 | the tag is removed from the form |
| CreateCoursePage.Editor.SelectInstructor | frontend/src/app/dashboard/create-course/page.tsx:274-278 | the instructor id is added when new and non-empty |
| CreateCoursePage.Editor.RemoveInstructor | frontend/src/app/dashboard/create-course/page.tsx:299-304 | the instructor id is filtered out |
| CreateCoursePage.Editor.OpenAddModal | frontend/src/app/dashboard/create-course/page.tsx:60-73 | the form is reset to empty defaults, no current course, the modal open |
| CreateCoursePage.Editor.OpenEditModal | frontend/src/app/dashboard/create-course/page.tsx:76-89 | the form is the course's edit form, the current course is its id, and the modal opens |
| CourseManagementPage.PublishedCount | frontend/src/app/dashboard/course-management/page.tsx:31-32 | never more than the total |
| CourseManagementPage.PublishedCountIsTotalIff | frontend/src/app/dashboard/course-management/page.tsx:31-32 | the published count is the total iff every course is published |
| CourseManagementPage.DraftCount | frontend/src/app/dashboard/course-management/page.tsx:33 | total minus published equals the number of unpublished courses |
| CourseManagementPage.ManagementFilter | frontend/src/app/dashboard/course-management/page.tsx:35-44 | a subsequence of the courses; a course is kept iff its title contains the search, ignoring case, and its status matches ("All", "Published", anything else for drafts) |
| CourseManagementPage.ViewsMatchCards | frontend/src/app/dashboard/course-management/page.tsx:31-44 | with no search the "Published" view has the published count and the "Draft" view the draft count |
| CourseManagementPage.EditFormFor | frontend/src/app/dashboard/course-management/page.tsx:47-57 | the form's isPublished is the course's `published`, not its `isPublished` |
| CourseManagementPage.PublishedCourseOpensUnticked | frontend/src/app/dashboard/course-management/page.tsx:47-57 | a published course without a `published` field opens with no isPublished value |
| CatalogPage.ToCard | frontend/src/app/courses/page.tsx:59-74 | a card copies the course; a missing level reads "Intermediate" and a zero price 49.99 |
| CatalogPage.ToCards | frontend/src/app/courses/page.tsx:59-74 | one card per course, in order |
| CatalogPage.Visible | frontend/src/app/courses/page.tsx:76-82 | a subsequence of the cards; a card is kept iff title or description contains the search, ignoring case, and category and level are "all" or equal |
| CatalogPage.InactiveFiltersShowAll | frontend/src/app/courses/page.tsx:77-81 | an empty search with category and level "all" keeps every card |
| CatalogPage.MissingLevelListedAsIntermediate | frontend/src/app/courses/page.tsx:59-74 | a course without a level is listed under "Intermediate" |
| CatalogPage.FilterBar.constructor | frontend/src/app/courses/page.tsx:35-37 | search "", category and level "all" |
| CatalogPage.FilterBar.SetQuery | frontend/src/app/courses/page.tsx:35 | only the search changes |
| CatalogPage.FilterBar.SetCategory | frontend/src/app/courses/page.tsx:36 | only the category changes |
| CatalogPage.FilterBar.SetLevel | frontend/src/app/courses/page.tsx:37 | only the level changes |
| CatalogPage.FilterBar.Clear | frontend/src/app/courses/page.tsx:218-226 | the filters are reset to search "" and category and level "all" |

## Findings

| source | as written | input that shows it | evidently intended | confidence | as-written member | corrected member |
|---|---|---|---|---|---|---|
| frontend/src/redux/slices/courseSlice.ts:193-196 | `createCourse` returns the response body `{ success: true, data: course }` (backend/src/controllers/courseController.ts:30), and the reducer pushes that body into `courses` | any successful create: the catalogue gains an entry with no `id`, `title` or `price` | push `action.payload.data`, the created course | not executed | CourseSlice.CreateAsWritten, CourseSlice.CreateListsNoCourse | CourseSlice.Store.CreateFulfilled |
| frontend/src/redux/slices/courseSlice.ts:206-215 | `updateCourse` returns `{ message, course }` (backend/src/controllers/courseController.ts:56), which has no top-level `id`; `findIndex` matches no course, and `currentCourse?.id === undefined` holds when no course is open or the open course has no `id` | a catalogue listing course "c1" and an update of "c1" with no course open: the catalogue keeps the stale "c1", and the open course becomes the response body; the same happens with "c1" opened by fetchCourseById, which has no `id` either | replace by `action.payload.course`, and compare the open course by its `_id` | not executed | CourseSlice.UpdateAsWritten, CourseSlice.UpdateMissesCourses, CourseSlice.UpdateReplacesFetchedCourse | CourseSlice.Store.UpdateFulfilled |
| frontend/src/redux/slices/courseSlice.ts:228-231 | the open course is closed when `currentCourse?.id` equals the deleted id, but the course fetchCourseById opens is built with `toObject()` (backend/src/controllers/courseController.ts:131-157, 236), which skips the `_id` to `id` rename, so it has no `id` | fetchCourseById("c1"), then deleteCourse("c1"): the deleted course stays open with its lessons | compare the open course by its `_id` | not executed | CourseSlice.DeleteAsWritten, CourseSlice.DeleteKeepsFetchedOpen | CourseSlice.Store.DeleteFulfilled |

## Left out

- Network and database I/O is not modelled: the axios calls, the thunk bodies, the Mongo queries, `connectDB` and the server wiring. The store is a map of documents, and each thunk result is a method parameter.
- Token signing and verification, bcrypt hashing and comparison, cookies and sessions are not modelled. `verify` and `hash` are function parameters, and `comparePassword` is not part of this model.
- Random notification ids, `new Date()` values and the ids the store assigns to new documents are parameters.
- The `Math.random` card fields (students, rating, featured flag, duration, image, instructor) and the price formatting in the catalog are not modelled. The card keeps the fields the filters read.
- Floating point: prices and ratings are `real`, and the dashboard's progress averages are not part of this model.
- Lowercasing and trimming cover ASCII letters and blanks only. There is no Unicode case folding.
- The transformed course object of getCourseById (the `||` fallbacks for instructor info, counts and lists) is not modelled. Only the lesson list and the status code are. On the client, the object's lack of an `id` is modelled by the store's `Fetched` entries.
- CourseSlice.Store.UpdateFulfilled: states the corrected reducer. As written, no course in the catalogue is updated and the open course is replaced by the response body whenever it lacks an `id`; CourseSlice.UpdateAsWritten states that.
- CourseSlice.Store.DeleteFulfilled: states the corrected reducer. As written, a course opened by fetchCourseById is never closed; CourseSlice.DeleteAsWritten states that.
- CourseSlice.Store.FetchByIdFulfilled: the lessons it stores are the fetched course's own `lessons` documents, which also carry `_id` and no `id`. The model gives each lesson record an id, so it does not capture that the later `id` lookups (markLessonComplete) miss them.
- The lesson slice's fetch, create and update requests (frontend/src/redux/slices/lessonSlice.ts:23, 37 and 51) use paths that no lesson route serves: the lesson router answers only `/course/:courseId`, `/:lessonId` and `/:lessonId/complete` under `/api/courses/:courseId/lessons`. So only the delete request reaches a handler. The lesson slice's reducers are modelled as written, with no claim that their fulfilled cases are reached.
- getAllCourses, getEnrolledCourses and getLessonsByCourse are plain store reads and are not modelled. The enrolled-courses route is shadowed by the `/:courseId` route.
- The dashboard routes, Activity, Deadline and Certificate are not modelled. The dashboard slice keeps its role-specific data opaque.
- Malformed ObjectIds, which make a lookup throw a cast error, are not modelled. An unknown id is simply absent.
- Requests are sequential: interleaved whole-document saves are not modelled.
- Page rendering, JSX and the UI components are not modelled.
- Lesson views keep only id, title, order, type and completed. The other copied fields of the projection are not modelled.
- A populated student reference is the stored id when it names an existing user. Fields other than the id are not modelled.
- CourseModel.Ranked: Mongo's sort orders courses with equal rating and studentsCount in no guaranteed order, so the contract promises a sorted permutation and no tie order.
- Projection.Project: the lesson sort is JavaScript's stable `Array.prototype.sort`; the contract promises a permutation sorted by order, and does not state that lessons with equal order keep their relative order.
- Lesson orders are integers, so the `NaN` a missing order would give the comparator is not modelled.
- Auth.Authorize: the 403 message's emoji prefix is not part of the modelled text.
- CourseModel.Assigned: only the listed course fields can be patched; a body that carries enrollments, reviews, curriculum, instructor data, original price or rating is not modelled. A body key that is explicitly `undefined` is treated as absent.
- CourseModel.ValidCourse: the `learning`, `requirements` and `features` lists and their maxlength validators are not modelled, nor are the other defaulted fields (image, thumbnail, duration, language, subtitles, certificate and lifetime flags).
- CourseModel.NewCourse: a body field that is explicitly `null` or of the wrong type (a cast error) is not modelled.
- LessonModel.Patched: a body that sets `metadata`, `videoUrl`, `thumbnail`, `code` or `resources` is not modelled, nor is an update body whose values fail to cast.
- The ownership gate compares the caller's id with the owner list through `includes`; since the list always reads undefined, that comparison never runs and is not modelled.
- UserSlice.MergeProfile: a payload key that is explicitly `undefined` is treated as absent, not as erasing the field.
- A createCourse body with no `instructors` list is treated as an empty list.
