# Hyperlocal task marketplace: bookkeeping model

A Dafny model of the record bookkeeping of the Hyperlocal backend. Users post tasks, helpers apply
to them and withdraw, either party reviews the other, and both kinds of account are created,
edited and deleted. The database is abstracted as a `Store` object holding one map per
collection (`tasks`, `helpers`, `users`, `reviews`) from document id to a mutable document
object. The Mongoose document methods (`applyHelper`, `cancelHelper`, `assignHelper`,
`completeTask`, `applyForTask`, `cancelTask`) are methods of the `Task` and `Helper` classes. Each
Express handler is a method over the store. It returns `Pass`/`Ok` or the thrown error's code and
message, and its contract says which error fires before which write, what the new state is and
what stays unchanged.

Files and modules:

- `common.dfy` (`Common`): ids, request id arguments (`Absent | Malformed | Given`), errors.
- `idlists.dfy` (`IdLists`): duplicate freedom and `Without`, the id filter both models use.
- `geo.dfy` (`Geo`): the `[longitude, latitude]` point and the two coordinate range tests.
- `task.dfy` (`TaskModel`), `helper.dfy` (`HelperModel`), `user.dfy` (`UserModel`), `review.dfy`
  (`ReviewModel`): the documents.
- `store.dfy` (`Db`): the store, its invariant and the `$inc` counter updates.
- `task_controller.dfy`, `review_controller.dfy`, `user_controller.dfy`, `helper_controller.dfy`:
  the handlers.

Request conventions:

- A missing or empty string is `""`.
- A missing coordinate is `0.0`. JavaScript truthiness treats 0 and a missing value alike.
- A missing or non-array `specialInstructions` is `None`.
- The caller's id is an input. The authentication layer supplies it.

The store invariant `Store.Valid()` says two things. Distinct ids name distinct documents. Every
`appliedHelpers` and `appliedTasks` list is duplicate-free. Every handler preserves it.

The model follows the code as written. `deleteTask`, `deleteUser` and `deleteHelper` delete the
record outright. There is no assigned-helper guard, no cascade to the other side's id lists and
no soft delete. `completeTask` and `assignHelper` have no status precondition. `updateReview` and
`deleteReview` choose the counter owner in opposite directions for the same `reviewerRole`, and
the model keeps both as written. The helper handlers join their two range tests with `&&`. So
latitude 100 with longitude 50 is accepted for a helper and rejected for a user. A task's status
is a value of the three-constructor type `Status`, so it is always NEW, IN_PROGRESS or DONE.

Several handlers set fields on the loaded document and then throw before `save()`. Nothing of
such a request is persisted. The model performs every check before the first write, which gives
the same stored outcome. `createUser` and `createHelper` insert the account before checking the
coordinates. There the model keeps the order, so a rejected location leaves the account stored
without a location.

## Model

| member | source | states |
|---|---|---|
| `TaskModel.Task.constructor` | src/models/Task.ts:26-49 | a new task has status NEW, no special instructions, budget 0, no applicants and no assigned helper, and keeps the given title, description, category, location and owner |
| `TaskModel.ParseStatus` | src/controllers/taskController.ts:130-140 | a status string is accepted exactly when it is the name of one of NEW, IN_PROGRESS and DONE, and it is read as that status |
| `TaskModel.ParseStatusName` | src/models/Task.ts:31 | every status name parses back to its status |
| `TaskModel.Task.ApplyHelper` | src/models/Task.ts:54-63 | an absent helper id is appended at the end; a present one fails with 400 "Helper already applied" and leaves the list as it was; no other field changes; a duplicate-free list stays duplicate-free |
| `TaskModel.Task.CancelHelper` | src/models/Task.ts:66-69 | the list becomes the old list without the helper id, never fails, and stays duplicate-free; no other field changes |
| `TaskModel.Task.AssignHelper` | src/models/Task.ts:72-76 | from any status, the assigned helper is set and the status becomes IN_PROGRESS, whether or not the helper applied; `appliedHelpers` and every other field are unchanged |
| `TaskModel.Task.CompleteTask` | src/models/Task.ts:79-82 | from any status, the status becomes DONE, so a repeat call changes nothing; no other field changes |
| `HelperModel.Helper.constructor` | src/models/Helper.ts:25-47 | a new helper has no location, skills or applied tasks, empty experience, availability true, rating 0 and rating counters 0 |
| `HelperModel.Helper.ApplyForTask` | src/models/Helper.ts:52-61 | an absent task id is appended; a present one fails with 400 "Already applied to task" and leaves the list unchanged; no other field changes; duplicate freedom is kept |
| `HelperModel.Helper.CancelTask` | src/models/Helper.ts:64-67 | the list becomes the old list without the task id, never fails, and keeps duplicate freedom |
| `IdLists.Without` | src/models/Task.ts:67 | an id survives the filter exactly when it was in the list and differs from the removed one; the list never grows |
| `IdLists.WithoutAbsent` | src/models/Task.ts:66-69 | removing an absent id leaves the list equal to the original |
| `IdLists.WithoutIdempotent` | src/models/Helper.ts:64-67 | removing the same id twice gives the same list as removing it once |
| `IdLists.WithoutConcat` | src/models/Task.ts:67 | removal distributes over concatenation, so the remaining ids keep their relative order |
| `IdLists.WithoutCounts` | src/models/Helper.ts:65 | every occurrence of the id is removed and every other id keeps its number of occurrences |
| `IdLists.AppendThenWithout` | src/models/Task.ts:54-69 | appending an absent id and then removing it restores the original list |
| `IdLists.AppendKeepsNoDup` | src/models/Helper.ts:52-56 | appending an absent id to a duplicate-free list keeps it duplicate-free |
| `IdLists.WithoutKeepsNoDup` | src/models/Task.ts:66-69 | removal keeps a duplicate-free list duplicate-free |
| `Geo.PointOfInjective` | src/controllers/taskController.ts:59-62 | the stored `[longitude, latitude]` point determines both request coordinates: two requests give the same point exactly when their latitudes and their longitudes agree |
| `Geo.OutOfRangeIffOutsideBox` | src/controllers/taskController.ts:47 | the task and user range test passes exactly the points with latitude in [-90,90] and longitude in [-180,180] |
| `Geo.HelperTestIsWeaker` | src/controllers/helperController.ts:49 | whatever the helper test rejects the user test rejects too, and a point with only one coordinate out of range passes the helper test but not the user test |
| `Geo.HelperAcceptsLatitude100` | src/controllers/helperController.ts:107 | latitude 100 with longitude 50 passes the helper test and fails the user test |
| `TaskController.CheckCreate` | src/controllers/taskController.ts:23-53 | a create request passes exactly when all required fields are present, the ids are well formed and the coordinates are nonzero and in range; a zero coordinate fails as a missing field; every failure has code 400 |
| `TaskController.CreateTask` | src/controllers/taskController.ts:19-72 | a failed check stores nothing and returns that check's error; otherwise a fresh task is stored under the new id with the request's fields, owner the caller, location `[longitude, latitude]` and the schema defaults, and existing tasks are untouched |
| `TaskController.CheckUpdate` | src/controllers/taskController.ts:115-140 | the coordinates are tested only when both are truthy (400 "Invalid coordinates"), then the status must be empty or one of the three names (400 "Invalid status") |
| `TaskController.Overwrite` | src/controllers/taskController.ts:105-144 | only truthy title, description and category overwrite; the location changes only when both coordinates are truthy; a non-empty status and non-empty instructions replace; owner, budget, applicants and assigned helper are unchanged |
| `TaskController.UpdateTask` | src/controllers/taskController.ts:77-149 | 400 for a missing task id, 404 for an unknown task and 403 for a non-owner, in that order, then the coordinate and status checks; any failure leaves every task unchanged; success changes only the named task, as `Overwrite` states |
| `TaskController.DeleteTask` | src/controllers/taskController.ts:154-187 | 400 / 404 / 403 as for update; it succeeds exactly when the task exists and the caller owns it, whatever its assigned helper and applicants, and then only that id leaves the task map; helpers are untouched |
| `TaskController.ApplyForTask` | src/controllers/taskController.ts:192-227 | 400 for a missing or malformed id, then 404 for the task, then 404 for the helper, each changing nothing; a helper already on the task's list fails before either list changes; a task already on the helper's list fails after the task's list has grown; on success each side's list gains the other's id; no other document or field changes |
| `TaskController.CancelApplication` | src/controllers/taskController.ts:232-267 | the same argument and lookup errors with nothing changed; otherwise it succeeds, each list loses every occurrence of the other's id, and nothing else changes |
| `TaskController.ApplyThenCancel` | src/controllers/taskController.ts:192-267 | applying and then cancelling, when neither side listed the other, succeeds twice and restores both lists |
| `ReviewModel.UpdateAndDeleteTargetOppositeParties` | src/controllers/reviewController.ts:111-164 | for either reviewer role, the counters an update adjusts and the counters a delete adjusts belong to opposite parties |
| `ReviewController.CreateReview` | src/controllers/reviewController.ts:20-70 | a missing reviewee, task or rating fails first; then user, task and helper must exist, in that order; only then is the rating checked against 1..5; a request passing every check succeeds with exactly those arguments, and on success a helper caller is the helper side and the reviewee the user side, and the reverse for a user caller |
| `ReviewController.RatingDeltasTelescope` | src/controllers/reviewController.ts:95-119 | two chained updates, the second starting from the rating the first left, move a counter by the final rating minus the original one when neither carries rating 0; when only the first carries 0 the counter ends a further original rating lower; when only the second carries 0 it ends the original rating below where it started; when both carry 0 it ends two original ratings below, while the review keeps the original rating |
| `ReviewController.UpdateKeepsCounterInStep` | src/controllers/reviewController.ts:95-119 | an update keeps counter minus rating constant, except for a rating of 0, which lowers the counter by the old rating while the review keeps that rating |
| `ReviewController.Revise` | src/controllers/reviewController.ts:97-109 | a truthy rating and a truthy text replace the review's; otherwise they are kept |
| `ReviewController.UpdateReview` | src/controllers/reviewController.ts:75-123 | an invalid or unknown review id, or a truthy rating outside 1..5, fails with nothing changed; otherwise the review is revised and `new - old` is added to the User's total rating for a helper reviewer and to the Helper's otherwise; no other document changes |
| `ReviewController.DeleteReview` | src/controllers/reviewController.ts:128-168 | a caller that is neither of the review's parties fails with nothing changed; otherwise the Helper's people-rated counter (for a helper reviewer) or the User's helper-rated counter (otherwise) drops by 1, the same party's total rating drops by the review's rating, and the review is removed |
| `Db.IncUserCounters` | src/controllers/reviewController.ts:161-163 | the user's two counters grow by the given amounts; nothing else changes, and an unknown id changes nothing |
| `Db.IncHelperCounters` | src/controllers/reviewController.ts:157-159 | the helper's two counters grow by the given amounts; nothing else changes, and an unknown id changes nothing |
| `UserModel.User.constructor` | src/controllers/userController.ts:41-46 | a new user keeps the given fields and starts without a location and with zero counters |
| `UserController.CreateUser` | src/controllers/userController.ts:18-68 | a missing field gives 400 and a user sharing the email or the username gives 409, each storing nothing; otherwise the user is stored with the hashed password, and then truthy out-of-range coordinates give 400 with the user stored without a location, while accepted ones are stored as `[longitude, latitude]` |
| `UserController.Overwrite` | src/controllers/userController.ts:94-119 | only truthy name, email and username overwrite, and the location only when both coordinates are truthy; password and counters are untouched |
| `UserController.UpdateUser` | src/controllers/userController.ts:73-124 | a missing or malformed caller id and an unknown user both give 400; truthy coordinates with either one out of range give 400 with nothing saved; success changes only the caller's record, as `Overwrite` states |
| `UserController.DeleteUser` | src/controllers/userController.ts:129-155 | it succeeds exactly when the caller's user exists and then removes only that record; tasks and reviews stay |
| `HelperController.CreateHelper` | src/controllers/helperController.ts:18-67 | as `CreateUser` over the helpers, with the helper defaults; the coordinate check fails only when both coordinates are out of range, and the helper then stays stored without a location |
| `HelperController.Overwrite` | src/controllers/helperController.ts:94-119 | only truthy name, email and username overwrite, and the location only when both coordinates are truthy; no other field is written |
| `HelperController.UpdateHelper` | src/controllers/helperController.ts:72-124 | a missing or malformed id and an unknown helper both give 400; the request fails on coordinates only when both are out of range; success changes only the caller's record |
| `HelperController.DeleteHelper` | src/controllers/helperController.ts:129-153 | it succeeds exactly when the caller's helper exists and removes that record whatever its `appliedTasks`; tasks keep the id |

## Left out

- Handlers run one at a time; two requests interleaving between a document's load and its save (for example two `applyForTask` calls for the same task and helper, src/controllers/taskController.ts:204-223) are not modelled, so the duplicate-free applicant lists that `Db.Store.Valid` keeps hold only for requests taken in sequence.
- Authentication and role middleware (JWT, cookies, `allowedRole`): the caller's id is an input, and role gating is not modelled.
- Email verification queue, worker, mailer, Redis, server bootstrap, routes, logging and seed data: I/O and plumbing.
- Read-only handlers (`getAllTask`, `getAllTaskCategories`, `getAllReviews`, `getReview`, `getAllUser`, `getAllHelper`): they only list or fetch documents.
- `Review.createReview` is called by the review handler but is not part of this model: its definition is not in the source. `ReviewController.CreateReview` returns the arguments it would receive and stores nothing, so the counter increments on creation are not modelled.
- ReviewController.UpdateReview: an omitted rating makes the source add `NaN` to the counter; the model adds nothing in that case.
- Id comparison is abstract equality. The ObjectId-versus-string comparisons at src/controllers/reviewController.ts:150 and src/controllers/taskController.ts:98 are not modelled.
- `isValidObjectId` is the `Malformed` case of an id argument. A malformed id that reaches `findById` is treated as not found; Mongoose's cast error is not modelled. Neither is a malformed `category` in an update, which the model takes as `Option<Id>`.
- `bcrypt.hashSync` is the function parameter `hash`.
- The unique index on the user's email and username is not modelled. A duplicate that `updateUser` writes would be rejected by the database at save.
- Coordinates are `real` and ratings are `int`. JavaScript number quirks, fractional ratings and non-numeric inputs are left out.
- A crash between the two writes of apply or cancel is not modelled; the sequence runs as written.
- Timestamps, the 2dsphere index and the `crs` field of a point are database mechanics.
