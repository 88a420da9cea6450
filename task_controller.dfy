/** The task handlers (src/controllers/taskController.ts). The caller's id comes from the
    authentication layer; the request body's fields are parameters, with "" for a missing string,
    0.0 for a missing coordinate and `None` for a missing or non-array `specialInstructions`. */
module TaskController {
  import opened Common
  import opened IdLists
  import opened Geo
  import opened TaskModel
  import opened HelperModel
  import opened Db

  /** The checks `createTask` makes before inserting, in the source's order. A coordinate of 0
      is falsy, so it is rejected as a missing field rather than tested against the range. */
  function CheckCreate(title: string, description: string, category: IdArg, owner: IdArg,
                       latitude: real, longitude: real): (r: Outcome)
    ensures r == Pass ==>
              && title != "" && description != "" && category.Given? && owner.Given?
              && latitude != 0.0 && longitude != 0.0
              && -90.0 <= latitude <= 90.0 && -180.0 <= longitude <= 180.0
    ensures (&& title != "" && description != "" && category.Given? && owner.Given?
             && latitude != 0.0 && longitude != 0.0
             && -90.0 <= latitude <= 90.0 && -180.0 <= longitude <= 180.0) ==> r == Pass
    ensures latitude == 0.0 || longitude == 0.0 ==> r == Fail(Coded(400, "All fields are required"))
    ensures r.Fail? ==> r.error.code == Some(400)
  {
    if title == "" || description == "" || category == Absent || owner == Absent
       || latitude == 0.0 || longitude == 0.0 then
      Fail(Coded(400, "All fields are required"))
    else if !category.Given? then
      Fail(Coded(400, "Invalid category Id"))
    else if !owner.Given? then
      Fail(Coded(400, "Invalid owner Id"))
    else if OutOfRange(latitude, longitude) then
      Fail(Coded(400, "Invalid coordinates"))
    else
      Pass
  }

  /** The special instructions a task keeps: the request's list when it is a non-empty array,
      the current ones otherwise. */
  function KeptInstructions(request: Option<seq<string>>, current: seq<string>): seq<string>
  {
    if request.Some? && |request.value| > 0 then request.value else current
  }

  /** `createTask`: validates, then stores a new task owned by the caller at `[longitude, latitude]`
      with the schema's defaults. `newId` is the id the database generates for it. */
  method CreateTask(db: Store, owner: IdArg, title: string, description: string, category: IdArg,
                    latitude: real, longitude: real, specialInstructions: Option<seq<string>>,
                    newId: Id)
    returns (r: Result<Id>)
    requires db.Valid() && newId !in db.tasks
    modifies db`tasks
    ensures db.Valid()
    ensures CheckCreate(title, description, category, owner, latitude, longitude).Fail? ==>
              && r == Err(CheckCreate(title, description, category, owner, latitude, longitude).error)
              && db.tasks == old(db.tasks)
    ensures CheckCreate(title, description, category, owner, latitude, longitude) == Pass ==>
              r == Ok(newId)
    ensures r.Ok? ==>
              && db.tasks.Keys == old(db.tasks.Keys) + {newId}
              && (forall id | id in old(db.tasks) :: db.tasks[id] == old(db.tasks[id]))
              && fresh(db.tasks[newId])
    ensures r.Ok? ==>
              var t := db.tasks[newId];
              && t.title == title && t.description == description
              && t.category == category.id && t.owner == owner.id
              && t.location == PointOf(latitude, longitude)
              && t.specialInstructions == KeptInstructions(specialInstructions, [])
              && t.status == New && t.budget == 0.0
              && t.appliedHelpers == [] && t.assignedHelper == None
  {
    var check := CheckCreate(title, description, category, owner, latitude, longitude);
    if check.Fail? {
      return Err(check.error);
    }
    var task := new Task(title, description, category.id, PointOf(latitude, longitude), owner.id);
    task.specialInstructions := KeptInstructions(specialInstructions, task.specialInstructions);
    db.tasks := db.tasks[newId := task];
    r := Ok(newId);
  }

  /** The checks `updateTask` makes on the request once the caller is known to own the task:
      coordinates only when both are truthy, then the status whitelist. */
  function CheckUpdate(latitude: real, longitude: real, status: string): (r: Outcome)
    ensures r == Pass <==>
              && (latitude == 0.0 || longitude == 0.0
                  || (-90.0 <= latitude <= 90.0 && -180.0 <= longitude <= 180.0))
              && (status == "" || status == "NEW" || status == "IN_PROGRESS" || status == "DONE")
    ensures latitude != 0.0 && longitude != 0.0 && OutOfRange(latitude, longitude) ==>
              r == Fail(Coded(400, "Invalid coordinates"))
    ensures (&& !(latitude != 0.0 && longitude != 0.0 && OutOfRange(latitude, longitude))
             && status != "" && ParseStatus(status).None?) ==>
              r == Fail(Coded(400, "Invalid status"))
    ensures r.Fail? ==> r.error.code == Some(400)
  {
    if latitude != 0.0 && longitude != 0.0 && OutOfRange(latitude, longitude) then
      Fail(Coded(400, "Invalid coordinates"))
    else if status != "" && ParseStatus(status).None? then
      Fail(Coded(400, "Invalid status"))
    else
      Pass
  }

  /** The field overwrites of `updateTask` on a request that passed every check. */
  method Overwrite(task: Task, title: string, description: string, category: Option<Id>,
                   latitude: real, longitude: real, status: string,
                   specialInstructions: Option<seq<string>>)
    requires CheckUpdate(latitude, longitude, status) == Pass
    modifies task`title, task`description, task`category, task`location, task`status,
             task`specialInstructions
    ensures task.title == (if title != "" then title else old(task.title))
    ensures task.description == (if description != "" then description else old(task.description))
    ensures task.category == (if category.Some? then category.value else old(task.category))
    ensures task.location == (if latitude != 0.0 && longitude != 0.0
                              then PointOf(latitude, longitude) else old(task.location))
    ensures task.status == (if status != "" then ParseStatus(status).value else old(task.status))
    ensures task.specialInstructions == KeptInstructions(specialInstructions, old(task.specialInstructions))
  {
    task.title := if title != "" then title else task.title;
    task.description := if description != "" then description else task.description;
    task.category := if category.Some? then category.value else task.category;
    task.location := if latitude != 0.0 && longitude != 0.0
                     then PointOf(latitude, longitude) else task.location;
    task.status := if status != "" then ParseStatus(status).value else task.status;
    task.specialInstructions := KeptInstructions(specialInstructions, task.specialInstructions);
  }

  /** `updateTask`: only the owner may update; truthy fields overwrite, the location changes only
      when both coordinates are truthy and in range, and a status must be one of the three names.
      A failing request saves nothing (the source sets fields on the loaded document and throws
      before `save()`; here every check precedes the first write). */
  method UpdateTask(db: Store, caller: Id, taskArg: IdArg, title: string, description: string,
                    category: Option<Id>, latitude: real, longitude: real, status: string,
                    specialInstructions: Option<seq<string>>)
    returns (r: Outcome)
    requires db.Valid()
    modifies db.tasks.Values
    ensures db.Valid() && unchanged(db)
    ensures taskArg == Absent ==> r == Fail(Coded(400, "Task Id is required"))
    ensures taskArg != Absent && !TaskFound(db, taskArg) ==> r == Fail(Coded(404, "Task not found"))
    ensures TaskFound(db, taskArg) && old(db.tasks[taskArg.id].owner) != caller ==>
              r == Fail(Coded(403, "Forbidden"))
    ensures TaskFound(db, taskArg) && old(db.tasks[taskArg.id].owner) == caller ==>
              r == CheckUpdate(latitude, longitude, status)
    ensures r.Fail? ==> forall id | id in db.tasks :: unchanged(db.tasks[id])
    ensures r.Pass? ==> TaskFound(db, taskArg)
    ensures r.Pass? ==> forall id | id in db.tasks && id != taskArg.id :: unchanged(db.tasks[id])
    ensures r.Pass? ==>
              var t := db.tasks[taskArg.id];
              && t.title == (if title != "" then title else old(t.title))
              && t.description == (if description != "" then description else old(t.description))
              && t.category == (if category.Some? then category.value else old(t.category))
              && t.location == (if latitude != 0.0 && longitude != 0.0
                                then PointOf(latitude, longitude) else old(t.location))
              && t.status == (if status != "" then ParseStatus(status).value else old(t.status))
              && t.specialInstructions == KeptInstructions(specialInstructions, old(t.specialInstructions))
              && t.owner == old(t.owner) && t.budget == old(t.budget)
              && t.appliedHelpers == old(t.appliedHelpers) && t.assignedHelper == old(t.assignedHelper)
  {
    if taskArg == Absent {
      return Fail(Coded(400, "Task Id is required"));
    }
    if !TaskFound(db, taskArg) {
      return Fail(Coded(404, "Task not found"));
    }
    var task := db.tasks[taskArg.id];
    if task.owner != caller {
      return Fail(Coded(403, "Forbidden"));
    }
    r := CheckUpdate(latitude, longitude, status);
    if r.Fail? {
      return;
    }
    Overwrite(task, title, description, category, latitude, longitude, status, specialInstructions);
  }

  /** `deleteTask`: the owner may delete a task whatever its `assignedHelper` and
      `appliedHelpers`; nothing else is touched (helpers keep the task's id in `appliedTasks`). */
  method DeleteTask(db: Store, caller: Id, taskArg: IdArg) returns (r: Outcome)
    requires db.Valid()
    modifies db`tasks
    ensures db.Valid()
    ensures taskArg == Absent ==> r == Fail(Coded(400, "Task Id is required"))
    ensures taskArg != Absent && !old(TaskFound(db, taskArg)) ==>
              r == Fail(Coded(404, "Task not found"))
    ensures old(TaskFound(db, taskArg)) && old(db.tasks[taskArg.id].owner) != caller ==>
              r == Fail(Coded(403, "Forbidden"))
    ensures r.Pass? <==> old(TaskFound(db, taskArg)) && old(db.tasks[taskArg.id].owner) == caller
    ensures r.Pass? ==> db.tasks == old(db.tasks) - {taskArg.id}
    ensures r.Fail? ==> db.tasks == old(db.tasks)
    ensures db.helpers == old(db.helpers)
  {
    if taskArg == Absent {
      return Fail(Coded(400, "Task Id is required"));
    }
    if !TaskFound(db, taskArg) {
      return Fail(Coded(404, "Task not found"));
    }
    if db.tasks[taskArg.id].owner != caller {
      return Fail(Coded(403, "Forbidden"));
    }
    db.tasks := db.tasks - {taskArg.id};
    r := Pass;
  }

  /** `applyForTask`: the caller (a helper) applies to a task. The task's list is changed first and
      the helper's second, so a helper already on the task's list fails with neither list changed,
      while a task already on the helper's list fails after the task's list has grown. */
  method ApplyForTask(db: Store, caller: IdArg, taskArg: IdArg) returns (r: Outcome)
    requires db.Valid()
    modifies db.tasks.Values, db.helpers.Values
    ensures db.Valid() && unchanged(db)
    ensures !(taskArg.Given? && caller.Given?) ==>
              r == Fail(Coded(400, "Task Id and Helper Id are required"))
    ensures taskArg.Given? && caller.Given? && !TaskFound(db, taskArg) ==>
              r == Fail(Coded(404, "Task not found"))
    ensures caller.Given? && TaskFound(db, taskArg) && !HelperFound(db, caller) ==>
              r == Fail(Coded(404, "Helper not found"))
    ensures !(TaskFound(db, taskArg) && HelperFound(db, caller)) ==>
              && (forall id | id in db.tasks :: unchanged(db.tasks[id]))
              && (forall id | id in db.helpers :: unchanged(db.helpers[id]))
    ensures TaskFound(db, taskArg) && HelperFound(db, caller) ==>
              var task, helper := db.tasks[taskArg.id], db.helpers[caller.id];
              && (forall id | id in db.tasks && id != taskArg.id :: unchanged(db.tasks[id]))
              && (forall id | id in db.helpers && id != caller.id :: unchanged(db.helpers[id]))
              && OnlyAppliedHelpersChanged(task) && OnlyAppliedTasksChanged(helper)
              && (caller.id in old(task.appliedHelpers) ==>
                    && r == Fail(Coded(400, "Helper already applied"))
                    && task.appliedHelpers == old(task.appliedHelpers)
                    && helper.appliedTasks == old(helper.appliedTasks))
              && (caller.id !in old(task.appliedHelpers) && taskArg.id in old(helper.appliedTasks) ==>
                    && r == Fail(Coded(400, "Already applied to task"))
                    && task.appliedHelpers == old(task.appliedHelpers) + [caller.id]
                    && helper.appliedTasks == old(helper.appliedTasks))
              && (caller.id !in old(task.appliedHelpers) && taskArg.id !in old(helper.appliedTasks) ==>
                    && r == Pass
                    && task.appliedHelpers == old(task.appliedHelpers) + [caller.id]
                    && helper.appliedTasks == old(helper.appliedTasks) + [taskArg.id])
    ensures r.Pass? ==>
              && caller.id in db.tasks[taskArg.id].appliedHelpers
              && taskArg.id in db.helpers[caller.id].appliedTasks
  {
    if !(taskArg.Given? && caller.Given?) {
      return Fail(Coded(400, "Task Id and Helper Id are required"));
    }
    if !TaskFound(db, taskArg) {
      return Fail(Coded(404, "Task not found"));
    }
    var task := db.tasks[taskArg.id];
    if !HelperFound(db, caller) {
      return Fail(Coded(404, "Helper not found"));
    }
    var helper := db.helpers[caller.id];
    r := task.ApplyHelper(caller.id);
    if r.Fail? {
      return;
    }
    r := helper.ApplyForTask(taskArg.id);
  }

  /** `cancelApplication`: the caller (a helper) withdraws from a task; afterwards neither list
      names the other side, and neither call can fail. */
  method CancelApplication(db: Store, caller: IdArg, taskArg: IdArg) returns (r: Outcome)
    requires db.Valid()
    modifies db.tasks.Values, db.helpers.Values
    ensures db.Valid() && unchanged(db)
    ensures !(taskArg.Given? && caller.Given?) ==>
              r == Fail(Coded(400, "Task Id and Helper Id are required"))
    ensures taskArg.Given? && caller.Given? && !TaskFound(db, taskArg) ==>
              r == Fail(Coded(404, "Task not found"))
    ensures caller.Given? && TaskFound(db, taskArg) && !HelperFound(db, caller) ==>
              r == Fail(Coded(404, "Helper not found"))
    ensures r.Pass? <==> TaskFound(db, taskArg) && HelperFound(db, caller)
    ensures r.Fail? ==>
              && (forall id | id in db.tasks :: unchanged(db.tasks[id]))
              && (forall id | id in db.helpers :: unchanged(db.helpers[id]))
    ensures r.Pass? ==>
              var task, helper := db.tasks[taskArg.id], db.helpers[caller.id];
              && (forall id | id in db.tasks && id != taskArg.id :: unchanged(db.tasks[id]))
              && (forall id | id in db.helpers && id != caller.id :: unchanged(db.helpers[id]))
              && OnlyAppliedHelpersChanged(task) && OnlyAppliedTasksChanged(helper)
              && task.appliedHelpers == Without(old(task.appliedHelpers), caller.id)
              && helper.appliedTasks == Without(old(helper.appliedTasks), taskArg.id)
              && caller.id !in task.appliedHelpers && taskArg.id !in helper.appliedTasks
  {
    if !(taskArg.Given? && caller.Given?) {
      return Fail(Coded(400, "Task Id and Helper Id are required"));
    }
    if !TaskFound(db, taskArg) {
      return Fail(Coded(404, "Task not found"));
    }
    var task := db.tasks[taskArg.id];
    if !HelperFound(db, caller) {
      return Fail(Coded(404, "Helper not found"));
    }
    var helper := db.helpers[caller.id];
    task.CancelHelper(caller.id);
    helper.CancelTask(taskArg.id);
    r := Pass;
  }

  /** The two handlers' round trip: a helper that applies to a task neither side lists and then
      cancels leaves both lists exactly as they were. */
  method ApplyThenCancel(db: Store, caller: IdArg, taskArg: IdArg)
    returns (applied: Outcome, cancelled: Outcome)
    requires db.Valid() && TaskFound(db, taskArg) && HelperFound(db, caller)
    requires caller.id !in db.tasks[taskArg.id].appliedHelpers
    requires taskArg.id !in db.helpers[caller.id].appliedTasks
    modifies db.tasks.Values, db.helpers.Values
    ensures db.Valid() && unchanged(db)
    ensures applied == Pass && cancelled == Pass
    ensures db.tasks[taskArg.id].appliedHelpers == old(db.tasks[taskArg.id].appliedHelpers)
    ensures db.helpers[caller.id].appliedTasks == old(db.helpers[caller.id].appliedTasks)
  {
    ghost var taskList := db.tasks[taskArg.id].appliedHelpers;
    ghost var helperList := db.helpers[caller.id].appliedTasks;
    applied := ApplyForTask(db, caller, taskArg);
    cancelled := CancelApplication(db, caller, taskArg);
    AppendThenWithout(taskList, caller.id);
    AppendThenWithout(helperList, taskArg.id);
  }
}
