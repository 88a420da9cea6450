/** The Task document (src/models/Task.ts): its fields with their defaults, and the four methods
    that change it in place before saving it. */
module TaskModel {
  import opened Common
  import opened IdLists
  import opened Geo

  /** The `status` enum: 'NEW', 'IN_PROGRESS', 'DONE'. A task's status is always one of them. */
  datatype Status = New | InProgress | Done

  /** The string the schema stores for a status. */
  function StatusName(s: Status): string
  {
    match s
    case New => "NEW"
    case InProgress => "IN_PROGRESS"
    case Done => "DONE"
  }

  /** The status whitelist of the task controller: a request's status string is accepted
      exactly when it is the name of a status. */
  function ParseStatus(name: string): (r: Option<Status>)
    ensures r.Some? ==> StatusName(r.value) == name
    ensures r.None? ==> forall s: Status :: StatusName(s) != name
  {
    if name == "NEW" then Some(New)
    else if name == "IN_PROGRESS" then Some(InProgress)
    else if name == "DONE" then Some(Done)
    else None
  }

  /** Every status's name is accepted and read back as that status. */
  lemma ParseStatusName(s: Status)
    ensures ParseStatus(StatusName(s)) == Some(s)
  {
  }

  class Task {
    var title: string
    var description: string
    var category: Id
    var location: GeoPoint
    var status: Status
    var specialInstructions: seq<string>
    var owner: Id
    var budget: real
    var appliedHelpers: seq<Id>
    var assignedHelper: Option<Id>

    /** `Task.create` with the given required fields; the others take their schema defaults. */
    constructor (title: string, description: string, category: Id, location: GeoPoint, owner: Id)
      ensures this.title == title && this.description == description
      ensures this.category == category && this.location == location && this.owner == owner
      ensures status == New && specialInstructions == [] && budget == 0.0
      ensures appliedHelpers == [] && assignedHelper == None
    {
      this.title := title;
      this.description := description;
      this.category := category;
      this.location := location;
      this.owner := owner;
      status := New;
      specialInstructions := [];
      budget := 0.0;
      appliedHelpers := [];
      assignedHelper := None;
    }

    /** `applyHelper`: appends an absent helper id; a present one throws and changes nothing.
        No other field is touched, and a duplicate-free list stays duplicate-free. */
    method ApplyHelper(helperId: Id) returns (r: Outcome)
      modifies this`appliedHelpers
      ensures helperId !in old(appliedHelpers) ==>
                r == Pass && appliedHelpers == old(appliedHelpers) + [helperId]
      ensures helperId in old(appliedHelpers) ==>
                r == Fail(Coded(400, "Helper already applied")) && appliedHelpers == old(appliedHelpers)
      ensures NoDup(old(appliedHelpers)) ==> NoDup(appliedHelpers)
    {
      if helperId !in appliedHelpers {
        if NoDup(appliedHelpers) {
          AppendKeepsNoDup(appliedHelpers, helperId);
        }
        appliedHelpers := appliedHelpers + [helperId];
        r := Pass;
      } else {
        r := Fail(Coded(400, "Helper already applied"));
      }
    }

    /** `cancelHelper`: drops every occurrence of the helper id, keeps the others in order,
        never throws. Duplicate freedom is kept. */
    method CancelHelper(helperId: Id)
      modifies this`appliedHelpers
      ensures appliedHelpers == Without(old(appliedHelpers), helperId)
      ensures helperId !in appliedHelpers
      ensures NoDup(old(appliedHelpers)) ==> NoDup(appliedHelpers)
    {
      if NoDup(appliedHelpers) {
        WithoutKeepsNoDup(appliedHelpers, helperId);
      }
      appliedHelpers := Without(appliedHelpers, helperId);
    }

    /** `assignHelper`: records the helper and moves to IN_PROGRESS from any status, whether or
        not the helper applied; `appliedHelpers` and every other field stay as they were. */
    method AssignHelper(helperId: Id)
      modifies this`assignedHelper, this`status
      ensures assignedHelper == Some(helperId) && status == InProgress
    {
      assignedHelper := Some(helperId);
      status := InProgress;
    }

    /** `completeTask`: moves to DONE from any status (so a second call is a no-op);
        nothing else changes. */
    method CompleteTask()
      modifies this`status
      ensures status == Done
    {
      status := Done;
    }
  }

  /** Between two states, every field of `t` except `appliedHelpers` kept its value. */
  twostate predicate OnlyAppliedHelpersChanged(t: Task)
    reads t
  {
    && t.title == old(t.title) && t.description == old(t.description)
    && t.category == old(t.category) && t.location == old(t.location)
    && t.status == old(t.status) && t.specialInstructions == old(t.specialInstructions)
    && t.owner == old(t.owner) && t.budget == old(t.budget)
    && t.assignedHelper == old(t.assignedHelper)
  }
}
