/** The Helper document (src/models/Helper.ts): its fields with their defaults, the rating
    counters the review controller increments, and the two methods that change `appliedTasks`. */
module HelperModel {
  import opened Common
  import opened IdLists
  import opened Geo

  class Helper {
    var name: string
    var email: string
    var username: string
    var password: string
    var location: Option<GeoPoint>
    var skills: seq<string>
    var experience: string
    var availability: bool
    var rating: int
    var appliedTasks: seq<Id>
    /** Counters the review controller updates with `$inc`; the schema does not declare them,
        and an increment of a missing field starts from 0. */
    var totalRating: int
    var totalPeopleRated: int

    /** `Helper.create` with the given required fields; the others take their schema defaults. */
    constructor (name: string, email: string, username: string, password: string)
      ensures this.name == name && this.email == email
      ensures this.username == username && this.password == password
      ensures location == None && skills == [] && experience == "" && availability && rating == 0
      ensures appliedTasks == [] && totalRating == 0 && totalPeopleRated == 0
    {
      this.name := name;
      this.email := email;
      this.username := username;
      this.password := password;
      location := None;
      skills := [];
      experience := "";
      availability := true;
      rating := 0;
      appliedTasks := [];
      totalRating := 0;
      totalPeopleRated := 0;
    }

    /** `applyForTask`: appends an absent task id; a present one throws and changes nothing.
        No other field is touched, and a duplicate-free list stays duplicate-free. */
    method ApplyForTask(taskId: Id) returns (r: Outcome)
      modifies this`appliedTasks
      ensures taskId !in old(appliedTasks) ==>
                r == Pass && appliedTasks == old(appliedTasks) + [taskId]
      ensures taskId in old(appliedTasks) ==>
                r == Fail(Coded(400, "Already applied to task")) && appliedTasks == old(appliedTasks)
      ensures NoDup(old(appliedTasks)) ==> NoDup(appliedTasks)
    {
      if taskId !in appliedTasks {
        if NoDup(appliedTasks) {
          AppendKeepsNoDup(appliedTasks, taskId);
        }
        appliedTasks := appliedTasks + [taskId];
        r := Pass;
      } else {
        r := Fail(Coded(400, "Already applied to task"));
      }
    }

    /** `cancelTask`: drops every occurrence of the task id, keeps the others in order,
        never throws. Duplicate freedom is kept. */
    method CancelTask(taskId: Id)
      modifies this`appliedTasks
      ensures appliedTasks == Without(old(appliedTasks), taskId)
      ensures taskId !in appliedTasks
      ensures NoDup(old(appliedTasks)) ==> NoDup(appliedTasks)
    {
      if NoDup(appliedTasks) {
        WithoutKeepsNoDup(appliedTasks, taskId);
      }
      appliedTasks := Without(appliedTasks, taskId);
    }
  }

  /** Between two states, every field of `h` except `appliedTasks` kept its value. */
  twostate predicate OnlyAppliedTasksChanged(h: Helper)
    reads h
  {
    && h.name == old(h.name) && h.email == old(h.email) && h.username == old(h.username)
    && h.password == old(h.password) && h.location == old(h.location)
    && h.skills == old(h.skills) && h.experience == old(h.experience)
    && h.availability == old(h.availability) && h.rating == old(h.rating)
    && h.totalRating == old(h.totalRating) && h.totalPeopleRated == old(h.totalPeopleRated)
  }

  /** Between two states, every field of `h` except the two rating counters kept its value. */
  twostate predicate OnlyCountersChanged(h: Helper)
    reads h
  {
    && h.name == old(h.name) && h.email == old(h.email) && h.username == old(h.username)
    && h.password == old(h.password) && h.location == old(h.location)
    && h.skills == old(h.skills) && h.experience == old(h.experience)
    && h.availability == old(h.availability) && h.rating == old(h.rating)
    && h.appliedTasks == old(h.appliedTasks)
  }
}
