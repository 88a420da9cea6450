/** The database the controllers work against: one collection per document type, each a map
    from id to the (mutable) document. */
module Db {
  import opened Common
  import opened IdLists
  import opened TaskModel
  import opened HelperModel
  import opened UserModel
  import opened ReviewModel

  /** Distinct ids name distinct documents. */
  ghost predicate Injective<T>(m: map<Id, T>)
  {
    forall a, b :: a in m && b in m && a != b ==> m[a] != m[b]
  }

  class Store {
    var tasks: map<Id, Task>
    var helpers: map<Id, Helper>
    var users: map<Id, User>
    var reviews: map<Id, Review>

    /** Every collection holds a distinct document per id, and every applied list is duplicate-free
        (the controllers add to these lists only through `applyHelper`/`applyForTask`). */
    ghost predicate Valid()
      reads this, tasks.Values, helpers.Values
    {
      && Injective(tasks) && Injective(helpers) && Injective(users) && Injective(reviews)
      && (forall id | id in tasks :: NoDup(tasks[id].appliedHelpers))
      && (forall id | id in helpers :: NoDup(helpers[id].appliedTasks))
    }
  }

  /** The task an id argument names, if it is a well-formed id of a stored task
      (a malformed id finds nothing). */
  predicate TaskFound(db: Store, arg: IdArg)
    reads db
  {
    arg.Given? && arg.id in db.tasks
  }

  predicate HelperFound(db: Store, arg: IdArg)
    reads db
  {
    arg.Given? && arg.id in db.helpers
  }

  predicate UserFound(db: Store, arg: IdArg)
    reads db
  {
    arg.Given? && arg.id in db.users
  }

  predicate ReviewFound(db: Store, arg: IdArg)
    reads db
  {
    arg.Given? && arg.id in db.reviews
  }

  /** `User.findByIdAndUpdate(id, { $inc: ... })`: adds to the two rating counters of the user
      with that id; an id with no user changes nothing. */
  method IncUserCounters(db: Store, id: Id, ratedDelta: int, ratingDelta: int)
    requires db.Valid()
    modifies db.users.Values
    ensures db.Valid()
    ensures forall other | other in db.users && other != id :: unchanged(db.users[other])
    ensures id in db.users ==>
              var u := db.users[id];
              && u.totalHelperRated == old(u.totalHelperRated) + ratedDelta
              && u.totalRating == old(u.totalRating) + ratingDelta
              && UserModel.OnlyCountersChanged(u)
  {
    if id in db.users {
      var u := db.users[id];
      u.totalHelperRated := u.totalHelperRated + ratedDelta;
      u.totalRating := u.totalRating + ratingDelta;
    }
  }

  /** `Helper.findByIdAndUpdate(id, { $inc: ... })`: adds to the two rating counters of the
      helper with that id; an id with no helper changes nothing. */
  method IncHelperCounters(db: Store, id: Id, ratedDelta: int, ratingDelta: int)
    requires db.Valid()
    modifies db.helpers.Values
    ensures db.Valid()
    ensures forall other | other in db.helpers && other != id :: unchanged(db.helpers[other])
    ensures id in db.helpers ==>
              var h := db.helpers[id];
              && h.totalPeopleRated == old(h.totalPeopleRated) + ratedDelta
              && h.totalRating == old(h.totalRating) + ratingDelta
              && HelperModel.OnlyCountersChanged(h)
  {
    if id in db.helpers {
      var h := db.helpers[id];
      h.totalPeopleRated := h.totalPeopleRated + ratedDelta;
      h.totalRating := h.totalRating + ratingDelta;
    }
  }
}
