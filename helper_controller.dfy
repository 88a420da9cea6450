/** The helper account handlers (src/controllers/helperController.ts): the same shape as the user
    handlers, over the helper collection, with a coordinate test that rejects only when latitude
    AND longitude are both out of range. Missing strings are "", missing coordinates 0.0; the
    caller's id comes from the authentication layer. */
module HelperController {
  import opened Common
  import opened Geo
  import opened HelperModel
  import opened Db

  /** `Helper.findOne({ $or: [{ email }, { username }] })` finds a helper. */
  predicate HelperTaken(db: Store, email: string, username: string)
    reads db, db.helpers.Values
  {
    exists id | id in db.helpers :: db.helpers[id].email == email || db.helpers[id].username == username
  }

  /** `createHelper`: rejects a missing field (400) or a taken email or username (409), then
      stores the helper with its password hashed by `hash` (bcrypt) and the schema's defaults,
      and only then checks the coordinates: when both are truthy and both are out of range the
      request fails with 400 but the helper stays stored, without a location. `newId` is the id
      the database generates. */
  method CreateHelper(db: Store, name: string, email: string, username: string, password: string,
                      latitude: real, longitude: real, hash: string -> string, newId: Id)
    returns (r: Result<Id>)
    requires db.Valid() && newId !in db.helpers
    modifies db`helpers
    ensures db.Valid()
    ensures name == "" || email == "" || username == "" || password == "" ==>
              && r == Err(Coded(400, "All fields are required"))
              && db.helpers == old(db.helpers)
    ensures name != "" && email != "" && username != "" && password != ""
            && old(HelperTaken(db, email, username)) ==>
              && r == Err(Coded(409, "User already exists"))
              && db.helpers == old(db.helpers)
    ensures name != "" && email != "" && username != "" && password != ""
            && !old(HelperTaken(db, email, username)) ==>
              && db.helpers.Keys == old(db.helpers.Keys) + {newId}
              && (forall id | id in old(db.helpers) :: db.helpers[id] == old(db.helpers[id]))
              && fresh(db.helpers[newId])
              && var h := db.helpers[newId];
              && h.name == name && h.email == email && h.username == username
              && h.password == hash(password)
              && h.skills == [] && h.experience == "" && h.availability && h.rating == 0
              && h.appliedTasks == [] && h.totalRating == 0 && h.totalPeopleRated == 0
              && (latitude != 0.0 && longitude != 0.0 && HelperOutOfRange(latitude, longitude) ==>
                    r == Err(Coded(400, "Invalid coordinates")) && h.location == None)
              && (!(latitude != 0.0 && longitude != 0.0 && HelperOutOfRange(latitude, longitude)) ==>
                    && r == Ok(newId)
                    && h.location == (if latitude != 0.0 && longitude != 0.0
                                      then Some(PointOf(latitude, longitude)) else None))
  {
    if name == "" || email == "" || username == "" || password == "" {
      return Err(Coded(400, "All fields are required"));
    }
    if HelperTaken(db, email, username) {
      return Err(Coded(409, "User already exists"));
    }
    var helper := new Helper(name, email, username, hash(password));
    db.helpers := db.helpers[newId := helper];
    if latitude != 0.0 && longitude != 0.0 {
      if HelperOutOfRange(latitude, longitude) {
        return Err(Coded(400, "Invalid coordinates"));
      }
      helper.location := Some(PointOf(latitude, longitude));
    }
    r := Ok(newId);
  }

  /** The field overwrites of `updateHelper` on a request that passed the coordinate check. */
  method Overwrite(helper: Helper, name: string, email: string, username: string,
                   latitude: real, longitude: real)
    modifies helper`name, helper`email, helper`username, helper`location
    ensures helper.name == (if name != "" then name else old(helper.name))
    ensures helper.email == (if email != "" then email else old(helper.email))
    ensures helper.username == (if username != "" then username else old(helper.username))
    ensures helper.location == (if latitude != 0.0 && longitude != 0.0
                                then Some(PointOf(latitude, longitude)) else old(helper.location))
  {
    if name != "" {
      helper.name := name;
    }
    if email != "" {
      helper.email := email;
    }
    if username != "" {
      helper.username := username;
    }
    if latitude != 0.0 && longitude != 0.0 {
      helper.location := Some(PointOf(latitude, longitude));
    }
  }

  /** `updateHelper`: the caller's own record; truthy name, email and username overwrite, and the
      location changes whenever both coordinates are truthy unless both are out of range (that
      case fails with 400 and saves nothing). An unknown helper fails with 400. */
  method UpdateHelper(db: Store, caller: IdArg, name: string, email: string, username: string,
                      latitude: real, longitude: real)
    returns (r: Outcome)
    requires db.Valid()
    modifies db.helpers.Values
    ensures db.Valid() && unchanged(db)
    ensures !caller.Given? ==> r == Fail(Coded(400, "Helper ID is required"))
    ensures caller.Given? && !HelperFound(db, caller) ==> r == Fail(Coded(400, "Helper not found"))
    ensures HelperFound(db, caller) && latitude != 0.0 && longitude != 0.0
            && HelperOutOfRange(latitude, longitude) ==>
              r == Fail(Coded(400, "Invalid coordinates"))
    ensures r.Pass? <==>
              && HelperFound(db, caller)
              && !(latitude != 0.0 && longitude != 0.0 && HelperOutOfRange(latitude, longitude))
    ensures r.Fail? ==> forall id | id in db.helpers :: unchanged(db.helpers[id])
    ensures r.Pass? ==>
              var h := db.helpers[caller.id];
              && (forall id | id in db.helpers && id != caller.id :: unchanged(db.helpers[id]))
              && h.name == (if name != "" then name else old(h.name))
              && h.email == (if email != "" then email else old(h.email))
              && h.username == (if username != "" then username else old(h.username))
              && h.location == (if latitude != 0.0 && longitude != 0.0
                                then Some(PointOf(latitude, longitude)) else old(h.location))
              && h.password == old(h.password) && h.skills == old(h.skills)
              && h.experience == old(h.experience) && h.availability == old(h.availability)
              && h.rating == old(h.rating) && h.appliedTasks == old(h.appliedTasks)
              && h.totalRating == old(h.totalRating) && h.totalPeopleRated == old(h.totalPeopleRated)
  {
    if !caller.Given? {
      return Fail(Coded(400, "Helper ID is required"));
    }
    if !HelperFound(db, caller) {
      return Fail(Coded(400, "Helper not found"));
    }
    if latitude != 0.0 && longitude != 0.0 && HelperOutOfRange(latitude, longitude) {
      return Fail(Coded(400, "Invalid coordinates"));
    }
    Overwrite(db.helpers[caller.id], name, email, username, latitude, longitude);
    r := Pass;
  }

  /** `deleteHelper`: removes the caller's record unconditionally, whatever its `appliedTasks`
      (tasks keep the helper's id in `appliedHelpers`). An unknown helper fails with 400. */
  method DeleteHelper(db: Store, caller: IdArg) returns (r: Outcome)
    requires db.Valid()
    modifies db`helpers
    ensures db.Valid()
    ensures db.tasks == old(db.tasks) && db.users == old(db.users) && db.reviews == old(db.reviews)
    ensures !caller.Given? ==> r == Fail(Coded(400, "Helper ID is required"))
    ensures caller.Given? && !old(HelperFound(db, caller)) ==> r == Fail(Coded(400, "Helper not found"))
    ensures r.Pass? <==> old(HelperFound(db, caller))
    ensures r.Pass? ==> db.helpers == old(db.helpers) - {caller.id}
    ensures r.Fail? ==> db.helpers == old(db.helpers)
  {
    if !caller.Given? {
      return Fail(Coded(400, "Helper ID is required"));
    }
    if !HelperFound(db, caller) {
      return Fail(Coded(400, "Helper not found"));
    }
    db.helpers := db.helpers - {caller.id};
    r := Pass;
  }
}
