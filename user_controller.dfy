/** The user account handlers (src/controllers/userController.ts). Missing strings are "",
    missing coordinates 0.0; the caller's id comes from the authentication layer. */
module UserController {
  import opened Common
  import opened Geo
  import opened UserModel
  import opened Db

  /** `User.findOne({ $or: [{ email }, { username }] })` finds a user. */
  predicate UserTaken(db: Store, email: string, username: string)
    reads db, db.users.Values
  {
    exists id | id in db.users :: db.users[id].email == email || db.users[id].username == username
  }

  /** `createUser`: rejects a missing field (400) or a taken email or username (409), then
      stores the user with its password hashed by `hash` (bcrypt), and only then checks the
      coordinates: when both are truthy and either is out of range the request fails with 400
      but the user stays stored, without a location. `newId` is the id the database generates. */
  method CreateUser(db: Store, name: string, email: string, username: string, password: string,
                    latitude: real, longitude: real, hash: string -> string, newId: Id)
    returns (r: Result<Id>)
    requires db.Valid() && newId !in db.users
    modifies db`users
    ensures db.Valid()
    ensures name == "" || email == "" || username == "" || password == "" ==>
              && r == Err(Coded(400, "All fields are required"))
              && db.users == old(db.users)
    ensures name != "" && email != "" && username != "" && password != ""
            && old(UserTaken(db, email, username)) ==>
              && r == Err(Coded(409, "User already exists"))
              && db.users == old(db.users)
    ensures name != "" && email != "" && username != "" && password != ""
            && !old(UserTaken(db, email, username)) ==>
              && db.users.Keys == old(db.users.Keys) + {newId}
              && (forall id | id in old(db.users) :: db.users[id] == old(db.users[id]))
              && fresh(db.users[newId])
              && var u := db.users[newId];
              && u.name == name && u.email == email && u.username == username
              && u.password == hash(password)
              && u.totalRating == 0 && u.totalHelperRated == 0
              && (latitude != 0.0 && longitude != 0.0 && OutOfRange(latitude, longitude) ==>
                    r == Err(Coded(400, "Invalid coordinates")) && u.location == None)
              && (!(latitude != 0.0 && longitude != 0.0 && OutOfRange(latitude, longitude)) ==>
                    && r == Ok(newId)
                    && u.location == (if latitude != 0.0 && longitude != 0.0
                                      then Some(PointOf(latitude, longitude)) else None))
  {
    if name == "" || email == "" || username == "" || password == "" {
      return Err(Coded(400, "All fields are required"));
    }
    if UserTaken(db, email, username) {
      return Err(Coded(409, "User already exists"));
    }
    var user := new User(name, email, username, hash(password));
    db.users := db.users[newId := user];
    if latitude != 0.0 && longitude != 0.0 {
      if OutOfRange(latitude, longitude) {
        return Err(Coded(400, "Invalid coordinates"));
      }
      user.location := Some(PointOf(latitude, longitude));
    }
    r := Ok(newId);
  }

  /** The field overwrites of `updateUser` on a request that passed the coordinate check. */
  method Overwrite(user: User, name: string, email: string, username: string,
                   latitude: real, longitude: real)
    modifies user`name, user`email, user`username, user`location
    ensures user.name == (if name != "" then name else old(user.name))
    ensures user.email == (if email != "" then email else old(user.email))
    ensures user.username == (if username != "" then username else old(user.username))
    ensures user.location == (if latitude != 0.0 && longitude != 0.0
                              then Some(PointOf(latitude, longitude)) else old(user.location))
  {
    if name != "" {
      user.name := name;
    }
    if email != "" {
      user.email := email;
    }
    if username != "" {
      user.username := username;
    }
    if latitude != 0.0 && longitude != 0.0 {
      user.location := Some(PointOf(latitude, longitude));
    }
  }

  /** `updateUser`: the caller's own record; truthy name, email and username overwrite, and the
      location changes only when both coordinates are truthy and in range (either one out of
      range fails with 400 and saves nothing). An unknown user fails with 400. */
  method UpdateUser(db: Store, caller: IdArg, name: string, email: string, username: string,
                    latitude: real, longitude: real)
    returns (r: Outcome)
    requires db.Valid()
    modifies db.users.Values
    ensures db.Valid() && unchanged(db)
    ensures !caller.Given? ==> r == Fail(Coded(400, "User ID is required"))
    ensures caller.Given? && !UserFound(db, caller) ==> r == Fail(Coded(400, "User not found"))
    ensures UserFound(db, caller) && latitude != 0.0 && longitude != 0.0
            && OutOfRange(latitude, longitude) ==>
              r == Fail(Coded(400, "Invalid coordinates"))
    ensures r.Pass? <==>
              UserFound(db, caller) && !(latitude != 0.0 && longitude != 0.0 && OutOfRange(latitude, longitude))
    ensures r.Fail? ==> forall id | id in db.users :: unchanged(db.users[id])
    ensures r.Pass? ==>
              var u := db.users[caller.id];
              && (forall id | id in db.users && id != caller.id :: unchanged(db.users[id]))
              && u.name == (if name != "" then name else old(u.name))
              && u.email == (if email != "" then email else old(u.email))
              && u.username == (if username != "" then username else old(u.username))
              && u.location == (if latitude != 0.0 && longitude != 0.0
                                then Some(PointOf(latitude, longitude)) else old(u.location))
              && u.password == old(u.password)
              && u.totalRating == old(u.totalRating) && u.totalHelperRated == old(u.totalHelperRated)
  {
    if !caller.Given? {
      return Fail(Coded(400, "User ID is required"));
    }
    if !UserFound(db, caller) {
      return Fail(Coded(400, "User not found"));
    }
    if latitude != 0.0 && longitude != 0.0 && OutOfRange(latitude, longitude) {
      return Fail(Coded(400, "Invalid coordinates"));
    }
    Overwrite(db.users[caller.id], name, email, username, latitude, longitude);
    r := Pass;
  }

  /** `deleteUser`: removes the caller's record unconditionally (tasks it owns and reviews that
      name it stay). An unknown user fails with 400. */
  method DeleteUser(db: Store, caller: IdArg) returns (r: Outcome)
    requires db.Valid()
    modifies db`users
    ensures db.Valid()
    ensures db.tasks == old(db.tasks) && db.reviews == old(db.reviews)
    ensures !caller.Given? ==> r == Fail(Coded(400, "User ID is required"))
    ensures caller.Given? && !old(UserFound(db, caller)) ==> r == Fail(Coded(400, "User not found"))
    ensures r.Pass? <==> old(UserFound(db, caller))
    ensures r.Pass? ==> db.users == old(db.users) - {caller.id}
    ensures r.Fail? ==> db.users == old(db.users)
  {
    if !caller.Given? {
      return Fail(Coded(400, "User ID is required"));
    }
    if !UserFound(db, caller) {
      return Fail(Coded(400, "User not found"));
    }
    db.users := db.users - {caller.id};
    r := Pass;
  }
}
