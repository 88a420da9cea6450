/** The User document (src/models/User.ts) as the controllers see it: the schema's fields and
    the rating counters the review controller increments. */
module UserModel {
  import opened Common
  import opened Geo

  class User {
    var name: string
    var email: string
    var username: string
    var password: string
    var location: Option<GeoPoint>
    /** Counters the review controller updates with `$inc`; the schema does not declare them,
        and an increment of a missing field starts from 0. */
    var totalRating: int
    var totalHelperRated: int

    /** `User.create` with the given fields; no location, counters at 0. */
    constructor (name: string, email: string, username: string, password: string)
      ensures this.name == name && this.email == email
      ensures this.username == username && this.password == password
      ensures location == None && totalRating == 0 && totalHelperRated == 0
    {
      this.name := name;
      this.email := email;
      this.username := username;
      this.password := password;
      location := None;
      totalRating := 0;
      totalHelperRated := 0;
    }
  }

  /** Between two states, every field of `u` except the two rating counters kept its value. */
  twostate predicate OnlyCountersChanged(u: User)
    reads u
  {
    && u.name == old(u.name) && u.email == old(u.email) && u.username == old(u.username)
    && u.password == old(u.password) && u.location == old(u.location)
  }
}
