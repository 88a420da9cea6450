/** The Review document as the review controller reads and writes it: the two parties, the task,
    the rating and text, and the role of the party that wrote it. */
module ReviewModel {
  import opened Common

  /** `reviewerRole`: which party wrote the review. */
  datatype Role = UserRole | HelperRole

  /** A party whose rating counters a review operation adjusts. */
  datatype Party = UserParty | HelperParty

  class Review {
    var userId: Id
    var taskId: Id
    var helperId: Id
    var rating: int
    var review: string
    var reviewerRole: Role
  }

  /** Whose `totalRating` `updateReview` adjusts: the User's when the reviewer is a helper,
      the Helper's otherwise. */
  function UpdateCounterParty(role: Role): Party
  {
    if role == HelperRole then UserParty else HelperParty
  }

  /** Whose counters `deleteReview` decrements: the Helper's when the reviewer is a helper,
      the User's otherwise. */
  function DeleteCounterParty(role: Role): Party
  {
    if role == HelperRole then HelperParty else UserParty
  }

  /** For every reviewer role, an update and a delete of the same review adjust the counters
      of opposite parties. */
  lemma UpdateAndDeleteTargetOppositeParties(role: Role)
    ensures UpdateCounterParty(role) != DeleteCounterParty(role)
    ensures role == HelperRole ==> UpdateCounterParty(role) == UserParty
    ensures role == UserRole ==> UpdateCounterParty(role) == HelperParty
  {
  }
}
