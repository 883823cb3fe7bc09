/** The six tables of the hosted relational store, kept in memory, and the
    ownership resolver that every route uses for authorization. */
module Store {
  import opened Common

  datatype MatchStatus = Pending | Matched | Accepted | Rejected | Blocked

  datatype Size = Small | Medium | Large | Giant

  datatype Vaccination = UpToDate | NotUpToDate | NotApplicable

  datatype PlaydateStatus = Scheduled | Completed | Cancelled

  /** A row of `profiles`, keyed by the user's identity. */
  datatype Profile = Profile(
    email: string,
    firstName: string,
    lastName: string,
    phone: string,
    bio: Option<string>,
    profileImageUrl: Option<string>,
    neighborhood: Option<string>,
    isWalker: Option<bool>,
    createdAt: Time,
    updatedAt: Time)

  /** A row of `dogs`. */
  datatype Dog = Dog(
    owner: UserId,
    name: string,
    breed: string,
    age: int,
    size: Size,
    temperament: seq<string>,
    energyLevel: int,
    bio: Option<string>,
    imageUrls: Option<seq<string>>,
    isFixed: bool,
    vaccination: Vaccination,
    createdAt: Time,
    updatedAt: Time)

  /** A row of `matches`: one dog's interest in another, or a mutual match. */
  datatype Match = Match(
    dog1: DogId,
    dog2: DogId,
    status: MatchStatus,
    createdAt: Time,
    updatedAt: Time)

  /** A row of `messages`; `readAt == None` means unread. */
  datatype Message = Message(
    matchId: MatchId,
    sender: UserId,
    content: string,
    createdAt: Time,
    readAt: Option<Time>)

  datatype Location = Location(latitude: real, longitude: real, name: Option<string>)

  /** A row of `playdates`, anchored to a match. */
  datatype Playdate = Playdate(
    matchId: MatchId,
    scheduledTime: Time,
    location: Location,
    notes: Option<string>,
    status: PlaydateStatus,
    createdBy: UserId,
    createdAt: Time,
    updatedAt: Time)

  /** A row of `ratings`: one user's review of a dog after a playdate. */
  datatype Rating = Rating(
    playdateId: PlaydateId,
    raterId: UserId,
    ratedDogId: DogId,
    rating: int,
    review: Option<string>,
    createdAt: Time,
    updatedAt: Time)

  /** The store the handlers share. Each table maps a row's primary key to
      the rest of the row; the handlers read and rewrite these maps in place. */
  class Db {
    var profiles: map<UserId, Profile>
    var dogs: map<DogId, Dog>
    var matches: map<MatchId, Match>
    var messages: map<MessageId, Message>
    var playdates: map<PlaydateId, Playdate>
    var ratings: map<RatingId, Rating>

    constructor ()
      ensures profiles == map[] && dogs == map[] && matches == map[]
      ensures messages == map[] && playdates == map[] && ratings == map[]
    {
      profiles, dogs, matches := map[], map[], map[];
      messages, playdates, ratings := map[], map[], map[];
    }
  }

  /** The ownership resolver (`getUserDogIds`, repeated in every route file):
      the ids of the dogs whose `owner_id` is `user`.
      In matches.js and playdates.js the ids come back quoted and joined into
      one string, and `includes` there tests for a substring. A stored id is a
      lower-case UUID of one fixed shape, so a lower-case id occurs in that
      string exactly when it is one of the owned ids, and the model uses set
      membership throughout. The same string is also put into the `in.(…)`
      filters of the list queries, where the store expects double-quoted
      values; reading it there as set membership assumes the store client
      takes the single-quoted values as the ids themselves. Ids here are opaque values: a client spelling
      an owned id in upper case, which `isUUID` accepts but the case-sensitive
      comparison rejects, is not distinguished from the stored id. */
  function OwnedDogs(dogs: map<DogId, Dog>, user: UserId): (owned: set<DogId>)
    ensures owned <= dogs.Keys
  {
    set d | d in dogs && dogs[d].owner == user
  }

  /** A dog has one owner, so two users never share a dog. */
  lemma OwnedDogsDisjoint(dogs: map<DogId, Dog>, u: UserId, v: UserId)
    requires u != v
    ensures OwnedDogs(dogs, u) !! OwnedDogs(dogs, v)
  {
  }

  /** A match is visible to, and may be acted on by, the owner of either dog. */
  predicate Involves(m: Match, owned: set<DogId>)
  {
    m.dog1 in owned || m.dog2 in owned
  }
}
