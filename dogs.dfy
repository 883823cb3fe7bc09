/** Dog records and their owner-gated CRUD (routes/dogs.js). */
module Dogs {
  import opened Common
  import opened Store

  /** `isIn(['small', 'medium', 'large', 'giant'])`. */
  function ParseSize(s: string): (r: Option<Size>)
    ensures r.Some? <==> s in {"small", "medium", "large", "giant"}
    ensures r.Some? ==> SizeName(r.value) == s
  {
    match s
    case "small" => Some(Small)
    case "medium" => Some(Medium)
    case "large" => Some(Large)
    case "giant" => Some(Giant)
    case _ => None
  }

  function SizeName(z: Size): string
  {
    match z
    case Small => "small"
    case Medium => "medium"
    case Large => "large"
    case Giant => "giant"
  }

  /** `isIn(['up_to_date', 'not_up_to_date', 'not_applicable'])`. */
  function ParseVaccination(s: string): (r: Option<Vaccination>)
    ensures r.Some? <==> s in {"up_to_date", "not_up_to_date", "not_applicable"}
    ensures r.Some? ==> VaccinationName(r.value) == s
  {
    match s
    case "up_to_date" => Some(UpToDate)
    case "not_up_to_date" => Some(NotUpToDate)
    case "not_applicable" => Some(NotApplicable)
    case _ => None
  }

  function VaccinationName(v: Vaccination): string
  {
    match v
    case UpToDate => "up_to_date"
    case NotUpToDate => "not_up_to_date"
    case NotApplicable => "not_applicable"
  }

  /** Every size and vaccination status is read back from its own spelling. */
  lemma ParseNames(z: Size, v: Vaccination)
    ensures ParseSize(SizeName(z)) == Some(z)
    ensures ParseVaccination(VaccinationName(v)) == Some(v)
  {
  }

  /** The fields of a POST or PATCH body, each possibly absent. `ownerId`
      stands for an `owner_id` the client may put in the body. */
  datatype DogBody = DogBody(
    name: Option<string>,
    breed: Option<string>,
    age: Option<int>,
    size: Option<string>,
    temperament: Option<seq<string>>,
    energyLevel: Option<int>,
    bio: Option<string>,
    imageUrls: Option<seq<string>>,
    isFixed: Option<bool>,
    vaccination: Option<string>,
    ownerId: Option<UserId>)

  predicate ValidName(s: string) { !Blank(s) }
  predicate ValidAge(n: int) { n >= 0 }
  predicate ValidEnergy(n: int) { 1 <= n <= 5 }

  /** The POST validators: every required field present and in range. */
  predicate ValidNewDog(b: DogBody)
  {
    && b.name.Some? && ValidName(b.name.value)
    && b.breed.Some? && ValidName(b.breed.value)
    && b.age.Some? && ValidAge(b.age.value)
    && b.size.Some? && ParseSize(b.size.value).Some?
    && b.temperament.Some?
    && b.energyLevel.Some? && ValidEnergy(b.energyLevel.value)
    && b.isFixed.Some?
    && b.vaccination.Some? && ParseVaccination(b.vaccination.value).Some?
  }

  /** The PATCH validators: the same checks, on the fields that are present. */
  predicate ValidDogChanges(b: DogBody)
  {
    && (b.name.Some? ==> ValidName(b.name.value))
    && (b.breed.Some? ==> ValidName(b.breed.value))
    && (b.age.Some? ==> ValidAge(b.age.value))
    && (b.size.Some? ==> ParseSize(b.size.value).Some?)
    && (b.energyLevel.Some? ==> ValidEnergy(b.energyLevel.value))
    && (b.vaccination.Some? ==> ParseVaccination(b.vaccination.value).Some?)
  }

  /** A body that may create a dog may also be used to update one. */
  lemma NewDogIsValidChange(b: DogBody)
    requires ValidNewDog(b)
    ensures ValidDogChanges(b)
  {
  }

  /** A supplied spelling, read as the value it names; absent stays absent. */
  function ParseOpt<T>(o: Option<string>, parse: string -> Option<T>): (r: Option<T>)
    requires o.Some? ==> parse(o.value).Some?
    ensures o.None? <==> r.None?
    ensures o.Some? ==> r == parse(o.value)
  {
    if o.Some? then parse(o.value) else None
  }

  /** GET /: the requester's dogs, which are exactly the ones the ownership
      resolver gives. */
  function ListDogs(dogs: map<DogId, Dog>, user: UserId): (r: map<DogId, Dog>)
    ensures r.Keys == OwnedDogs(dogs, user)
    ensures forall id :: id in r ==> r[id] == dogs[id] && r[id].owner == user
  {
    map id | id in dogs && dogs[id].owner == user :: dogs[id]
  }

  /** GET /:dogId: 404 for an unknown dog, 403 for someone else's dog. */
  function GetDog(dogs: map<DogId, Dog>, user: UserId, dogId: DogId): (r: Reply<Dog>)
    ensures r.code == NotFound404 <==> dogId !in dogs
    ensures r.code == Forbidden403 <==> dogId in dogs && dogs[dogId].owner != user
    ensures r.code == Ok200 <==> dogId in dogs && dogs[dogId].owner == user
    ensures r.code == Ok200 ==> r.body == Some(dogs[dogId])
  {
    if dogId !in dogs then Fail(NotFound404)
    else if dogs[dogId].owner != user then Fail(Forbidden403)
    else Answer(Ok200, dogs[dogId])
  }

  /** The row POST / inserts: the requester as owner, whatever `owner_id`
      the body carries, since it is written after the spread; name, breed
      and bio trimmed; every other field as supplied. */
  function NewDog(user: UserId, b: DogBody, now: Time): (d: Dog)
    requires ValidNewDog(b)
    ensures d.owner == user
    ensures d.name == Trim(b.name.value) && d.breed == Trim(b.breed.value)
    ensures !Blank(d.name) && !Blank(d.breed)
    ensures d.age == b.age.value && d.age >= 0
    ensures SizeName(d.size) == b.size.value
    ensures d.temperament == b.temperament.value
    ensures d.energyLevel == b.energyLevel.value && 1 <= d.energyLevel <= 5
    ensures d.bio == TrimOpt(b.bio) && d.imageUrls == b.imageUrls
    ensures d.isFixed == b.isFixed.value
    ensures VaccinationName(d.vaccination) == b.vaccination.value
    ensures d.createdAt == now && d.updatedAt == now
  {
    NonBlankTrimKeepsText(b.name.value);
    NonBlankTrimKeepsText(b.breed.value);
    Dog(user, Trim(b.name.value), Trim(b.breed.value), b.age.value,
        ParseSize(b.size.value).value, b.temperament.value, b.energyLevel.value,
        TrimOpt(b.bio), b.imageUrls, b.isFixed.value,
        ParseVaccination(b.vaccination.value).value, now, now)
  }

  /** POST /: 400 unless every validator passes; 500 when the requester has
      no profile for `owner_id` to reference; otherwise exactly one new dog,
      `NewDog`, is added (201). */
  method CreateDog(db: Db, user: UserId, b: DogBody, now: Time, newId: DogId)
    returns (res: Reply<(DogId, Dog)>)
    modifies db`dogs
    ensures res.code == BadRequest400 <==> !ValidNewDog(b)
    ensures res.code == StoreError500 <==> ValidNewDog(b) && (newId in old(db.dogs) || user !in db.profiles)
    ensures res.code == Created201 <==> ValidNewDog(b) && newId !in old(db.dogs) && user in db.profiles
    ensures res.code == Created201 ==>
              && db.dogs == old(db.dogs)[newId := NewDog(user, b, now)]
              && OwnedDogs(db.dogs, user) == OwnedDogs(old(db.dogs), user) + {newId}
              && res.body == Some((newId, db.dogs[newId]))
    ensures res.code != Created201 ==> db.dogs == old(db.dogs)
  {
    if !ValidNewDog(b) {
      return Fail(BadRequest400);
    }
    if newId in db.dogs || user !in db.profiles {
      // the insert violates the primary key, or `owner_id`, which
      // references `profiles`, names a user without a profile
      return Fail(StoreError500);
    }
    var d := NewDog(user, b, now);
    db.dogs := db.dogs[newId := d];
    res := Answer(Created201, (newId, d));
  }

  /** The row after a PATCH: each field present in the body replaces the
      stored one, `owner_id` included, since the whole body is spread into
      the update; absent fields keep their values. */
  function ApplyDogChanges(d: Dog, b: DogBody, now: Time): (r: Dog)
    requires ValidDogChanges(b)
    ensures r.createdAt == d.createdAt && r.updatedAt == now
    ensures b.ownerId.Some? ==> r.owner == b.ownerId.value
    ensures b.ownerId.None? ==> r.owner == d.owner
    ensures b.name.Some? ==> r.name == Trim(b.name.value)
    ensures b.breed.Some? ==> r.breed == Trim(b.breed.value)
    ensures b.size.Some? ==> SizeName(r.size) == b.size.value
    ensures b.bio.Some? ==> r.bio == Some(Trim(b.bio.value))
    ensures b.vaccination.Some? ==> VaccinationName(r.vaccination) == b.vaccination.value
    ensures b.age.Some? ==> r.age == b.age.value
    ensures b.energyLevel.Some? ==> r.energyLevel == b.energyLevel.value
    ensures b.temperament.Some? ==> r.temperament == b.temperament.value
    ensures b.imageUrls.Some? ==> r.imageUrls == b.imageUrls
    ensures b.isFixed.Some? ==> r.isFixed == b.isFixed.value
    ensures b.name.None? ==> r.name == d.name
    ensures b.breed.None? ==> r.breed == d.breed
    ensures b.size.None? ==> r.size == d.size
    ensures b.bio.None? ==> r.bio == d.bio
    ensures b.vaccination.None? ==> r.vaccination == d.vaccination
    ensures b.age.None? ==> r.age == d.age
    ensures b.energyLevel.None? ==> r.energyLevel == d.energyLevel
    ensures b.temperament.None? ==> r.temperament == d.temperament
    ensures b.imageUrls.None? ==> r.imageUrls == d.imageUrls
    ensures b.isFixed.None? ==> r.isFixed == d.isFixed
  {
    Dog(Or(b.ownerId, d.owner),
        Or(TrimOpt(b.name), d.name),
        Or(TrimOpt(b.breed), d.breed),
        Or(b.age, d.age),
        Or(ParseOpt(b.size, ParseSize), d.size),
        Or(b.temperament, d.temperament),
        Or(b.energyLevel, d.energyLevel),
        Or(if b.bio.Some? then Some(TrimOpt(b.bio)) else None, d.bio),
        Or(if b.imageUrls.Some? then Some(b.imageUrls) else None, d.imageUrls),
        Or(b.isFixed, d.isFixed),
        Or(ParseOpt(b.vaccination, ParseVaccination), d.vaccination),
        d.createdAt,
        now)
  }

  /** A dog that satisfied the creation ranges still does after a valid PATCH. */
  lemma ChangesKeepRanges(d: Dog, b: DogBody, now: Time)
    requires ValidDogChanges(b)
    requires ValidAge(d.age) && ValidEnergy(d.energyLevel) && ValidName(d.name) && ValidName(d.breed)
    ensures var r := ApplyDogChanges(d, b, now);
            ValidAge(r.age) && ValidEnergy(r.energyLevel) && ValidName(r.name) && ValidName(r.breed)
  {
  }

  /** Ownership moves only away from the owner who updates: after a PATCH
      of their dog the owner has no dog they did not have, loses this one
      exactly when the body names another `owner_id`, and nobody else loses
      a dog. */
  lemma UpdateOnlyGivesAway(dogs: map<DogId, Dog>, user: UserId, dogId: DogId, b: DogBody, now: Time)
    requires ValidDogChanges(b) && dogId in dogs && dogs[dogId].owner == user
    ensures var after := dogs[dogId := ApplyDogChanges(dogs[dogId], b, now)];
            && after.Keys == dogs.Keys
            && OwnedDogs(after, user) <= OwnedDogs(dogs, user)
            && (dogId !in OwnedDogs(after, user) <==> b.ownerId.Some? && b.ownerId.value != user)
            && (forall u :: u != user ==> OwnedDogs(dogs, u) <= OwnedDogs(after, u))
  {
  }

  /** An `owner_id` in a PATCH body, if any, names a user with a profile. */
  predicate OwnerReferenceHolds(b: DogBody, profiles: map<UserId, Profile>)
  {
    b.ownerId.Some? ==> b.ownerId.value in profiles
  }

  /** PATCH /:dogId: 400 for an invalid body; 404 for an unknown dog; 403 for
      someone else's dog; 500 when the body's `owner_id` names a user without
      a profile; otherwise only that dog changes (200), and an `owner_id` in
      the body hands it to that user. */
  method UpdateDog(db: Db, user: UserId, dogId: DogId, b: DogBody, now: Time)
    returns (res: Reply<(DogId, Dog)>)
    modifies db`dogs
    ensures res.code == BadRequest400 <==> !ValidDogChanges(b)
    ensures res.code == NotFound404 <==> ValidDogChanges(b) && dogId !in old(db.dogs)
    ensures res.code == Forbidden403 <==>
              ValidDogChanges(b) && dogId in old(db.dogs) && old(db.dogs)[dogId].owner != user
    ensures res.code == StoreError500 <==>
              ValidDogChanges(b) && dogId in old(db.dogs) && old(db.dogs)[dogId].owner == user &&
              !OwnerReferenceHolds(b, db.profiles)
    ensures res.code == Ok200 <==>
              ValidDogChanges(b) && dogId in old(db.dogs) && old(db.dogs)[dogId].owner == user &&
              OwnerReferenceHolds(b, db.profiles)
    ensures res.code == Ok200 ==>
              && db.dogs == old(db.dogs)[dogId := ApplyDogChanges(old(db.dogs)[dogId], b, now)]
              && OwnedDogs(db.dogs, user) <= OwnedDogs(old(db.dogs), user)
              && res.body == Some((dogId, db.dogs[dogId]))
    ensures res.code != Ok200 ==> db.dogs == old(db.dogs)
  {
    if !ValidDogChanges(b) {
      return Fail(BadRequest400);
    }
    if dogId !in db.dogs {
      return Fail(NotFound404);
    }
    if db.dogs[dogId].owner != user {
      return Fail(Forbidden403);
    }
    if !OwnerReferenceHolds(b, db.profiles) {
      // the update violates the foreign key from `owner_id` to `profiles`
      return Fail(StoreError500);
    }
    var d := ApplyDogChanges(db.dogs[dogId], b, now);
    UpdateOnlyGivesAway(db.dogs, user, dogId, b, now);
    db.dogs := db.dogs[dogId := d];
    res := Answer(Ok200, (dogId, d));
  }

  /** DELETE /:dogId: 404 for an unknown dog; 403 for someone else's dog;
      otherwise exactly that dog is removed (204). */
  method DeleteDog(db: Db, user: UserId, dogId: DogId) returns (res: Reply<()>)
    modifies db`dogs
    ensures res.code == NotFound404 <==> dogId !in old(db.dogs)
    ensures res.code == Forbidden403 <==> dogId in old(db.dogs) && old(db.dogs)[dogId].owner != user
    ensures res.code == NoContent204 <==> dogId in old(db.dogs) && old(db.dogs)[dogId].owner == user
    ensures res.code == NoContent204 ==> db.dogs == old(db.dogs) - {dogId}
    ensures res.code != NoContent204 ==> db.dogs == old(db.dogs)
  {
    if dogId !in db.dogs {
      return Fail(NotFound404);
    }
    if db.dogs[dogId].owner != user {
      return Fail(Forbidden403);
    }
    db.dogs := db.dogs - {dogId};
    res := Reply(NoContent204, None);
  }
}
