/** Ratings of dogs after completed playdates (routes/ratings.js). */
module Ratings {
  import opened Common
  import opened Store

  /** `isInt({ min: 1, max: 5 })`. */
  predicate ValidScore(n: int)
  {
    1 <= n <= 5
  }

  /** The dog of the match that is not the rated one. */
  function OtherDog(m: Match, rated: DogId): DogId
  {
    if m.dog1 == rated then m.dog2 else m.dog1
  }

  /** The rated dog took part in the playdate's match. */
  predicate RatedInMatch(m: Match, rated: DogId)
  {
    m.dog1 == rated || m.dog2 == rated
  }

  /** The other dog is the rated one's partner in the match, so a rater who
      owns the other dog is on the opposite side of the match. */
  lemma OtherDogIsPartner(m: Match, rated: DogId)
    requires RatedInMatch(m, rated)
    ensures {OtherDog(m, rated), rated} == {m.dog1, m.dog2}
  {
  }

  /** The ratings already given for (playdate, rater, rated dog). */
  function ExistingRatings(rs: map<RatingId, Rating>, playdateId: PlaydateId, rater: UserId, rated: DogId)
    : set<RatingId>
  {
    set id | id in rs && rs[id].playdateId == playdateId && rs[id].raterId == rater && rs[id].ratedDogId == rated
  }

  /** At most one rating per (playdate, rater, rated dog). */
  ghost predicate RatingsUnique(rs: map<RatingId, Rating>)
  {
    forall i, j :: i in rs && j in rs && i != j ==>
      !(rs[i].playdateId == rs[j].playdateId && rs[i].raterId == rs[j].raterId && rs[i].ratedDogId == rs[j].ratedDogId)
  }

  /** GET /dog/:dogId: every rating of the dog, open to any signed-in user. */
  function RatingsForDog(rs: map<RatingId, Rating>, dogId: DogId): (r: map<RatingId, Rating>)
    ensures forall id :: id in r <==> id in rs && rs[id].ratedDogId == dogId
    ensures forall id :: id in r ==> r[id] == rs[id]
  {
    map id | id in rs && rs[id].ratedDogId == dogId :: rs[id]
  }

  /** A playdate that exists and has been completed. */
  predicate CompletedPlaydate(pds: map<PlaydateId, Playdate>, id: PlaydateId)
  {
    id in pds && pds[id].status == Completed
  }

  /** Everything POST / demands before its duplicate check: a completed
      playdate whose match exists, a rated dog of that match, and a rater who
      owns the match's other dog. */
  predicate Eligible(dogs: map<DogId, Dog>, ms: map<MatchId, Match>, pds: map<PlaydateId, Playdate>,
                     user: UserId, playdateId: PlaydateId, rated: DogId)
  {
    && CompletedPlaydate(pds, playdateId)
    && pds[playdateId].matchId in ms
    && RatedInMatch(ms[pds[playdateId].matchId], rated)
    && OtherDog(ms[pds[playdateId].matchId], rated) in OwnedDogs(dogs, user)
  }

  /** Inserting a rating for a triple that has none keeps ratings unique. */
  lemma InsertKeepsUnique(rs: map<RatingId, Rating>, id: RatingId, row: Rating)
    requires RatingsUnique(rs) && id !in rs
    requires ExistingRatings(rs, row.playdateId, row.raterId, row.ratedDogId) == {}
    ensures RatingsUnique(rs[id := row])
  {
    var rs' := rs[id := row];
    forall i, j | i in rs' && j in rs' && i != j
      ensures !(rs'[i].playdateId == rs'[j].playdateId && rs'[i].raterId == rs'[j].raterId && rs'[i].ratedDogId == rs'[j].ratedDogId)
    {
      if i == id {
        assert j !in ExistingRatings(rs, row.playdateId, row.raterId, row.ratedDogId);
      } else if j == id {
        assert i !in ExistingRatings(rs, row.playdateId, row.raterId, row.ratedDogId);
      }
    }
  }

  /** POST /: 400 for a score outside 1..5; 404 unless the playdate exists and
      is completed; 500 when its match row is missing; 400 unless the rated
      dog is in the match; 403 unless the requester owns the other dog; 409
      when the requester already rated that dog for that playdate; 500 when
      the requester has no profile for `rater_id` to reference; otherwise
      one new rating by the requester (201). */
  method CreateRating(db: Db, user: UserId, playdateId: PlaydateId, rated: DogId, rating: int,
                      review: Option<string>, now: Time, newId: RatingId)
    returns (res: Reply<(RatingId, Rating)>)
    modifies db`ratings
    ensures !ValidScore(rating) ==> res.code == BadRequest400
    ensures ValidScore(rating) && !CompletedPlaydate(db.playdates, playdateId) ==> res.code == NotFound404
    ensures ValidScore(rating) && CompletedPlaydate(db.playdates, playdateId) ==>
              var mid := db.playdates[playdateId].matchId;
              && (mid !in db.matches ==> res.code == StoreError500)
              && (mid in db.matches && !RatedInMatch(db.matches[mid], rated) ==> res.code == BadRequest400)
              && ((mid in db.matches && RatedInMatch(db.matches[mid], rated) &&
                   OtherDog(db.matches[mid], rated) !in OwnedDogs(db.dogs, user)) ==> res.code == Forbidden403)
    ensures ValidScore(rating) && Eligible(db.dogs, db.matches, db.playdates, user, playdateId, rated) ==>
              var found := ExistingRatings(old(db.ratings), playdateId, user, rated);
              && (|found| == 1 ==> res.code == Conflict409)
              && (|found| > 1 ==> res.code == StoreError500)
              && (found == {} && (newId in old(db.ratings) || user !in db.profiles) ==> res.code == StoreError500)
              && (found == {} && newId !in old(db.ratings) && user in db.profiles ==> res.code == Created201)
    ensures res.code == Created201 ==>
              && res.body == Some((newId, Rating(playdateId, user, rated, rating, EmptyAsNull(review), now, now)))
              && db.ratings == old(db.ratings)[newId := Rating(playdateId, user, rated, rating, EmptyAsNull(review), now, now)]
    ensures res.code != Created201 ==> db.ratings == old(db.ratings)
    ensures RatingsUnique(old(db.ratings)) ==> RatingsUnique(db.ratings)
  {
    if !ValidScore(rating) {
      return Fail(BadRequest400);
    }
    if playdateId !in db.playdates || db.playdates[playdateId].status != Completed {
      return Fail(NotFound404);
    }
    var mid := db.playdates[playdateId].matchId;
    if mid !in db.matches {
      // `.single()` on the missing match row reports an error
      return Fail(StoreError500);
    }
    var m := db.matches[mid];
    if !RatedInMatch(m, rated) {
      return Fail(BadRequest400);
    }
    var owned := OwnedDogs(db.dogs, user);
    if OtherDog(m, rated) !in owned {
      return Fail(Forbidden403);
    }
    var found := ExistingRatings(db.ratings, playdateId, user, rated);
    if |found| > 1 {
      return Fail(StoreError500);
    }
    if found != {} {
      return Fail(Conflict409);
    }
    if newId in db.ratings || user !in db.profiles {
      // the insert violates the primary key, or `rater_id`, which
      // references `profiles`, names a user without a profile
      return Fail(StoreError500);
    }
    var row := Rating(playdateId, user, rated, rating, EmptyAsNull(review), now, now);
    if RatingsUnique(db.ratings) { InsertKeepsUnique(db.ratings, newId, row); }
    db.ratings := db.ratings[newId := row];
    res := Answer(Created201, (newId, row));
  }

  /** PATCH /:ratingId: 400 for a supplied score outside 1..5; 404 for an
      unknown rating; 403 unless the requester wrote it; otherwise the supplied
      score and review replace the stored ones (200). */
  method UpdateRating(db: Db, user: UserId, ratingId: RatingId, rating: Option<int>,
                      review: Option<string>, now: Time)
    returns (res: Reply<(RatingId, Rating)>)
    modifies db`ratings
    ensures rating.Some? && !ValidScore(rating.value) ==> res.code == BadRequest400
    ensures (rating.None? || ValidScore(rating.value)) ==>
              && (ratingId !in old(db.ratings) ==> res.code == NotFound404)
              && (ratingId in old(db.ratings) && old(db.ratings)[ratingId].raterId != user ==> res.code == Forbidden403)
              && (ratingId in old(db.ratings) && old(db.ratings)[ratingId].raterId == user ==> res.code == Ok200)
    ensures res.code == Ok200 ==>
              && ratingId in old(db.ratings) && db.ratings.Keys == old(db.ratings).Keys
              && (forall id :: id in db.ratings && id != ratingId ==> db.ratings[id] == old(db.ratings)[id])
              && var was := old(db.ratings)[ratingId];
                 var row := db.ratings[ratingId];
                 && row.playdateId == was.playdateId && row.raterId == was.raterId
                 && row.ratedDogId == was.ratedDogId && row.createdAt == was.createdAt
                 && row.rating == (if rating.Some? then rating.value else was.rating)
                 && row.review == (if review.Some? then review else was.review)
                 && row.updatedAt == now
                 && (ValidScore(was.rating) ==> ValidScore(row.rating))
                 && res.body == Some((ratingId, row))
    ensures res.code != Ok200 ==> db.ratings == old(db.ratings)
    ensures RatingsUnique(old(db.ratings)) ==> RatingsUnique(db.ratings)
  {
    if rating.Some? && !ValidScore(rating.value) {
      return Fail(BadRequest400);
    }
    if ratingId !in db.ratings {
      return Fail(NotFound404);
    }
    var was := db.ratings[ratingId];
    if was.raterId != user {
      return Fail(Forbidden403);
    }
    var row := was.(rating := if rating.Some? then rating.value else was.rating,
                     review := if review.Some? then review else was.review,
                     updatedAt := now);
    db.ratings := db.ratings[ratingId := row];
    res := Answer(Ok200, (ratingId, row));
  }

  /** DELETE /:ratingId: 404 for an unknown rating; 403 unless the requester
      wrote it; otherwise exactly that rating is removed (204). */
  method DeleteRating(db: Db, user: UserId, ratingId: RatingId) returns (res: Reply<()>)
    modifies db`ratings
    ensures ratingId !in old(db.ratings) <==> res.code == NotFound404
    ensures ratingId in old(db.ratings) && old(db.ratings)[ratingId].raterId != user <==> res.code == Forbidden403
    ensures ratingId in old(db.ratings) && old(db.ratings)[ratingId].raterId == user <==> res.code == NoContent204
    ensures res.code == NoContent204 ==> db.ratings == old(db.ratings) - {ratingId}
    ensures res.code != NoContent204 ==> db.ratings == old(db.ratings)
    ensures RatingsUnique(old(db.ratings)) ==> RatingsUnique(db.ratings)
  {
    if ratingId !in db.ratings {
      return Fail(NotFound404);
    }
    if db.ratings[ratingId].raterId != user {
      return Fail(Forbidden403);
    }
    db.ratings := db.ratings - {ratingId};
    res := Reply(NoContent204, None);
  }
}
