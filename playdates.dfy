/** Playdates anchored to a match (routes/playdates.js). */
module Playdates {
  import opened Common
  import opened Store

  /** `isFloat({ min: -90, max: 90 })` and `isFloat({ min: -180, max: 180 })`
      on the two coordinates. */
  predicate ValidLocation(loc: Location)
  {
    -90.0 <= loc.latitude <= 90.0 && -180.0 <= loc.longitude <= 180.0
  }

  /** `isIn(['scheduled', 'completed', 'cancelled'])`. */
  function ParsePlaydateStatus(s: string): (r: Option<PlaydateStatus>)
    ensures r.Some? <==> s in {"scheduled", "completed", "cancelled"}
    ensures r.Some? ==> PlaydateStatusName(r.value) == s
  {
    match s
    case "scheduled" => Some(Scheduled)
    case "completed" => Some(Completed)
    case "cancelled" => Some(Cancelled)
    case _ => None
  }

  /** The stored spelling of a playdate status. */
  function PlaydateStatusName(st: PlaydateStatus): string
  {
    match st
    case Scheduled => "scheduled"
    case Completed => "completed"
    case Cancelled => "cancelled"
  }

  /** Every playdate status can be set through PATCH by its own spelling. */
  lemma ParsePlaydateStatusName(st: PlaydateStatus)
    ensures ParsePlaydateStatus(PlaydateStatusName(st)) == Some(st)
  {
  }

  /** GET /: the playdates whose match involves one of the requester's dogs. */
  function ListPlaydates(dogs: map<DogId, Dog>, ms: map<MatchId, Match>, pds: map<PlaydateId, Playdate>,
                         user: UserId)
    : (r: map<PlaydateId, Playdate>)
    ensures forall id :: id in r <==>
              id in pds && pds[id].matchId in ms && Involves(ms[pds[id].matchId], OwnedDogs(dogs, user))
    ensures forall id :: id in r ==> r[id] == pds[id]
  {
    var owned := OwnedDogs(dogs, user);
    map id | id in pds && pds[id].matchId in ms && Involves(ms[pds[id].matchId], owned) :: pds[id]
  }

  /** POST /: 400 for coordinates out of range; 404 for an unknown match; 403
      unless the requester owns one of the match's dogs (whatever the match's
      status); otherwise one new `scheduled` playdate created by the requester
      (201). */
  method CreatePlaydate(db: Db, user: UserId, matchId: MatchId, scheduledTime: Time,
                        location: Location, notes: Option<string>, now: Time, newId: PlaydateId)
    returns (res: Reply<(PlaydateId, Playdate)>)
    modifies db`playdates
    ensures var owned := OwnedDogs(db.dogs, user);
            && (res.code == BadRequest400 <==> !ValidLocation(location))
            && (res.code == NotFound404 <==> ValidLocation(location) && matchId !in db.matches)
            && (res.code == Forbidden403 <==>
                  ValidLocation(location) && matchId in db.matches && !Involves(db.matches[matchId], owned))
            && (res.code == StoreError500 <==>
                  ValidLocation(location) && matchId in db.matches && Involves(db.matches[matchId], owned) &&
                  newId in old(db.playdates))
            && (res.code == Created201 <==>
                  ValidLocation(location) && matchId in db.matches && Involves(db.matches[matchId], owned) &&
                  newId !in old(db.playdates))
    ensures res.code == Created201 ==>
              var row := Playdate(matchId, scheduledTime, location, EmptyAsNull(notes), Scheduled, user, now, now);
              && res.body == Some((newId, row))
              && db.playdates == old(db.playdates)[newId := row]
    ensures res.code != Created201 ==> db.playdates == old(db.playdates)
  {
    if !ValidLocation(location) {
      return Fail(BadRequest400);
    }
    if matchId !in db.matches {
      return Fail(NotFound404);
    }
    var owned := OwnedDogs(db.dogs, user);
    if !Involves(db.matches[matchId], owned) {
      return Fail(Forbidden403);
    }
    if newId in db.playdates {
      return Fail(StoreError500);
    }
    var row := Playdate(matchId, scheduledTime, location, EmptyAsNull(notes), Scheduled, user, now, now);
    db.playdates := db.playdates[newId := row];
    res := Answer(Created201, (newId, row));
  }

  /** The validated fields a PATCH body may carry; an absent one stays as it is. */
  datatype PlaydateChanges = PlaydateChanges(
    scheduledTime: Option<Time>,
    location: Option<Location>,
    notes: Option<string>,
    status: Option<string>)

  /** The PATCH validators: a supplied location must have coordinates in range
      and a supplied status must be one of the three playdate statuses. */
  predicate ValidChanges(c: PlaydateChanges)
  {
    && (c.location.Some? ==> ValidLocation(c.location.value))
    && (c.status.Some? ==> ParsePlaydateStatus(c.status.value).Some?)
  }

  /** PATCH /:playdateId: 400 for an invalid body; 404 for an unknown
      playdate; 500 when its match row is missing; 403 unless the requester
      owns one of the match's dogs; otherwise the supplied fields replace the
      stored ones, with no restriction on the status transition (200). */
  method UpdatePlaydate(db: Db, user: UserId, playdateId: PlaydateId, c: PlaydateChanges, now: Time)
    returns (res: Reply<(PlaydateId, Playdate)>)
    modifies db`playdates
    ensures var owned := OwnedDogs(db.dogs, user);
            var known := playdateId in old(db.playdates);
            && (res.code == BadRequest400 <==> !ValidChanges(c))
            && (res.code == NotFound404 <==> ValidChanges(c) && !known)
            && (res.code == StoreError500 <==>
                  ValidChanges(c) && known && old(db.playdates)[playdateId].matchId !in db.matches)
            && (res.code == Forbidden403 <==>
                  ValidChanges(c) && known && old(db.playdates)[playdateId].matchId in db.matches &&
                  !Involves(db.matches[old(db.playdates)[playdateId].matchId], owned))
            && (res.code == Ok200 <==>
                  ValidChanges(c) && known && old(db.playdates)[playdateId].matchId in db.matches &&
                  Involves(db.matches[old(db.playdates)[playdateId].matchId], owned))
    ensures res.code == Ok200 ==>
              && playdateId in old(db.playdates) && db.playdates.Keys == old(db.playdates).Keys
              && (forall id :: id in db.playdates && id != playdateId ==> db.playdates[id] == old(db.playdates)[id])
              && var was := old(db.playdates)[playdateId];
                 var row := db.playdates[playdateId];
                 && row.matchId == was.matchId && row.createdBy == was.createdBy && row.createdAt == was.createdAt
                 && row.scheduledTime == (if c.scheduledTime.Some? then c.scheduledTime.value else was.scheduledTime)
                 && row.location == (if c.location.Some? then c.location.value else was.location)
                 && row.notes == (if c.notes.Some? then c.notes else was.notes)
                 && row.status == (if c.status.Some? then ParsePlaydateStatus(c.status.value).value else was.status)
                 && row.updatedAt == now
                 && res.body == Some((playdateId, row))
    ensures res.code != Ok200 ==> db.playdates == old(db.playdates)
  {
    if !ValidChanges(c) {
      return Fail(BadRequest400);
    }
    if playdateId !in db.playdates {
      return Fail(NotFound404);
    }
    var was := db.playdates[playdateId];
    if was.matchId !in db.matches {
      // the embedded match is null and `playdate.match.dog1_id` throws
      return Fail(StoreError500);
    }
    var owned := OwnedDogs(db.dogs, user);
    if !Involves(db.matches[was.matchId], owned) {
      return Fail(Forbidden403);
    }
    var row := was.(
      scheduledTime := if c.scheduledTime.Some? then c.scheduledTime.value else was.scheduledTime,
      location := if c.location.Some? then c.location.value else was.location,
      notes := if c.notes.Some? then c.notes else was.notes,
      status := if c.status.Some? then ParsePlaydateStatus(c.status.value).value else was.status,
      updatedAt := now);
    db.playdates := db.playdates[playdateId := row];
    res := Answer(Ok200, (playdateId, row));
  }
}
